/**
 * `save_to_dynamodb`: takes the destination table out of the record (an
 * optional `_table_name` entry, else the default table), attempts one write,
 * and turns every failure into a "mock save" notice instead of raising.
 */
module Persistence {
  import opened Wrappers

  /** The values a record holds: strings, and the float score. */
  datatype Value = Str(s: string) | Num(x: real)

  /** The record key that carries a per-call table override. */
  const TableKey: string := "_table_name"
  /** `DYNAMODB_TABLE_NAME`, the default destination table. */
  const DynamoDbTableName: string := "brandguard-reviews"
  const NoCredentialsReason: string := "No AWS credentials"
  const UnknownCode: string := "Unknown"

  /**
   * How the single write attempt ended. Each failure kind is the exception
   * caught by one `except` clause: `NoCredentialsError`, `ClientError` (with
   * the `Error.Code` of its response, if any), `BotoCoreError` and any other
   * `Exception`, each of the last two with its class name.
   * `NoCredentialsError` is itself a `BotoCoreError`; its clause comes first,
   * so `CoreError` stands for every other `BotoCoreError`.
   */
  datatype WriteOutcome =
    | Written
    | NoCredentials
    | ClientError(code: Option<string>)
    | CoreError(typeName: string)
    | OtherError(typeName: string)

  /** What the gateway reports: a stored record, or a mock save and its reason. */
  datatype SaveReport =
    | Saved(brand: Option<Value>)
    | MockSaved(brand: Option<Value>, reason: string)

  /** Python's `dict.get`. */
  function Lookup(entries: map<string, Value>, key: string): (r: Option<Value>)
    ensures r.Some? <==> key in entries
    ensures r.Some? ==> r.value == entries[key]
  {
    if key in entries then Some(entries[key]) else None
  }

  /** The table a record is written to: its override entry, else the default. */
  function TableFor(entries: map<string, Value>): (t: Value)
    ensures TableKey in entries ==> t == entries[TableKey]
    ensures TableKey !in entries ==> t == Str(DynamoDbTableName)
  {
    Lookup(entries, TableKey).GetOr(Str(DynamoDbTableName))
  }

  /** The reason a failed write is logged with; none when the write succeeded. */
  function FallbackReason(o: WriteOutcome): (r: Option<string>)
    ensures r.None? <==> o.Written?
    ensures o.NoCredentials? ==> r == Some(NoCredentialsReason)
    ensures o.ClientError? && o.code.Some? ==> r == Some(o.code.value)
    ensures o.ClientError? && o.code.None? ==> r == Some(UnknownCode)
    ensures o.CoreError? || o.OtherError? ==> r == Some(o.typeName)
  {
    match o
    case Written => None
    case NoCredentials => Some(NoCredentialsReason)
    case ClientError(code) => Some(code.GetOr(UnknownCode))
    case CoreError(name) => Some(name)
    case OtherError(name) => Some(name)
  }

  /** Maps the write outcome to the gateway's report; no outcome escapes as an error. */
  function Report(o: WriteOutcome, brand: Option<Value>): (r: SaveReport)
    ensures r.brand == brand
    ensures r.Saved? <==> o.Written?
    ensures r.MockSaved? ==> FallbackReason(o) == Some(r.reason)
  {
    match FallbackReason(o)
    case None => Saved(brand)
    case Some(reason) => MockSaved(brand, reason)
  }

  /**
   * Taking the override out of a record changes nothing else in it, and in
   * particular not the brand the report names.
   */
  lemma PopKeepsOtherEntries(entries: map<string, Value>, key: string)
    requires key != TableKey
    ensures TableKey !in entries - {TableKey}
    ensures Lookup(entries - {TableKey}, key) == Lookup(entries, key)
  {
  }

  /** The mutable dictionary handed to the gateway. */
  class Item {
    var entries: map<string, Value>

    constructor (entries: map<string, Value>)
      ensures this.entries == entries
    {
      this.entries := entries;
    }

    /** Python's `dict.pop(key, default)`. */
    method Pop(key: string, default: Value) returns (v: Value)
      modifies this
      ensures v == if key in old(entries) then old(entries)[key] else default
      ensures entries == old(entries) - {key}
    {
      v := Lookup(entries, key).GetOr(default);
      entries := entries - {key};
    }
  }

  /**
   * `save_to_dynamodb(item)`. `put` stands for the boto3 table write: given
   * the table name and the record, it tells how the attempt ended. The
   * caller's dictionary loses its override entry in place. `save_to_dynamodb`
   * returns nothing: `table` is returned only so that the contract can name
   * the table passed to `put`, and `report` stands for the printed notice.
   */
  method SaveToDynamoDB(item: Item, put: (Value, map<string, Value>) -> WriteOutcome)
    returns (table: Value, report: SaveReport)
    modifies item
    ensures table == TableFor(old(item.entries))
    ensures item.entries == old(item.entries) - {TableKey}
    ensures report == Report(put(table, item.entries), Lookup(old(item.entries), "brand"))
  {
    table := item.Pop(TableKey, Str(DynamoDbTableName));
    var outcome := put(table, item.entries);
    PopKeepsOtherEntries(old(item.entries), "brand");
    report := Report(outcome, Lookup(item.entries, "brand"));
  }
}
