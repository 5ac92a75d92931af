/**
 * The `/analyze` endpoint: classify the review's text, stamp the result,
 * hand a copy to the persistence gateway, and return the result whatever
 * became of the write.
 */
module SentimentService {
  import opened Wrappers
  import Validation
  import Classifier
  import Persistence

  /** The `SentimentResult` response model. */
  datatype SentimentResult = SentimentResult(
    brand: string,
    text: string,
    sentiment: string,
    score: real,
    timestamp: string)

  /** The five fields of a result, as the stored record holds them. */
  function ResultFields(r: SentimentResult): map<string, Persistence.Value> {
    map[
      "brand" := Persistence.Str(r.brand),
      "text" := Persistence.Str(r.text),
      "sentiment" := Persistence.Str(r.sentiment),
      "score" := Persistence.Num(r.score),
      "timestamp" := Persistence.Str(r.timestamp)]
  }

  /** The dictionary `analyze` hands to the gateway: the fields plus the table override. */
  function RecordOf(r: SentimentResult): (m: map<string, Persistence.Value>)
    ensures m.Keys == {Persistence.TableKey, "brand", "text", "sentiment", "score", "timestamp"}
    ensures m - {Persistence.TableKey} == ResultFields(r)
    ensures Persistence.TableFor(m) == Persistence.Str(Persistence.DynamoDbTableName)
  {
    var m := ResultFields(r)[Persistence.TableKey := Persistence.Str(Persistence.DynamoDbTableName)];
    assert m - {Persistence.TableKey} == ResultFields(r);
    m
  }

  /** Reads a result back out of a stored record; none if a field is missing or mistyped. */
  function FromFields(m: map<string, Persistence.Value>): Option<SentimentResult> {
    if "brand" in m && "text" in m && "sentiment" in m && "score" in m && "timestamp" in m
       && m["brand"].Str? && m["text"].Str? && m["sentiment"].Str? && m["score"].Num?
       && m["timestamp"].Str?
    then Some(SentimentResult(m["brand"].s, m["text"].s, m["sentiment"].s, m["score"].x, m["timestamp"].s))
    else None
  }

  /** The stored record carries the returned result exactly. */
  lemma StoredRecordRoundTrip(r: SentimentResult)
    ensures FromFields(RecordOf(r) - {Persistence.TableKey}) == Some(r)
  {
  }

  /**
   * `analyze(review)`. The analyzer's polarity of a text (`polarityOf`), the
   * current UTC instant (`timestamp`) and the boto3 write (`put`) are
   * parameters. Returns the response, the record as it was written, and the
   * gateway's report.
   */
  method Analyze(
    review: Validation.Review,
    polarityOf: string -> Classifier.Polarity,
    timestamp: string,
    put: (Persistence.Value, map<string, Persistence.Value>) -> Persistence.WriteOutcome)
    returns (result: SentimentResult, stored: map<string, Persistence.Value>, report: Persistence.SaveReport)
    ensures result.brand == review.brand && result.text == review.text
    ensures result.score == polarityOf(review.text)
    ensures result.sentiment == Classifier.AnalyzeSentiment(polarityOf(review.text)).sentiment.Name()
    ensures result.timestamp == timestamp
    ensures stored == ResultFields(result)
    ensures report == Persistence.Report(
      put(Persistence.Str(Persistence.DynamoDbTableName), stored), Some(Persistence.Str(review.brand)))
  {
    var c := Classifier.AnalyzeSentiment(polarityOf(review.text));
    result := SentimentResult(review.brand, review.text, c.sentiment.Name(), c.score, timestamp);
    var item := new Persistence.Item(RecordOf(result));
    var table;
    table, report := Persistence.SaveToDynamoDB(item, put);
    stored := item.entries;
  }
}
