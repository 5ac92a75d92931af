/**
 * The `Review` request model shared by both services and its field
 * validator `not_empty`, which rejects empty or whitespace-only strings and
 * otherwise yields Python's `str.strip()` of the value.
 */
module Validation {
  import opened Wrappers

  /** The message of the `ValueError` raised by the validator. */
  const EmptyFieldMessage: string := "Field cannot be empty"

  /**
   * Python's notion of whitespace for `str.strip()` and `str.isspace()`:
   * the code points with bidirectional class WS, B or S, or category Zs.
   */
  predicate IsSpace(c: char) {
    var n := c as int;
    (0x09 <= n <= 0x0D) || (0x1C <= n <= 0x20) || n == 0x85 || n == 0xA0 || n == 0x1680
    || (0x2000 <= n <= 0x200A) || n == 0x2028 || n == 0x2029 || n == 0x202F || n == 0x205F
    || n == 0x3000
  }

  predicate AllSpace(s: string) {
    forall i :: 0 <= i < |s| ==> IsSpace(s[i])
  }

  /** Non-empty, with no whitespace at either end: a value `strip()` leaves unchanged. */
  predicate Clean(v: string) {
    v != [] && !IsSpace(v[0]) && !IsSpace(v[|v| - 1])
  }

  /** The first index at or after `i` that holds no whitespace, or `|s|`. */
  function SkipSpaces(s: string, i: nat): (k: nat)
    requires i <= |s|
    ensures i <= k <= |s|
    ensures forall n :: i <= n < k ==> IsSpace(s[n])
    ensures k < |s| ==> !IsSpace(s[k])
    decreases |s| - i
  {
    if i < |s| && IsSpace(s[i]) then SkipSpaces(s, i + 1) else i
  }

  /**
   * Walking back from `j` but not below `lo`: the end of the last run
   * holding no whitespace, or `lo`.
   */
  function SkipSpacesBack(s: string, lo: nat, j: nat): (k: nat)
    requires lo <= j <= |s|
    ensures lo <= k <= j
    ensures forall n :: k <= n < j ==> IsSpace(s[n])
    ensures k > lo ==> !IsSpace(s[k - 1])
    decreases j
  {
    if j > lo && IsSpace(s[j - 1]) then SkipSpacesBack(s, lo, j - 1) else j
  }

  /** Python's `str.strip()` with no argument. */
  function Strip(s: string): (r: string)
    ensures r == [] <==> AllSpace(s)
    ensures r != [] ==> Clean(r)
  {
    var i := SkipSpaces(s, 0);
    var j := SkipSpacesBack(s, i, |s|);
    assert i < |s| ==> i < j;
    s[i..j]
  }

  /** Stripping removes only whitespace, and only from the two ends. */
  lemma StripSplit(s: string) returns (i: nat, j: nat)
    ensures i <= j <= |s|
    ensures Strip(s) == s[i..j]
    ensures AllSpace(s[..i]) && AllSpace(s[j..])
  {
    i := SkipSpaces(s, 0);
    j := SkipSpacesBack(s, i, |s|);
  }

  /**
   * `Strip` is the only way of cutting whitespace off both ends that leaves
   * a string which neither starts nor ends with whitespace.
   */
  lemma StripUnique(p: string, r: string, q: string)
    requires AllSpace(p) && AllSpace(q)
    requires r == [] || Clean(r)
    ensures Strip(p + r + q) == r
  {
    var s := p + r + q;
    if r == [] {
      assert AllSpace(s) by {
        forall n | 0 <= n < |s| ensures IsSpace(s[n]) {
          if n >= |p| {
            assert s[n] == q[n - |p|];
          } else {
            assert s[n] == p[n];
          }
        }
      }
    } else {
      var i, j := |p|, |p| + |r|;
      assert s[i] == r[0] && s[j - 1] == r[|r| - 1];
      assert forall n :: 0 <= n < i ==> s[n] == p[n];
      assert forall n :: j <= n < |s| ==> s[n] == q[n - j];
      var i' := SkipSpaces(s, 0);
      assert i' == i;
      var j' := SkipSpacesBack(s, i, |s|);
      assert j' == j;
      assert s[i..j] == r;
    }
  }

  lemma StripIdempotent(s: string)
    ensures Strip(Strip(s)) == Strip(s)
  {
  }

  /**
   * The `not_empty` field validator: raises on the empty string and on
   * whitespace-only strings, and otherwise returns the stripped value.
   */
  function NotEmpty(v: string): (r: Result<string, string>)
    ensures r.Failure? <==> AllSpace(v)
    ensures r.Failure? ==> r.error == EmptyFieldMessage
    ensures r.Success? ==> r.value == Strip(v)
    ensures r.Success? ==> Clean(r.value)
  {
    if |v| == 0 || |Strip(v)| == 0 then Failure(EmptyFieldMessage) else Success(Strip(v))
  }

  /** A value the validator accepted is accepted again, unchanged. */
  lemma NotEmptyIdempotent(v: string)
    requires NotEmpty(v).Success?
    ensures NotEmpty(NotEmpty(v).value) == NotEmpty(v)
  {
    StripIdempotent(v);
  }

  /** The fields the validator is attached to. */
  datatype Field = Brand | Text

  /** A request body after validation. */
  datatype Review = Review(brand: string, text: string)

  predicate ValidReview(r: Review) {
    Clean(r.brand) && Clean(r.text)
  }

  /**
   * Builds a `Review` from the two raw fields, running the validator on
   * each; on failure it reports every rejected field, in declaration order.
   */
  function ValidateReview(brand: string, text: string): (r: Result<Review, seq<Field>>)
    ensures r.Success? <==> !AllSpace(brand) && !AllSpace(text)
    ensures r.Success? ==> r.value == Review(Strip(brand), Strip(text)) && ValidReview(r.value)
    ensures r.Failure? ==> (Brand in r.error <==> AllSpace(brand)) && (Text in r.error <==> AllSpace(text))
  {
    match (NotEmpty(brand), NotEmpty(text))
    case (Success(b), Success(t)) => Success(Review(b, t))
    case (b, t) =>
      Failure((if b.Failure? then [Brand] else []) + (if t.Failure? then [Text] else []))
  }

  /** A field that needs no stripping is its own stripped form. */
  lemma CleanIsStripped(v: string)
    requires Clean(v)
    ensures Strip(v) == v
  {
  }

  /**
   * Validating an already validated review again accepts it unchanged: this
   * is what happens when the ingestion service forwards a review to the
   * sentiment service, whose model runs the same validator.
   */
  lemma RevalidateReview(r: Review)
    requires ValidReview(r)
    ensures ValidateReview(r.brand, r.text) == Success(r)
  {
    CleanIsStripped(r.brand);
    CleanIsStripped(r.text);
  }

  /** The empty string and a three-space string are rejected, and so is a review whose brand is empty. */
  lemma EmptyAndBlankRejected()
    ensures NotEmpty("").Failure?
    ensures NotEmpty("   ").Failure?
    ensures ValidateReview("", "fine") == Failure([Brand])
  {
    assert AllSpace("   ") by {
      assert forall i :: 0 <= i < 3 ==> "   "[i] == ' ';
    }
    assert !AllSpace("fine") by {
      assert "fine"[0] == 'f';
    }
    assert NotEmpty("").Failure? && NotEmpty("fine").Success?;
    assert [Brand] + [] == [Brand];
  }
}
