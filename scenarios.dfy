/**
  The unit tests of QueryBuilder, each as a method whose contract pins the
  URI (or the error) the test expects; for the two impression-list tests,
  whose product index 456 the code refuses, it pins that refusal instead.
  Beside them: parameter order (`TestWithV1ThenTid`), the refusal of
  `withQt(0)` (`TestWithQtZero`), and the general facts the tests
  illustrate: a failed setter leaves the builder untouched and fails the
  same way again, and a successful setter on a fresh builder gives
  `base?key=value`.
*/
module Scenarios {
  import opened Decimal
  import opened Utf8
  import opened Query
  import opened Guards
  import opened Builders

  /** `checkSizeOf("foo", "foobar", n)`: six bytes fit in seven and not in three. */
  lemma CheckSizeOfFoobar()
    ensures CheckSizeOf("foo", "foobar", 7) == Pass
    ensures CheckSizeOf("foo", "foobar", 3) == Fail(MaxLengthExceeded("foo", "foobar", 3))
  {
    assert ByteLength("foobar") == 6;
  }

  /** Adding one parameter to a fresh builder gives `base?key=value`. */
  lemma {:induction false} FirstParameterUri(base: string, key: string, value: string)
    ensures Uri(base, [(key, value)]) == base + "?" + key + "=" + value
  {
    UriAppend(base, [], (key, value));
    assert [] + [(key, value)] == [(key, value)];
  }

  method TestWithAid() returns (uri: string)
    ensures uri == "http://www.google-analytics.com/collect?aid=123"
  {
    var b := new QueryBuilder.Default();
    var r := b.WithAid("123");
    assert ByteLength("123") == 3;
    uri := b.EscapedUri();
    FirstParameterUri(GOOGLE_ANALYTICS_URL, AID, "123");
  }

  /** A 151-character ASCII application ID is 151 bytes, one over the limit. */
  method TestWithAidSizeOutOfBounds() returns (r: Outcome, uri: string)
    ensures r == Fail(MaxLengthExceeded("applicationID", seq(151, _ => 'X'), 150))
    ensures uri == "http://www.google-analytics.com/collect"
  {
    var b := new QueryBuilder.Default();
    var id := seq(151, _ => 'X');
    assert IsAscii(id);
    ByteLengthIsLengthIffAscii(id);
    r := b.WithAid(id);
    uri := b.EscapedUri();
  }

  method TestWithAip() returns (uri: string)
    ensures uri == "http://www.google-analytics.com/collect?aip=1"
  {
    var b := new QueryBuilder.Default();
    b.WithAip(true);
    uri := b.EscapedUri();
    FirstParameterUri(GOOGLE_ANALYTICS_URL, AIP, "1");
  }

  method TestWithV() returns (uri: string)
    ensures uri == "http://www.google-analytics.com/collect?v=123"
  {
    var b := new QueryBuilder.Default();
    b.WithV("123");
    uri := b.EscapedUri();
    FirstParameterUri(GOOGLE_ANALYTICS_URL, V, "123");
  }

  /** Parameters appear in the URI in the order they were added. */
  method TestWithV1ThenTid() returns (uri: string)
    ensures uri == "http://www.google-analytics.com/collect?v=1&tid=UA-1"
  {
    var b := new QueryBuilder.Default();
    b.WithV1();
    assert b.params == [(V, "1")];
    b.WithTid("UA-1");
    assert b.params == [(V, "1")] + [(TID, "UA-1")];
    FirstParameterUri(GOOGLE_ANALYTICS_URL, V, "1");
    UriAppend(GOOGLE_ANALYTICS_URL, [(V, "1")], (TID, "UA-1"));
    uri := b.EscapedUri();
  }

  /** The indices 456 and 789 lie outside [1, 200]: the second guard refuses 456 and nothing is added. */
  method TestWithIlXPiYCdZ() returns (r: Outcome, uri: string)
    ensures r == Fail(OutOfBounds("productIndex", 1, 200, 456))
    ensures uri == "http://www.google-analytics.com/collect"
  {
    var b := new QueryBuilder.Default();
    r := b.WithIlXPiYCdZ(123, 456, 789, "foo");
    uri := b.EscapedUri();
  }

  method TestWithIlXPiYCmZ() returns (r: Outcome, uri: string)
    ensures r == Fail(OutOfBounds("productIndex", 1, 200, 456))
    ensures uri == "http://www.google-analytics.com/collect"
  {
    var b := new QueryBuilder.Default();
    r := b.WithIlXPiYCmZ(123, 456, 789, "foo");
    uri := b.EscapedUri();
  }

  method TestWithPromoNId() returns (uri: string)
    ensures uri == "http://www.google-analytics.com/collect?promo123id=foo"
  {
    var b := new QueryBuilder.Default();
    assert NatToString(123) == "123";
    var r := b.WithPromoNId(123, "foo");
    uri := b.EscapedUri();
    FirstParameterUri(GOOGLE_ANALYTICS_URL, "promo123id", "foo");
  }

  method TestWithUtt() returns (uri: string)
    ensures uri == "http://www.google-analytics.com/collect?utt=123"
  {
    var b := new QueryBuilder.Default();
    assert IntToString(123) == "123";
    var r := b.WithUtt(123);
    uri := b.EscapedUri();
    FirstParameterUri(GOOGLE_ANALYTICS_URL, UTT, "123");
  }

  method TestWithExf() returns (uri: string)
    ensures uri == "http://www.google-analytics.com/collect?exf=1"
  {
    var b := new QueryBuilder.Default();
    b.WithExf(true);
    uri := b.EscapedUri();
    FirstParameterUri(GOOGLE_ANALYTICS_URL, EXF, "1");
  }

  method TestWithCdX() returns (uri: string)
    ensures uri == "http://www.google-analytics.com/collect?cd100=foo"
  {
    var b := new QueryBuilder.Default();
    assert NatToString(100) == "100";
    var r := b.WithCdX(100, "foo");
    uri := b.EscapedUri();
    FirstParameterUri(GOOGLE_ANALYTICS_URL, "cd100", "foo");
  }

  method TestWithCmX() returns (uri: string)
    ensures uri == "http://www.google-analytics.com/collect?cm100=200"
  {
    var b := new QueryBuilder.Default();
    assert NatToString(100) == "100";
    var r := b.WithCmX(100, "200");
    uri := b.EscapedUri();
    FirstParameterUri(GOOGLE_ANALYTICS_URL, "cm100", "200");
  }

  /** `withQt(0)` is refused by the code as written and accepted by the documented guard. */
  method TestWithQtZero() returns (asWritten: Outcome, intended: Outcome, uri: string)
    ensures asWritten == Fail(InvalidQueueTime(0))
    ensures intended == Pass
    ensures uri == "http://www.google-analytics.com/collect?qt=0"
  {
    var b := new QueryBuilder.Default();
    asWritten := b.WithQt(0);
    intended := b.WithQtIntended(0);
    uri := b.EscapedUri();
    FirstParameterUri(GOOGLE_ANALYTICS_URL, QT, "0");
  }

  /**
    Every guard runs before the one `addParameter`: a setter that refuses
    its input leaves the builder as it was, so calling it again with the
    same input refuses it with the same error.
  */
  method RetryAfterFailure(b: QueryBuilder, productIndexN: int32, value: string)
      returns (first: Outcome, second: Outcome)
    requires !(1 <= productIndexN <= 200) || ByteLength(value) > 500
    modifies b
    ensures first.Fail? && first == second
    ensures b.params == old(b.params)
  {
    first := b.WithPrNId(productIndexN, value);
    second := b.WithPrNId(productIndexN, value);
  }
}
