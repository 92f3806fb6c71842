/**
  QueryBuilder: a builder for one Measurement Protocol hit. Each `withX`
  setter runs its guards in order, and only when all of them pass adds one
  (key, value) parameter and returns the builder; the first guard that fails
  throws, and nothing has been added. Here a setter returns `Pass` where the
  Java method returns `this`, and `Fail(e)` where it throws the exception
  that `e` stands for.

  The parameters live in the base class `AbstractRESTQueryBuilder`, which is
  not part of this model: `addParameter` is modelled as appending one pair,
  and `getEscapedURI` as `Query.Uri` over the pairs.
*/
module Builders {
  import opened Optional
  import opened Decimal
  import opened Utf8
  import opened Keys
  import opened Query
  import opened Guards

  /** Java's `int`. */
  newtype int32 = x: int | -0x8000_0000 <= x < 0x8000_0000

  /** Java's `long`. */
  newtype int64 = x: int | -0x8000_0000_0000_0000 <= x < 0x8000_0000_0000_0000

  const GOOGLE_ANALYTICS_URL := "http://www.google-analytics.com/collect"

  const V := "v"
  const ONE := "1"
  const TID := "tid"
  const AIP := "aip"
  const QT := "qt"
  const AID := "aid"
  const EV := "ev"
  const UTT := "utt"
  const EXF := "exf"
  const IQ := "iq"

  /** Every index a templated key takes lies in [1, 200]. */
  const MIN_INDEX := 1
  const MAX_INDEX := 200

  /** Keys are lower-case letters and digits. */
  predicate IsKeyChar(c: char) {
    'a' <= c <= 'z' || IsDigit(c)
  }

  predicate IsKeyText(s: string) {
    forall i :: 0 <= i < |s| ==> IsKeyChar(s[i])
  }

  predicate IsKey(k: string) {
    k != [] && IsKeyText(k)
  }

  lemma KeyTextAppend(a: string, b: string)
    requires IsKeyText(a) && IsKeyText(b)
    ensures IsKeyText(a + b)
  {
    forall i | 0 <= i < |a + b| ensures IsKeyChar((a + b)[i]) {
      if i >= |a| {
        assert (a + b)[i] == b[i - |a|];
      }
    }
  }

  lemma DecimalIsKeyText(n: nat)
    ensures IsKeyText(NatToString(n))
  {
  }

  /** A key made of three letter pairs, each followed by an index. */
  lemma ThreeIndexKeyIsKey(a: string, x: nat, b: string, y: nat, c: string, z: nat)
    requires IsKeyText(a) && IsKeyText(b) && IsKeyText(c) && a != []
    ensures IsKey(a + NatToString(x) + b + NatToString(y) + c + NatToString(z))
  {
    DecimalIsKeyText(x);
    DecimalIsKeyText(y);
    DecimalIsKeyText(z);
    KeyTextAppend(a, NatToString(x));
    KeyTextAppend(a + NatToString(x), b);
    KeyTextAppend(a + NatToString(x) + b, NatToString(y));
    KeyTextAppend(a + NatToString(x) + b + NatToString(y), c);
    KeyTextAppend(a + NatToString(x) + b + NatToString(y) + c, NatToString(z));
  }

  /** A key is plain text in a query: it holds neither '&' nor '='. */
  lemma KeyIsPlain(k: string)
    requires IsKeyText(k)
    ensures IsPlain(k)
  {
  }

  /** Every key of a list of parameters is a protocol key. */
  predicate AllKeys(ps: seq<Param>) {
    forall i :: 0 <= i < |ps| ==> IsKey(ps[i].0)
  }

  /** Keys are plain, so a list whose values are plain renders and parses back. */
  lemma AllKeysPlainValues(ps: seq<Param>)
    requires AllKeys(ps)
    requires forall i :: 0 <= i < |ps| ==> IsPlain(ps[i].1)
    ensures AllPlain(ps)
  {
    forall i | 0 <= i < |ps| ensures IsPlain(ps[i].0) {
      KeyIsPlain(ps[i].0);
    }
  }

  class QueryBuilder {
    /** The address the hit is sent to. */
    const baseUri: string
    /** The parameters added so far, in the order they were added. */
    var params: seq<Param>

    /** Every parameter the setters add has a protocol key. */
    ghost predicate Valid()
      reads this
    {
      AllKeys(params)
    }

    /** `QueryBuilder(restTemplate, uri)`: a builder at `uri` with no parameters yet. */
    constructor (uri: string)
      ensures baseUri == uri && params == []
      ensures Valid()
    {
      baseUri := uri;
      params := [];
    }

    /** `QueryBuilder()`: a builder at the collection endpoint. */
    constructor Default()
      ensures baseUri == GOOGLE_ANALYTICS_URL && params == []
      ensures Valid()
    {
      baseUri := GOOGLE_ANALYTICS_URL;
      params := [];
    }

    /**
      `getEscapedURI`, for keys and values that need no escaping. The keys the
      setters add are plain by construction, so for a valid builder only the
      values need checking.
    */
    function EscapedUri(): (uri: string)
      reads this
      ensures params == [] ==> uri == baseUri
      ensures NoQuery(baseUri) && AllPlain(params) ==> ParseUri(uri) == (baseUri, params)
      ensures Valid() && NoQuery(baseUri) && (forall i :: 0 <= i < |params| ==> IsPlain(params[i].1)) ==>
        ParseUri(uri) == (baseUri, params)
    {
      assert Valid() && (forall i :: 0 <= i < |params| ==> IsPlain(params[i].1)) ==> AllPlain(params) by {
        if Valid() && forall i :: 0 <= i < |params| ==> IsPlain(params[i].1) {
          AllKeysPlainValues(params);
        }
      }
      assert NoQuery(baseUri) && AllPlain(params) ==> ParseUri(Uri(baseUri, params)) == (baseUri, params) by {
        if NoQuery(baseUri) && AllPlain(params) {
          UriRoundTrip(baseUri, params);
        }
      }
      Uri(baseUri, params)
    }

    /** `addParameter`: appends one pair. */
    method AddParameter(key: string, value: string)
      modifies this
      ensures params == old(params) + [(key, value)]
      ensures Valid() <==> old(Valid()) && IsKey(key)
    {
      params := params + [(key, value)];
      assert params[|params| - 1] == (key, value);
      assert forall i :: 0 <= i < |old(params)| ==> params[i] == old(params)[i];
    }

    /** `withV`: the protocol version, unchecked. */
    method WithV(protocolVersion: string)
      modifies this
      ensures Valid() <==> old(Valid())
      ensures params == old(params) + [(V, protocolVersion)]
    {
      AddParameter(V, protocolVersion);
    }

    /** `withV1`: protocol version 1. */
    method WithV1()
      modifies this
      ensures Valid() <==> old(Valid())
      ensures params == old(params) + [(V, "1")]
    {
      WithV(ONE);
    }

    /** `withTid`: the tracking ID, unchecked. */
    method WithTid(trackingId: string)
      modifies this
      ensures Valid() <==> old(Valid())
      ensures params == old(params) + [(TID, trackingId)]
    {
      AddParameter(TID, trackingId);
    }

    /** `withAip`: the anonymize-IP flag, as "1" or "0". */
    method WithAip(anonymizeIP: bool)
      modifies this
      ensures Valid() <==> old(Valid())
      ensures params == old(params) + [(AIP, if anonymizeIP then "1" else "0")]
    {
      var value := AsBoolean(anonymizeIP);
      AddParameter(AIP, value);
    }

    /** `withQt` as the code writes it: a queue time of 0 or less is refused. */
    method WithQt(queueTimeMillis: int64) returns (r: Outcome)
      modifies this
      ensures Valid() <==> old(Valid())
      ensures r.Pass? <==> queueTimeMillis > 0
      ensures r.Fail? ==> r.error == InvalidQueueTime(queueTimeMillis as int) && params == old(params)
      ensures r.Pass? ==> params == old(params) + [(QT, IntToString(queueTimeMillis as int))]
    {
      r := CheckQueueTime(queueTimeMillis as int);
      if r.Fail? {
        return;
      }
      AddParameter(QT, IntToString(queueTimeMillis as int));
    }

    /** `withQt` as documented: only a negative queue time is refused. */
    method WithQtIntended(queueTimeMillis: int64) returns (r: Outcome)
      modifies this
      ensures Valid() <==> old(Valid())
      ensures r.Pass? <==> queueTimeMillis >= 0
      ensures r.Fail? ==> r.error == InvalidQueueTime(queueTimeMillis as int) && params == old(params)
      ensures r.Pass? ==> params == old(params) + [(QT, IntToString(queueTimeMillis as int))]
    {
      r := CheckQueueTimeIntended(queueTimeMillis as int);
      if r.Fail? {
        return;
      }
      AddParameter(QT, IntToString(queueTimeMillis as int));
    }

    /** `withAid`: the application ID, at most 150 bytes. */
    method WithAid(applicationID: string) returns (r: Outcome)
      modifies this
      ensures Valid() <==> old(Valid())
      ensures r.Pass? <==> ByteLength(applicationID) <= 150
      ensures r.Fail? ==> r.error == MaxLengthExceeded("applicationID", applicationID, 150) && params == old(params)
      ensures r.Pass? ==> params == old(params) + [(AID, applicationID)]
    {
      r := CheckSizeOf("applicationID", applicationID, 150);
      if r.Fail? {
        return;
      }
      AddParameter(AID, applicationID);
    }

    /** `withEv`: the event value, not negative. */
    method WithEv(eventValue: int32) returns (r: Outcome)
      modifies this
      ensures Valid() <==> old(Valid())
      ensures r.Pass? <==> eventValue >= 0
      ensures r.Fail? ==> r.error == NegativeValue("eventValue", eventValue as int) && params == old(params)
      ensures r.Pass? ==> params == old(params) + [(EV, IntToString(eventValue as int))]
    {
      r := AssertNotNegative("eventValue", eventValue as int);
      if r.Fail? {
        return;
      }
      AddParameter(EV, IntToString(eventValue as int));
    }

    /** `withIq(String)`: the item quantity as text, unchecked. */
    method WithIqText(itemQuantity: string)
      modifies this
      ensures Valid() <==> old(Valid())
      ensures params == old(params) + [(IQ, itemQuantity)]
    {
      AddParameter(IQ, itemQuantity);
    }

    /** `withIq(int)`: the item quantity, not negative. */
    method WithIq(itemQuantity: int32) returns (r: Outcome)
      modifies this
      ensures Valid() <==> old(Valid())
      ensures r.Pass? <==> itemQuantity >= 0
      ensures r.Fail? ==> r.error == NegativeValue("itemQuantity", itemQuantity as int) && params == old(params)
      ensures r.Pass? ==> params == old(params) + [(IQ, IntToString(itemQuantity as int))]
    {
      r := AssertNotNegative("itemQuantity", itemQuantity as int);
      if r.Fail? {
        return;
      }
      AddParameter(IQ, IntToString(itemQuantity as int));
    }

    /** `withUtt`: the user timing time, not negative. */
    method WithUtt(userTimingTime: int64) returns (r: Outcome)
      modifies this
      ensures Valid() <==> old(Valid())
      ensures r.Pass? <==> userTimingTime >= 0
      ensures r.Fail? ==> r.error == NegativeValue("userTimingTime", userTimingTime as int) && params == old(params)
      ensures r.Pass? ==> params == old(params) + [(UTT, IntToString(userTimingTime as int))]
    {
      r := AssertNotNegative("userTimingTime", userTimingTime as int);
      if r.Fail? {
        return;
      }
      AddParameter(UTT, IntToString(userTimingTime as int));
    }

    /** `withExf`: the exception-is-fatal flag, as "1" or "0". */
    method WithExf(exceptionFatal: bool)
      modifies this
      ensures Valid() <==> old(Valid())
      ensures params == old(params) + [(EXF, if exceptionFatal then "1" else "0")]
    {
      AddParameter(EXF, AsBoolean(exceptionFatal));
    }

    /** `withPrNId`: a product SKU; the index in [1, 200], the value at most 500 bytes. */
    method WithPrNId(productIndexN: int32, value: string) returns (r: Outcome)
      modifies this
      ensures Valid() <==> old(Valid())
      ensures r == FirstFailure([
        AssertBetween("productIndexN", MIN_INDEX, MAX_INDEX, productIndexN as int),
        CheckSizeOf("value", value, 500)])
      ensures r.Pass? <==> 1 <= productIndexN <= 200 && ByteLength(value) <= 500
      ensures r.Fail? ==> params == old(params)
      ensures r.Pass? ==> params == old(params) + [("pr" + NatToString(productIndexN as nat) + "id", value)]
    {
      r := AssertBetween("productIndexN", MIN_INDEX, MAX_INDEX, productIndexN as int);
      if r.Fail? {
        return;
      }
      r := CheckSizeOf("value", value, 500);
      if r.Fail? {
        return;
      }
      AddParameter(PrNIdKey(productIndexN as nat), value);
    }

    /** `withPrXCdY`: a product custom dimension; both indices in [1, 200]. */
    method WithPrXCdY(productIndexX: int32, dimensionIndexY: int32, value: string) returns (r: Outcome)
      modifies this
      ensures Valid() <==> old(Valid())
      ensures r == FirstFailure([
        AssertBetween("productIndexX", MIN_INDEX, MAX_INDEX, productIndexX as int),
        AssertBetween("dimensionIndexY", MIN_INDEX, MAX_INDEX, dimensionIndexY as int)])
      ensures r.Pass? <==> 1 <= productIndexX <= 200 && 1 <= dimensionIndexY <= 200
      ensures r.Fail? ==> params == old(params)
      ensures r.Pass? ==>
        params == old(params) + [("pr" + NatToString(productIndexX as nat) + "cd" + NatToString(dimensionIndexY as nat), value)]
    {
      r := AssertBetween("productIndexX", MIN_INDEX, MAX_INDEX, productIndexX as int);
      if r.Fail? {
        return;
      }
      r := AssertBetween("dimensionIndexY", MIN_INDEX, MAX_INDEX, dimensionIndexY as int);
      if r.Fail? {
        return;
      }
      AddParameter(PrXCdYKey(productIndexX as nat, dimensionIndexY as nat), value);
    }

    /** `withIlXPiYCdZ`: a product impression custom dimension; all three indices in [1, 200]. */
    method WithIlXPiYCdZ(listIndex: int32, productIndex: int32, dimensionIndex: int32,
                         productImpressionCustomDimension: string) returns (r: Outcome)
      modifies this
      ensures Valid() <==> old(Valid())
      ensures r == FirstFailure([
        AssertBetween("listIndex", MIN_INDEX, MAX_INDEX, listIndex as int),
        AssertBetween("productIndex", MIN_INDEX, MAX_INDEX, productIndex as int),
        AssertBetween("dimensionIndex", MIN_INDEX, MAX_INDEX, dimensionIndex as int)])
      ensures r.Pass? <==> 1 <= listIndex <= 200 && 1 <= productIndex <= 200 && 1 <= dimensionIndex <= 200
      ensures r.Fail? ==> params == old(params)
      ensures r.Pass? ==>
        var key := "il" + NatToString(listIndex as nat) + "pi" + NatToString(productIndex as nat)
          + "cd" + NatToString(dimensionIndex as nat);
        params == old(params) + [(key, productImpressionCustomDimension)]
    {
      var checkList := AssertBetween("listIndex", MIN_INDEX, MAX_INDEX, listIndex as int);
      var checkProduct := AssertBetween("productIndex", MIN_INDEX, MAX_INDEX, productIndex as int);
      var checkDimension := AssertBetween("dimensionIndex", MIN_INDEX, MAX_INDEX, dimensionIndex as int);
      r := checkList;
      if r.Fail? {
        return;
      }
      r := checkProduct;
      if r.Fail? {
        return;
      }
      FirstFailureSkipsPasses([checkList, checkProduct], [checkDimension]);
      assert [checkList, checkProduct] + [checkDimension] == [checkList, checkProduct, checkDimension];
      r := checkDimension;
      if r.Fail? {
        return;
      }
      var key := IlXPiYCdZKey(listIndex as nat, productIndex as nat, dimensionIndex as nat);
      ThreeIndexKeyIsKey("il", listIndex as nat, "pi", productIndex as nat, "cd", dimensionIndex as nat);
      AddParameter(key, productImpressionCustomDimension);
    }

    /** `withIlXPiYCmZ`: a product impression custom metric; all three indices in [1, 200]. */
    method WithIlXPiYCmZ(listIndex: int32, productIndex: int32, metricIndex: int32,
                         productImpressionCustomMetric: string) returns (r: Outcome)
      modifies this
      ensures Valid() <==> old(Valid())
      ensures r == FirstFailure([
        AssertBetween("listIndex", MIN_INDEX, MAX_INDEX, listIndex as int),
        AssertBetween("productIndex", MIN_INDEX, MAX_INDEX, productIndex as int),
        AssertBetween("metricIndex", MIN_INDEX, MAX_INDEX, metricIndex as int)])
      ensures r.Pass? <==> 1 <= listIndex <= 200 && 1 <= productIndex <= 200 && 1 <= metricIndex <= 200
      ensures r.Fail? ==> params == old(params)
      ensures r.Pass? ==>
        var key := "il" + NatToString(listIndex as nat) + "pi" + NatToString(productIndex as nat)
          + "cm" + NatToString(metricIndex as nat);
        params == old(params) + [(key, productImpressionCustomMetric)]
    {
      var checkList := AssertBetween("listIndex", MIN_INDEX, MAX_INDEX, listIndex as int);
      var checkProduct := AssertBetween("productIndex", MIN_INDEX, MAX_INDEX, productIndex as int);
      var checkMetric := AssertBetween("metricIndex", MIN_INDEX, MAX_INDEX, metricIndex as int);
      r := checkList;
      if r.Fail? {
        return;
      }
      r := checkProduct;
      if r.Fail? {
        return;
      }
      FirstFailureSkipsPasses([checkList, checkProduct], [checkMetric]);
      assert [checkList, checkProduct] + [checkMetric] == [checkList, checkProduct, checkMetric];
      r := checkMetric;
      if r.Fail? {
        return;
      }
      var key := IlXPiYCmZKey(listIndex as nat, productIndex as nat, metricIndex as nat);
      ThreeIndexKeyIsKey("il", listIndex as nat, "pi", productIndex as nat, "cm", metricIndex as nat);
      AddParameter(key, productImpressionCustomMetric);
    }

    /** `withPromoNId`: a promotion ID; the index in [1, 200]. */
    method WithPromoNId(promoIndex: int32, promotionID: string) returns (r: Outcome)
      modifies this
      ensures Valid() <==> old(Valid())
      ensures r == AssertBetween("promoIndex", MIN_INDEX, MAX_INDEX, promoIndex as int)
      ensures r.Pass? <==> 1 <= promoIndex <= 200
      ensures r.Fail? ==> params == old(params)
      ensures r.Pass? ==> params == old(params) + [("promo" + NatToString(promoIndex as nat) + "id", promotionID)]
    {
      r := AssertBetween("promoIndex", MIN_INDEX, MAX_INDEX, promoIndex as int);
      if r.Fail? {
        return;
      }
      AddParameter(PromoNIdKey(promoIndex as nat), promotionID);
    }

    /** `withCdX`: a custom dimension; the index in [1, 200]. */
    method WithCdX(dimensionIndex: int32, customDimension: string) returns (r: Outcome)
      modifies this
      ensures Valid() <==> old(Valid())
      ensures r == AssertBetween("dimensionIndex", MIN_INDEX, MAX_INDEX, dimensionIndex as int)
      ensures r.Pass? <==> 1 <= dimensionIndex <= 200
      ensures r.Fail? ==> params == old(params)
      ensures r.Pass? ==> params == old(params) + [("cd" + NatToString(dimensionIndex as nat), customDimension)]
    {
      r := AssertBetween("dimensionIndex", MIN_INDEX, MAX_INDEX, dimensionIndex as int);
      if r.Fail? {
        return;
      }
      AddParameter(CdXKey(dimensionIndex as nat), customDimension);
    }

    /**
      `withCmX`: a custom metric; the index in [1, 200]. The metric is a
      `Number` whose rendering happens outside this class; it is taken here
      as the text it renders to.
    */
    method WithCmX(metricIndex: int32, customMetric: string) returns (r: Outcome)
      modifies this
      ensures Valid() <==> old(Valid())
      ensures r == AssertBetween("metricIndex", MIN_INDEX, MAX_INDEX, metricIndex as int)
      ensures r.Pass? <==> 1 <= metricIndex <= 200
      ensures r.Fail? ==> params == old(params)
      ensures r.Pass? ==> params == old(params) + [("cm" + NatToString(metricIndex as nat), customMetric)]
    {
      r := AssertBetween("metricIndex", MIN_INDEX, MAX_INDEX, metricIndex as int);
      if r.Fail? {
        return;
      }
      AddParameter(CmXKey(metricIndex as nat), customMetric);
    }
  }
}
