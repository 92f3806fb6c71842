# Measurement Protocol query builder

A model of `QueryBuilder`, the validated parameter accumulator of a Google
Analytics Measurement Protocol (version 1) client. Each `withX` setter runs
its guards in order: a UTF-8 byte-length ceiling, a not-negative check, an
inclusive range check on indices, or the queue-time check. It then renders its
value (`asBoolean`, `Integer.toString`/`Long.toString`, or a `MessageFormat`
key template such as `pr{0}id` or `il{0}pi{1}cd{2}`) and adds exactly one
`(key, value)` parameter. The first guard that fails throws, and nothing has
been added.

The files:

- `guards.dfy` (module `Guards`): the four guards as functions returning
  `Pass` or `Fail(error)`. The error variants carry the fields of the four
  exception constructors. `FirstFailure` runs guards in order. The module also
  holds `asBoolean` and its inverse.
- `query_builder.dfy` (module `Builders`): class `QueryBuilder`. It holds the
  base URI and a `seq` of parameters, and its setters are methods that append
  to it. Java's `int` and `long` are the newtypes `int32` and `int64`. The
  predicate `Valid` says every key added is a protocol key (lower-case letters
  and digits). A setter accepts a builder in any state and keeps `Valid` true
  exactly when it was true before, since every key it adds is a protocol key.
  For a valid builder, `EscapedUri`'s round trip needs only the values to be
  plain.
- `key_template.dfy` (module `KeyTemplate`): the part of `MessageFormat` the
  key constants use. `Parse`/`Text` convert pattern text to and from
  literals and single-digit placeholders. `Format` substitutes arguments with
  `MessageFormat`'s grouped integer rendering. `Match` reads the arguments back
  out of a key.
- `keys.dfy` (module `Keys`): the templated key constants, their parsed
  forms, and `MessageFormat.format(constant, indices...)` for each.
- `decimal.dfy`, `utf8.dfy`, `query.dfy`: decimal rendering and its inverse;
  the UTF-8 byte count of RFC 3629 section 3; and the `base?k=v&k=v` URI with
  its inverse.
- `scenarios.dfy` (module `Scenarios`): the repository's unit tests as
  methods whose postconditions pin the URI or the error each test expects,
  with two exceptions and three additions. `TestWithIlXPiYCdZ` and
  `TestWithIlXPiYCmZ` pin the refusal the code gives for the test's
  arguments (product index 456 is out of [1, 200]), not the URI the test
  expects. `TestWithV1ThenTid`, `TestWithQtZero` and `RetryAfterFailure`
  are not tests of the repository: they pin parameter order, the
  `withQt(0)` refusal, and the state after a refused setter.

A setter returns `Pass` where the Java method returns `this`, and `Fail(e)`
where it throws the exception `e` stands for. Every setter's contract
states:
- the exact outcome, as an if-and-only-if on its inputs;
- the error on failure, with the parameters unchanged;
- the one pair appended on success;
- that `Valid` holds afterwards exactly when it held before.

The errors are the datatype `Guards.ValidationError`, one variant per
exception constructor, with the constructor's parameters as its fields:
`NegativeValue` for `NegativeValueException` (gama-client-core/src/main/java/com/coherentlogic/gama/client/core/exceptions/NegativeValueException.java:15),
`MaxLengthExceeded` for `MaxLengthInBytesExceededException`
(gama-client-core/src/main/java/com/coherentlogic/gama/client/core/exceptions/MaxLengthInBytesExceededException.java:15), `OutOfBounds` for
`ValueOutOfBoundsException` (gama-client-core/src/main/java/com/coherentlogic/gama/client/core/exceptions/ValueOutOfBoundsException.java:15) and
`InvalidQueueTime` for `InvalidQueueTime` (gama-client-core/src/main/java/com/coherentlogic/gama/client/core/exceptions/InvalidQueueTime.java:15).

The unit tests at QueryBuilderTest.java lines 97-111 call `withIlXPiYCdZ` and
`withIlXPiYCmZ` with indices 456 and 789 and expect a key. The code refuses any
index above 200, and the model follows the code: `Scenarios.TestWithIlXPiYCdZ`
and `Scenarios.TestWithIlXPiYCmZ` show the `OutOfBounds` error on the product
index.

## Model

| member | source | states |
|---|---|---|
| Decimal.NatToString | gama-client-core/src/main/java/com/coherentlogic/gama/client/core/builders/QueryBuilder.java:1204 | the rendering of a natural number is a non-empty run of decimal digits with no leading zero (except for 0 itself) |
| Decimal.DigitsValueOfNatToString | gama-client-core/src/main/java/com/coherentlogic/gama/client/core/builders/QueryBuilder.java:1204 | reading the digits of `NatToString(n)` back as a decimal number gives `n` |
| Decimal.IntToString | gama-client-core/src/main/java/com/coherentlogic/gama/client/core/builders/QueryBuilder.java:285 | `Long.toString`/`Integer.toString` is non-empty: digits with no leading zero for a non-negative integer, '-' then such digits for a negative one; `Decimal.IntToStringRoundTrip` and `Decimal.IntToStringInjective` prove it invertible |
| Decimal.IntToStringRoundTrip | gama-client-core/src/main/java/com/coherentlogic/gama/client/core/builders/QueryBuilder.java:285 | `Long.toString`/`Integer.toString` is inverted by `ParseInt` for every integer, negative ones included |
| Decimal.IntToStringInjective | gama-client-core/src/main/java/com/coherentlogic/gama/client/core/builders/QueryBuilder.java:1204 | two different integers never render to the same parameter value |
| Decimal.GroupedDecimal | gama-client-core/src/main/java/com/coherentlogic/gama/client/core/builders/QueryBuilder.java:1517 | `MessageFormat`'s rendering of an integer argument is non-empty and holds a grouping ',' exactly when the number is 1000 or more |
| Decimal.UngroupedGroupedDecimal | gama-client-core/src/main/java/com/coherentlogic/gama/client/core/builders/QueryBuilder.java:1517 | removing the grouping ',' from `MessageFormat`'s rendering of any integer gives back its plain decimal digits |
| Utf8.CharByteCount | gama-client-core/src/main/java/com/coherentlogic/gama/client/core/builders/QueryBuilder.java:151 | a character takes 1 to 4 UTF-8 bytes, and exactly 1 when it is below U+0080 (RFC 3629 section 3) |
| Utf8.ByteLength | gama-client-core/src/main/java/com/coherentlogic/gama/client/core/builders/QueryBuilder.java:151 | `getBytes().length` lies between the character count and four times it |
| Utf8.ByteLengthAppend | gama-client-core/src/main/java/com/coherentlogic/gama/client/core/builders/QueryBuilder.java:151 | the byte length of a concatenation is the sum of the byte lengths |
| Utf8.ByteLengthIsLengthIffAscii | gama-client-core/src/main/java/com/coherentlogic/gama/client/core/builders/QueryBuilder.java:151 | a string takes exactly one byte per character if and only if it is ASCII |
| KeyTemplate.Parse | gama-client-core/src/main/java/com/coherentlogic/gama/client/core/builders/QueryBuilder.java:1499 | whatever pattern text parses yields a pattern that can be written back as text |
| KeyTemplate.ParseText | gama-client-core/src/main/java/com/coherentlogic/gama/client/core/builders/QueryBuilder.java:1499 | parsing the text of a printable pattern gives that pattern back |
| KeyTemplate.TextParse | gama-client-core/src/main/java/com/coherentlogic/gama/client/core/builders/QueryBuilder.java:1499 | writing out a parsed pattern gives back the text it was parsed from |
| KeyTemplate.FormatAppend | gama-client-core/src/main/java/com/coherentlogic/gama/client/core/builders/QueryBuilder.java:1517 | formatting two patterns one after the other is formatting each in turn and concatenating |
| KeyTemplate.MatchFormat | gama-client-core/src/main/java/com/coherentlogic/gama/client/core/builders/QueryBuilder.java:1517 | for arguments below 1000, reading a formatted key back against a pattern whose placeholders are followed by letters recovers the arguments shown, in order |
| KeyTemplate.FormatPattern | gama-client-core/src/main/java/com/coherentlogic/gama/client/core/builders/QueryBuilder.java:1517 | `MessageFormat.format(pattern, args...)` on the pattern text: every literal and every placeholder yields at least one character of the key; its inverse is `KeyTemplate.FormatPatternReadBack` and its concatenation law `KeyTemplate.FormatAppend` |
| KeyTemplate.FormatPatternReadBack | gama-client-core/src/main/java/com/coherentlogic/gama/client/core/builders/QueryBuilder.java:1517 | for a pattern text whose placeholders are each followed by a non-digit literal and arguments below 1000, `Match` reads the shown arguments back from the formatted key |
| KeyTemplate.FormatInjective | gama-client-core/src/main/java/com/coherentlogic/gama/client/core/builders/QueryBuilder.java:1517 | for a pattern whose placeholders are each last or followed by a non-digit literal, and arguments below 1000, two argument lists that format to the same key show the same arguments |
| Keys.PrNIdParses | gama-client-core/src/main/java/com/coherentlogic/gama/client/core/builders/QueryBuilder.java:1499 | `pr{0}id` parses to the letters `pr`, placeholder 0, the letters `id` |
| Keys.PrXCdYParses | gama-client-core/src/main/java/com/coherentlogic/gama/client/core/builders/QueryBuilder.java:1786 | `pr{0}cd{1}` parses to `pr`, placeholder 0, `cd`, placeholder 1 |
| Keys.IlXPiYCdZParses | gama-client-core/src/main/java/com/coherentlogic/gama/client/core/builders/QueryBuilder.java:2329 | `il{0}pi{1}cd{2}` parses to three fields `il`, `pi`, `cd` with placeholders 0, 1, 2 |
| Keys.IlXPiYCmParses | gama-client-core/src/main/java/com/coherentlogic/gama/client/core/builders/QueryBuilder.java:2363 | `il{0}pi{1}cm{2}` parses to three fields `il`, `pi`, `cm` with placeholders 0, 1, 2 |
| Keys.PromoNIdParses | gama-client-core/src/main/java/com/coherentlogic/gama/client/core/builders/QueryBuilder.java:2396 | `promo{0}id` parses to `promo`, placeholder 0, `id` |
| Keys.CdXParses | gama-client-core/src/main/java/com/coherentlogic/gama/client/core/builders/QueryBuilder.java:2869 | `cd{0}` parses to `cd` and placeholder 0 |
| Keys.CmXParses | gama-client-core/src/main/java/com/coherentlogic/gama/client/core/builders/QueryBuilder.java:2891 | `cm{0}` parses to `cm` and placeholder 0 |
| Keys.PrNIdKey | gama-client-core/src/main/java/com/coherentlogic/gama/client/core/builders/QueryBuilder.java:1517 | `MessageFormat.format(PR_N_ID, n)` is `pr`, the grouped rendering of n, `id`; below 1000 the plain decimal digits |
| Keys.PrXCdYKey | gama-client-core/src/main/java/com/coherentlogic/gama/client/core/builders/QueryBuilder.java:1807 | `MessageFormat.format(PR_X_CD_Y, x, y)` is `pr` x `cd` y with both indices rendered in declared order |
| Keys.IlXPiYCdZKey | gama-client-core/src/main/java/com/coherentlogic/gama/client/core/builders/QueryBuilder.java:2356 | `MessageFormat.format(IL_X_PI_Y_CD_Z, x, y, z)` is `il` x `pi` y `cd` z, each index rendered in declared order |
| Keys.IlXPiYCmZKey | gama-client-core/src/main/java/com/coherentlogic/gama/client/core/builders/QueryBuilder.java:2389 | `MessageFormat.format(IL_X_PI_Y_CM, x, y, z)` is `il` x `pi` y `cm` z, each index rendered in declared order |
| Keys.PromoNIdKey | gama-client-core/src/main/java/com/coherentlogic/gama/client/core/builders/QueryBuilder.java:2415 | `MessageFormat.format(PROMO_N_ID, n)` is `promo`, n, `id` |
| Keys.CdXKey | gama-client-core/src/main/java/com/coherentlogic/gama/client/core/builders/QueryBuilder.java:2886 | `MessageFormat.format(CDX, n)` is `cd` followed by n |
| Keys.CmXKey | gama-client-core/src/main/java/com/coherentlogic/gama/client/core/builders/QueryBuilder.java:2908 | `MessageFormat.format(CMX, n)` is `cm` followed by n |
| Keys.IlXPiYCdZShown | gama-client-core/src/main/java/com/coherentlogic/gama/client/core/builders/QueryBuilder.java:2329 | the impression-list dimension pattern shows its three arguments in declared order, each placeholder followed by a letter or the end |
| Keys.IlXPiYCdZKeyInjective | gama-client-core/src/main/java/com/coherentlogic/gama/client/core/builders/QueryBuilder.java:2356 | for indices below 1000, distinct (list, product, dimension) triples give distinct keys |
| Keys.PrXCdYShown | gama-client-core/src/main/java/com/coherentlogic/gama/client/core/builders/QueryBuilder.java:1786 | the product dimension pattern shows its two arguments in declared order, each placeholder followed by a letter or the end |
| Keys.PrXCdYKeyInjective | gama-client-core/src/main/java/com/coherentlogic/gama/client/core/builders/QueryBuilder.java:1807 | for indices below 1000, distinct (product, dimension) pairs give distinct keys |
| Query.ParseFieldOfField | gama-client-core/src/test/java/com/coherentlogic/gama/client/core/builders/QueryBuilderTest.java:58 | a `key=value` field whose key is plain (no '=' and no '&') splits back into that key and value |
| Query.ParseQueryString | gama-client-core/src/test/java/com/coherentlogic/gama/client/core/builders/QueryBuilderTest.java:58 | the `k=v&k=v` query string of plain pairs parses back into the same pairs in the same order |
| Query.Uri | gama-client-core/src/test/java/com/coherentlogic/gama/client/core/builders/QueryBuilderTest.java:58 | the URI starts with the base; it is the base alone exactly when there are no parameters, and otherwise '?' follows the base; `Query.UriRoundTrip` proves `ParseUri` its inverse and `Query.UriAppend` how it grows |
| Query.UriRoundTrip | gama-client-core/src/test/java/com/coherentlogic/gama/client/core/builders/QueryBuilderTest.java:58 | the URI of a builder (base with no '?', plain pairs) splits back into the base and exactly the pairs added |
| Query.UriAppend | gama-client-core/src/test/java/com/coherentlogic/gama/client/core/builders/QueryBuilderTest.java:58 | adding one parameter extends the URI by `?key=value` when it is the first and by `&key=value` otherwise |
| Query.QueryStringAppend | gama-client-core/src/test/java/com/coherentlogic/gama/client/core/builders/QueryBuilderTest.java:58 | a non-empty query string grows by '&' and the new field at its end |
| Guards.FirstFailure | gama-client-core/src/main/java/com/coherentlogic/gama/client/core/builders/QueryBuilder.java:2351-2353 | guards run in order: the outcome passes iff every guard passes, and a failure is the first failing guard's, all guards before it having passed |
| Guards.FirstFailureSkipsPasses | gama-client-core/src/main/java/com/coherentlogic/gama/client/core/builders/QueryBuilder.java:2351-2353 | guards that pass make no difference to the outcome of the guards after them |
| Guards.AssertNotNegative | gama-client-core/src/main/java/com/coherentlogic/gama/client/core/builders/QueryBuilder.java:123-145 | passes iff the value is at least 0; otherwise fails with `NegativeValue(name, value)` |
| Guards.CheckSizeOf | gama-client-core/src/main/java/com/coherentlogic/gama/client/core/builders/QueryBuilder.java:147-156 | passes iff the UTF-8 byte length is at most the limit (the limit itself accepted); otherwise fails with `MaxLengthExceeded(name, value, limit)` |
| Guards.AssertBetween | gama-client-core/src/main/java/com/coherentlogic/gama/client/core/builders/QueryBuilder.java:165-171 | passes iff begin <= actual <= end, both ends inclusive; otherwise fails with `OutOfBounds(name, begin, end, actual)` |
| Guards.CheckQueueTime | gama-client-core/src/main/java/com/coherentlogic/gama/client/core/builders/QueryBuilder.java:282-283 | the queue-time guard as written: passes iff the time is greater than 0; otherwise `InvalidQueueTime(time)` |
| Guards.CheckQueueTimeIntended | gama-client-core/src/main/java/com/coherentlogic/gama/client/core/builders/QueryBuilder.java:274-276 | the queue-time guard as documented: passes iff the time is at least 0; otherwise `InvalidQueueTime(time)` |
| Guards.QueueTimeZeroRejected | gama-client-core/src/main/java/com/coherentlogic/gama/client/core/builders/QueryBuilder.java:280-288 | a queue time of 0 is refused by the code and accepted by the documented rule |
| Guards.QueueTimeGuardsDifferOnlyAtZero | gama-client-core/src/main/java/com/coherentlogic/gama/client/core/builders/QueryBuilder.java:280-288 | the written and the documented queue-time guards agree on every value except 0 |
| Guards.AsBoolean | gama-client-core/src/main/java/com/coherentlogic/gama/client/core/builders/QueryBuilder.java:161-163 | `asBoolean` gives "1" exactly for true and "0" exactly for false |
| Guards.AsBooleanRoundTrip | gama-client-core/src/main/java/com/coherentlogic/gama/client/core/builders/QueryBuilder.java:161-163 | `asBoolean` is inverted by `ParseBoolean`, and "1" and "0" are the only strings that read as a flag |
| Builders.QueryBuilder.constructor | gama-client-core/src/main/java/com/coherentlogic/gama/client/core/builders/QueryBuilder.java:111-113 | a builder at the given URI starts with no parameters |
| Builders.QueryBuilder.Default | gama-client-core/src/main/java/com/coherentlogic/gama/client/core/builders/QueryBuilder.java:103-109 | the no-argument builder (and the one given only a `RestTemplate`) sits at the collection endpoint with no parameters |
| Builders.QueryBuilder.EscapedUri | gama-client-core/src/test/java/com/coherentlogic/gama/client/core/builders/QueryBuilderTest.java:53-58 | with no parameters the URI is the base; with a base without '?' and plain pairs, the URI splits back into the base and exactly the parameters added; for a valid builder it is enough that the values are plain |
| Builders.QueryBuilder.AddParameter | gama-client-core/src/main/java/com/coherentlogic/gama/client/core/builders/QueryBuilder.java:187 | appends exactly one (key, value) pair at the end; the builder stays valid iff the key is a protocol key |
| Builders.QueryBuilder.WithV | gama-client-core/src/main/java/com/coherentlogic/gama/client/core/builders/QueryBuilder.java:185-190 | appends (`v`, version), unchecked |
| Builders.QueryBuilder.WithV1 | gama-client-core/src/main/java/com/coherentlogic/gama/client/core/builders/QueryBuilder.java:200-202 | appends (`v`, `1`) |
| Builders.QueryBuilder.WithTid | gama-client-core/src/main/java/com/coherentlogic/gama/client/core/builders/QueryBuilder.java:215-220 | appends (`tid`, tracking ID), unchecked |
| Builders.QueryBuilder.WithAip | gama-client-core/src/main/java/com/coherentlogic/gama/client/core/builders/QueryBuilder.java:236-243 | appends (`aip`, "1" or "0") |
| Builders.QueryBuilder.WithQt | gama-client-core/src/main/java/com/coherentlogic/gama/client/core/builders/QueryBuilder.java:280-288 | as written: passes iff the queue time is greater than 0; a failure is `InvalidQueueTime` and adds nothing; a pass appends (`qt`, decimal rendering) |
| Builders.QueryBuilder.WithQtIntended | gama-client-core/src/main/java/com/coherentlogic/gama/client/core/builders/QueryBuilder.java:274-276 | as documented: passes iff the queue time is at least 0; otherwise as `WithQt` |
| Builders.QueryBuilder.WithAid | gama-client-core/src/main/java/com/coherentlogic/gama/client/core/builders/QueryBuilder.java:1078-1085 | passes iff the ID is at most 150 bytes; a failure is `MaxLengthExceeded("applicationID", id, 150)` and adds nothing; a pass appends (`aid`, id) |
| Builders.QueryBuilder.WithEv | gama-client-core/src/main/java/com/coherentlogic/gama/client/core/builders/QueryBuilder.java:1200-1207 | passes iff the event value is not negative; a failure is `NegativeValue("eventValue", v)` and adds nothing; a pass appends (`ev`, decimal rendering) |
| Builders.QueryBuilder.WithIqText | gama-client-core/src/main/java/com/coherentlogic/gama/client/core/builders/QueryBuilder.java:1410-1415 | appends (`iq`, quantity text), unchecked |
| Builders.QueryBuilder.WithIq | gama-client-core/src/main/java/com/coherentlogic/gama/client/core/builders/QueryBuilder.java:1429-1436 | passes iff the quantity is not negative; a failure is `NegativeValue("itemQuantity", q)` and adds nothing; a pass appends (`iq`, decimal rendering) |
| Builders.QueryBuilder.WithUtt | gama-client-core/src/main/java/com/coherentlogic/gama/client/core/builders/QueryBuilder.java:2631-2638 | passes iff the timing is not negative; a failure is `NegativeValue("userTimingTime", t)` and adds nothing; a pass appends (`utt`, decimal rendering) |
| Builders.QueryBuilder.WithExf | gama-client-core/src/main/java/com/coherentlogic/gama/client/core/builders/QueryBuilder.java:2862-2867 | appends (`exf`, "1" or "0") |
| Builders.QueryBuilder.WithPrNId | gama-client-core/src/main/java/com/coherentlogic/gama/client/core/builders/QueryBuilder.java:1512-1520 | the outcome is the first failure of the index guard [1, 200] and the 500-byte guard; passes iff both hold; a failure adds nothing; a pass appends (`pr`n`id`, value) |
| Builders.QueryBuilder.WithPrXCdY | gama-client-core/src/main/java/com/coherentlogic/gama/client/core/builders/QueryBuilder.java:1802-1810 | the outcome is the first failure of the two index guards; passes iff both indices lie in [1, 200]; a failure adds nothing; a pass appends (`pr`x`cd`y, value) |
| Builders.QueryBuilder.WithIlXPiYCdZ | gama-client-core/src/main/java/com/coherentlogic/gama/client/core/builders/QueryBuilder.java:2344-2361 | the outcome is the first failure of the list, product and dimension guards in that order; passes iff all three lie in [1, 200]; a failure adds nothing; a pass appends (`il`x`pi`y`cd`z, value) |
| Builders.QueryBuilder.WithIlXPiYCmZ | gama-client-core/src/main/java/com/coherentlogic/gama/client/core/builders/QueryBuilder.java:2378-2394 | as `WithIlXPiYCdZ` with the metric index and the key `il`x`pi`y`cm`z |
| Builders.QueryBuilder.WithPromoNId | gama-client-core/src/main/java/com/coherentlogic/gama/client/core/builders/QueryBuilder.java:2409-2418 | passes iff the promotion index lies in [1, 200]; a failure is `OutOfBounds("promoIndex", 1, 200, n)` and adds nothing; a pass appends (`promo`n`id`, value) |
| Builders.QueryBuilder.WithCdX | gama-client-core/src/main/java/com/coherentlogic/gama/client/core/builders/QueryBuilder.java:2882-2889 | passes iff the dimension index lies in [1, 200]; a failure adds nothing; a pass appends (`cd`n, value) |
| Builders.QueryBuilder.WithCmX | gama-client-core/src/main/java/com/coherentlogic/gama/client/core/builders/QueryBuilder.java:2904-2911 | passes iff the metric index lies in [1, 200]; a failure adds nothing; a pass appends (`cm`n, value) |
| Scenarios.CheckSizeOfFoobar | gama-client-core/src/test/java/com/coherentlogic/gama/client/core/builders/QueryBuilderTest.java:33-41 | `checkSizeOf("foo", "foobar", 7)` passes and with limit 3 fails with `MaxLengthExceeded` |
| Scenarios.FirstParameterUri | gama-client-core/src/test/java/com/coherentlogic/gama/client/core/builders/QueryBuilderTest.java:53-58 | one parameter on a fresh builder gives `base?key=value` |
| Scenarios.TestWithAid | gama-client-core/src/test/java/com/coherentlogic/gama/client/core/builders/QueryBuilderTest.java:53-59 | `withAid("123")` gives `...collect?aid=123` |
| Scenarios.TestWithAidSizeOutOfBounds | gama-client-core/src/test/java/com/coherentlogic/gama/client/core/builders/QueryBuilderTest.java:61-64 | a 151-character ASCII ID fails against the 150-byte limit and the URI stays bare |
| Scenarios.TestWithAip | gama-client-core/src/test/java/com/coherentlogic/gama/client/core/builders/QueryBuilderTest.java:79-85 | `withAip(true)` gives `...collect?aip=1` |
| Scenarios.TestWithV | gama-client-core/src/test/java/com/coherentlogic/gama/client/core/builders/QueryBuilderTest.java:87-93 | `withV("123")` gives `...collect?v=123` |
| Scenarios.TestWithV1ThenTid | gama-client-core/src/main/java/com/coherentlogic/gama/client/core/builders/QueryBuilder.java:200-220 | `withV1()` then `withTid` gives `...collect?v=1&tid=UA-1`: parameters keep the order they were added in |
| Scenarios.TestWithIlXPiYCdZ | gama-client-core/src/main/java/com/coherentlogic/gama/client/core/builders/QueryBuilder.java:2351-2353 | `withIlXPiYCdZ(123, 456, 789, "foo")` fails on the product index 456 and adds nothing |
| Scenarios.TestWithIlXPiYCmZ | gama-client-core/src/main/java/com/coherentlogic/gama/client/core/builders/QueryBuilder.java:2384-2386 | `withIlXPiYCmZ(123, 456, 789, "foo")` fails on the product index 456 and adds nothing |
| Scenarios.TestWithPromoNId | gama-client-core/src/test/java/com/coherentlogic/gama/client/core/builders/QueryBuilderTest.java:113-119 | `withPromoNId(123, "foo")` gives `...collect?promo123id=foo` |
| Scenarios.TestWithUtt | gama-client-core/src/test/java/com/coherentlogic/gama/client/core/builders/QueryBuilderTest.java:193-199 | `withUtt(123)` gives `...collect?utt=123` |
| Scenarios.TestWithExf | gama-client-core/src/test/java/com/coherentlogic/gama/client/core/builders/QueryBuilderTest.java:281-287 | `withExf(true)` gives `...collect?exf=1` |
| Scenarios.TestWithCdX | gama-client-core/src/test/java/com/coherentlogic/gama/client/core/builders/QueryBuilderTest.java:289-295 | `withCdX(100, "foo")` gives `...collect?cd100=foo` |
| Scenarios.TestWithCmX | gama-client-core/src/test/java/com/coherentlogic/gama/client/core/builders/QueryBuilderTest.java:297-303 | `withCmX(100, 200)` gives `...collect?cm100=200` |
| Scenarios.TestWithQtZero | gama-client-core/src/main/java/com/coherentlogic/gama/client/core/builders/QueryBuilder.java:280-288 | `withQt(0)` fails with `InvalidQueueTime(0)`, while the documented guard accepts 0 and adds `qt=0` |
| Scenarios.RetryAfterFailure | gama-client-core/src/main/java/com/coherentlogic/gama/client/core/builders/QueryBuilder.java:1512-1517 | a setter that refuses its input leaves the parameters unchanged, so calling it again refuses with the same error |

## Left out

- `doExecute` and `doPost` (QueryBuilder.java lines 2961-2989): an HTTP POST through Spring's `RestTemplate` and a status check; network I/O against a foreign library, and `PostFailedException` belongs to it.
- The welcome banner printed when the class loads (lines 44-98): console I/O.
- `withCIDAsRandomUUID` (lines 341-343): its value is random.
- The other setters (115 of the 133 public `with…` methods, overloads counted, among them the page-timing setters `withPlt` to `withClt`; 18 are modelled) repeat the shapes modelled here (plain, byte-limited, not-negative, boolean, indexed); a representative one of each shape is modelled.
- `Builders.QueryBuilder.WithCmX`: the Java method takes a `Number` and the unseen base class renders it; the model takes the value as its string rendering.
- `Builders.QueryBuilder.WithUtt`: the Java method hands the `long` itself to the base class; the model renders it with `Long.toString`, which gives `utt=123` for the unit test.
- The `BigDecimal` and other `Number` overloads: their rendering happens in the unseen base class `AbstractRESTQueryBuilder`, which is not part of this model.
- `addParameter` and `getEscapedURI` live in `AbstractRESTQueryBuilder` and the JAX-RS `UriBuilder`, which are not part of this model. Adding is modelled as appending one pair, with no claim about duplicate keys. The URI is modelled without percent-encoding, so `Builders.QueryBuilder.EscapedUri` states its round trip only for keys and values that need no escaping.
- The second `QueryBuilder(restTemplate, uriBuilder)` constructor (lines 115-117): it takes a JAX-RS `UriBuilder`, which is not part of this model.
- `checkSizeOf` uses the platform's default charset; the model counts UTF-8 bytes by code point and does not model lone surrogates.
- The null checks through `Utils.assertNotNull` (lines 125, 139, 149): Dafny values are never null, so the model has no null case.
- `MessageFormat` quoting, nested formats, multi-digit placeholders and a lone '}' (which `MessageFormat` takes as a literal): no key constant uses them, so `KeyTemplate.Parse` refuses them.
- Locales: every integer rendering in the model (`Decimal.NatToString`, `Decimal.IntToString`, `Decimal.GroupedDecimal`) assumes the US locale, with ASCII digits and ',' as the grouping separator. Under another default locale `MessageFormat` may group with another character or print other digits; every index that passes the [1, 200] guard is below 1000, so no separator ever appears in a key.
- The exception message texts: only the constructor arguments are kept, as the fields of `ValidationError`.
- The integration test in gama-client-core-it: it posts to the live service and reads an environment variable.

## Findings

| source | as written | input that shows it | evidently intended | confidence | as-written member | corrected member |
|---|---|---|---|---|---|---|
| gama-client-core/src/main/java/com/coherentlogic/gama/client/core/builders/QueryBuilder.java:280-288 | `withQt` throws `InvalidQueueTime` when the queue time is less than or equal to 0 | `withQt(0)` throws | the doc comment at line 275 says the value must be greater than or equal to 0, and the exception's message (InvalidQueueTime.java line 16) speaks of negative values: 0 should be accepted and give `qt=0` | not executed | Guards.QueueTimeZeroRejected | Builders.QueryBuilder.WithQtIntended |
