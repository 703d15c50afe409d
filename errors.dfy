/** The client's error taxonomy (packages/client/src/errors.ts and the error
    classes the rest of the core throws), the API error-message table and the
    text of the SlotValueMismatch message. */
module Errors {

  /** Keys of the `ErrorMsg` enum, in declaration order. */
  datatype ErrorMsg =
    | ACCOUNT_NOT_FOUND
    | INVALID_EVENTID
    | EVENTID_NOT_FOUND
    | EVENT_CODE_MISTYPED
    | EVENT_CODE_NOT_FOUND
    | INVALID_BLOCK
    | BLOCKNUM_NOT_FOUND
    | BLOCK_NOT_FOUND
    | INVALID_ROOT
    | ROOT_NOT_FOUND

  /** The subclasses of RelicApiError. */
  datatype ApiErrorClass =
    | AccountNotFound
    | InvalidEventId
    | EventIdNotFound
    | EventCodeMistyped
    | EventCodeNotFound
    | InvalidBlock
    | BlockNumNotFound
    | BlockNotFound
    | InvalidRoot
    | RootNotFound

  /** Every error the modelled core can raise. */
  datatype Error =
    | UnknownError(message: string)
    | UnsupportedNetwork
    | SlotValueMismatch(value: int, expected: int)
    | ApiError(cls: ApiErrorClass)
      // `new RelicError(message)` thrown directly
    | RelicError(message: string)
      // `new Error(message)` thrown directly
    | PlainError(message: string)
      // a fault raised by the runtime or a library (TypeError, RLP decoding, division by zero)
    | Fault(message: string)
    | BlockNotVerifiable(blockNum: int, chainId: int)
    | NotNativeL2(chainId: int, dataChainId: int)
    | NotL1Network(chainId: int)
    | UnexpectedSlotTime(timestamp: int)
    | TimestampAfterCurrent(timestamp: int)
    | InvalidDataProvider(chainId: int, supported: set<int>)
    | NoBridger(chainId: int, dataChainId: int)

  datatype Result<+T> = Ok(value: T) | Err(error: Error)

  datatype Outcome = Pass | Fail(error: Error)

  datatype Option<+T> = None | Some(value: T)

  /** The string value of each `ErrorMsg` member. */
  function Text(k: ErrorMsg): string {
    match k
    case ACCOUNT_NOT_FOUND => "Account info not available"
    case INVALID_EVENTID => "Invalid eventId"
    case EVENTID_NOT_FOUND => "EventId not found"
    case EVENT_CODE_MISTYPED => "Event code mistyped"
    case EVENT_CODE_NOT_FOUND => "Event code not found"
    case INVALID_BLOCK => "Error parsing request query"
    case BLOCKNUM_NOT_FOUND => "Block number not available"
    case BLOCK_NOT_FOUND => "Block header not available"
    case INVALID_ROOT => "Invalid root number"
    case ROOT_NOT_FOUND => "Root not found"
  }

  /** `Object.keys(ErrorMsg)`: the enum's keys in declaration order. */
  const AllKeys: seq<ErrorMsg> := [
    ACCOUNT_NOT_FOUND, INVALID_EVENTID, EVENTID_NOT_FOUND, EVENT_CODE_MISTYPED,
    EVENT_CODE_NOT_FOUND, INVALID_BLOCK, BLOCKNUM_NOT_FOUND, BLOCK_NOT_FOUND,
    INVALID_ROOT, ROOT_NOT_FOUND
  ]

  /** `errorClassMap`: the class registered for each key. */
  function ClassOf(k: ErrorMsg): ApiErrorClass {
    match k
    case ACCOUNT_NOT_FOUND => AccountNotFound
    case INVALID_EVENTID => InvalidEventId
    case EVENTID_NOT_FOUND => EventIdNotFound
    case EVENT_CODE_MISTYPED => EventCodeMistyped
    case EVENT_CODE_NOT_FOUND => EventCodeNotFound
    case INVALID_BLOCK => InvalidBlock
    case BLOCKNUM_NOT_FOUND => BlockNumNotFound
    case BLOCK_NOT_FOUND => BlockNotFound
    case INVALID_ROOT => InvalidRoot
    case ROOT_NOT_FOUND => RootNotFound
  }

  /** The key each class's constructor passes to `super`. */
  function ConstructorKey(c: ApiErrorClass): ErrorMsg {
    match c
    case AccountNotFound => ACCOUNT_NOT_FOUND
    case InvalidEventId => INVALID_EVENTID
    case EventIdNotFound => EVENTID_NOT_FOUND
    case EventCodeMistyped => EVENT_CODE_MISTYPED
    case EventCodeNotFound => EVENT_CODE_NOT_FOUND
    case InvalidBlock => INVALID_BLOCK
    case BlockNumNotFound => BLOCKNUM_NOT_FOUND
    case BlockNotFound => BLOCK_NOT_FOUND
    case InvalidRoot => INVALID_ROOT
    case RootNotFound => ROOT_NOT_FOUND
  }

  /** `Object.fromEntries(pairs)`: entries are inserted left to right, so a later
      pair with the same key overwrites an earlier one. */
  function FromEntries<K, V>(pairs: seq<(K, V)>): map<K, V> {
    if pairs == [] then map[]
    else FromEntries(pairs[..|pairs| - 1])[pairs[|pairs| - 1].0 := pairs[|pairs| - 1].1]
  }

  /** The entries `[ErrorMsg[err], errorClassMap[err]]` for the keys `ks`. */
  function Entries(ks: seq<ErrorMsg>): (es: seq<(string, ApiErrorClass)>)
    ensures |es| == |ks|
    ensures forall i :: 0 <= i < |ks| ==> es[i] == (Text(ks[i]), ClassOf(ks[i]))
  {
    if ks == [] then [] else [(Text(ks[0]), ClassOf(ks[0]))] + Entries(ks[1..])
  }

  /** `API_ERROR_MAP`. */
  function ApiErrorMap(): map<string, ApiErrorClass> {
    FromEntries(Entries(AllKeys))
  }

  /** The message an error of the class `c` carries: `ErrorMsg[key]`. */
  function ApiErrorMessage(c: ApiErrorClass): string {
    Text(ConstructorKey(c))
  }

  /** Every key of the enum is listed by `Object.keys`. */
  lemma AllKeysComplete(k: ErrorMsg)
    ensures k in AllKeys
  {
  }

  /** The ten message strings are pairwise distinct. */
  lemma TextInjective(a: ErrorMsg, b: ErrorMsg)
    ensures Text(a) == Text(b) ==> a == b
  {
    if Text(a) == Text(b) {
      assert Text(a)[0] == Text(b)[0] && |Text(a)| == |Text(b)|;
      if |Text(a)| == 26 {
        assert Text(a)[6] == Text(b)[6];
      }
      if |Text(a)| == 19 {
        assert Text(a)[0] == Text(b)[0];
      }
    }
  }

  /** The keys of `FromEntries` are exactly the keys of the pairs. */
  lemma {:induction false} FromEntriesKeys<K, V>(pairs: seq<(K, V)>)
    ensures FromEntries(pairs).Keys == set i | 0 <= i < |pairs| :: pairs[i].0
  {
    if pairs != [] {
      var init := pairs[..|pairs| - 1];
      FromEntriesKeys(init);
      assert forall i :: 0 <= i < |init| ==> init[i] == pairs[i];
    }
  }

  /** With distinct keys, `FromEntries` maps each pair's key to that pair's value:
      no entry is overwritten. */
  lemma {:induction false} FromEntriesLookup<K, V>(pairs: seq<(K, V)>, i: nat)
    requires i < |pairs|
    requires forall a, b :: 0 <= a < b < |pairs| ==> pairs[a].0 != pairs[b].0
    ensures pairs[i].0 in FromEntries(pairs) && FromEntries(pairs)[pairs[i].0] == pairs[i].1
  {
    var init := pairs[..|pairs| - 1];
    if i < |pairs| - 1 {
      assert forall a, b :: 0 <= a < b < |init| ==> init[a].0 != init[b].0 by {
        forall a, b | 0 <= a < b < |init| ensures init[a].0 != init[b].0 {
          assert init[a] == pairs[a] && init[b] == pairs[b];
        }
      }
      FromEntriesLookup(init, i);
      assert init[i] == pairs[i];
      assert pairs[i].0 != pairs[|pairs| - 1].0;
    }
  }

  /** The ten keys are listed once each. */
  lemma AllKeysDistinct()
    ensures forall a, b :: 0 <= a < b < |AllKeys| ==> AllKeys[a] != AllKeys[b]
  {
  }

  /** Built from keys listed once each, the map sends each key's message to the
      key's class. */
  lemma EntriesLookup(ks: seq<ErrorMsg>, i: nat)
    requires i < |ks|
    requires forall a, b :: 0 <= a < b < |ks| ==> ks[a] != ks[b]
    ensures Text(ks[i]) in FromEntries(Entries(ks))
    ensures FromEntries(Entries(ks))[Text(ks[i])] == ClassOf(ks[i])
  {
    var es := Entries(ks);
    forall a, b | 0 <= a < b < |es| ensures es[a].0 != es[b].0 {
      TextInjective(ks[a], ks[b]);
    }
    FromEntriesLookup(es, i);
  }

  /** `API_ERROR_MAP` has exactly one key per `ErrorMsg` member, that key is the
      member's message string, and it maps to the class registered for the member. */
  lemma ApiErrorMapEntries(k: ErrorMsg)
    ensures Text(k) in ApiErrorMap()
    ensures ApiErrorMap()[Text(k)] == ClassOf(k)
  {
    AllKeysComplete(k);
    AllKeysDistinct();
    var i :| 0 <= i < |AllKeys| && AllKeys[i] == k;
    EntriesLookup(AllKeys, i);
  }

  /** The map's own keys are exactly the ten message strings: any other string,
      such as a message the API does not document, has no entry of its own.
      Names the plain object inherits, such as `constructor`, are not modelled. */
  lemma ApiErrorMapKeys(s: string)
    ensures s in ApiErrorMap() <==> exists k: ErrorMsg :: Text(k) == s
  {
    var es := Entries(AllKeys);
    FromEntriesKeys(es);
    if s in ApiErrorMap() {
      var i :| 0 <= i < |es| && es[i].0 == s;
      assert Text(AllKeys[i]) == s;
    } else {
      forall k: ErrorMsg ensures Text(k) != s {
        ApiErrorMapEntries(k);
      }
    }
  }

  /** Round trip: the class that `API_ERROR_MAP` gives for the message of `k`
      constructs an error whose message is again that message. */
  lemma ApiErrorRoundTrip(k: ErrorMsg)
    ensures Text(k) in ApiErrorMap()
    ensures ApiErrorMessage(ApiErrorMap()[Text(k)]) == Text(k)
  {
    ApiErrorMapEntries(k);
    ClassKeyRoundTrip(k);
  }

  /** Each class's constructor passes the key the class is registered under. */
  lemma ClassKeyRoundTrip(k: ErrorMsg)
    ensures ConstructorKey(ClassOf(k)) == k
  {
  }

  // ---------------------------------------------------------------------
  // SlotValueMismatch's message: `slot value didn't match expected: ${value} vs ${expected}`,
  // where a BigNumber renders as its base-10 digits, with a leading '-' when negative.

  function DigitChar(d: int): char
    requires 0 <= d < 10
  {
    "0123456789"[d]
  }

  predicate IsDigitChar(c: char) {
    '0' <= c <= '9'
  }

  /** The base-10 digits of `n`, most significant first. */
  function Digits(n: nat): (s: string)
    ensures |s| > 0
    ensures forall i :: 0 <= i < |s| ==> IsDigitChar(s[i])
  {
    if n < 10 then [DigitChar(n)] else Digits(n / 10) + [DigitChar(n % 10)]
  }

  /** `BigNumber.toString()`. */
  function Decimal(v: int): (s: string)
    ensures |s| > 0
    ensures forall i :: 0 <= i < |s| ==> s[i] != ' '
  {
    if v < 0 then "-" + Digits(-v) else Digits(v)
  }

  /** The value a string of digits denotes. */
  function ParseDigits(s: string): int {
    if s == [] then 0 else ParseDigits(s[..|s| - 1]) * 10 + (s[|s| - 1] as int - '0' as int)
  }

  function ParseDecimal(s: string): int {
    if |s| > 0 && s[0] == '-' then -ParseDigits(s[1..]) else ParseDigits(s)
  }

  lemma {:induction false} DigitsRoundTrip(n: nat)
    ensures ParseDigits(Digits(n)) == n
  {
    if n >= 10 {
      DigitsRoundTrip(n / 10);
      var s := Digits(n);
      assert s[..|s| - 1] == Digits(n / 10);
    }
  }

  /** Reading back a rendered BigNumber yields the same value. */
  lemma DecimalRoundTrip(v: int)
    ensures ParseDecimal(Decimal(v)) == v
  {
    if v < 0 {
      var d := Digits(-v);
      assert Decimal(v) == "-" + d;
      assert ("-" + d)[1..] == d;
      DigitsRoundTrip(-v);
    } else {
      var d := Digits(v);
      assert d[0] != '-';
      DigitsRoundTrip(v);
    }
  }

  const MismatchPrefix: string := "slot value didn't match expected: "

  function MismatchMessage(value: int, expected: int): string {
    MismatchPrefix + (Decimal(value) + " vs " + Decimal(expected))
  }

  /** The message of an error, for the errors whose message text is part of the model. */
  function Message(e: Error): Option<string> {
    match e
    case UnknownError(msg) => Some(msg)
    case UnsupportedNetwork => Some("unsupported network")
    case SlotValueMismatch(v, x) => Some(MismatchMessage(v, x))
    case ApiError(c) => Some(ApiErrorMessage(c))
    case RelicError(msg) => Some(msg)
    case PlainError(msg) => Some(msg)
    case _ => None
  }

  lemma PrefixCancel(p: string, s: string, t: string)
    requires p + s == p + t
    ensures s == t
  {
    assert s == (p + s)[|p|..];
    assert t == (p + t)[|p|..];
  }

  /** Two space-free words joined by " vs " can be taken apart again. */
  lemma SplitAtVs(a: string, b: string, a': string, b': string)
    requires forall i :: 0 <= i < |a| ==> a[i] != ' '
    requires forall i :: 0 <= i < |a'| ==> a'[i] != ' '
    requires a + " vs " + b == a' + " vs " + b'
    ensures a == a' && b == b'
  {
    var l, r := a + " vs " + b, a' + " vs " + b';
    assert l[|a|] == ' ' && r[|a'|] == ' ';
    assert |a| == |a'|;
    assert a == l[..|a|] && a' == r[..|a'|];
    assert b == l[|a| + 4..] && b' == r[|a'| + 4..];
  }

  /** SlotValueMismatch's message names the fetched value first and the expected
      value second, and it determines both: distinct pairs give distinct messages. */
  lemma MismatchMessageDetermines(v: int, x: int, v': int, x': int)
    requires MismatchMessage(v, x) == MismatchMessage(v', x')
    ensures v == v' && x == x'
  {
    PrefixCancel(MismatchPrefix, Decimal(v) + " vs " + Decimal(x), Decimal(v') + " vs " + Decimal(x'));
    SplitAtVs(Decimal(v), Decimal(x), Decimal(v'), Decimal(x'));
    DecimalRoundTrip(v);
    DecimalRoundTrip(v');
    DecimalRoundTrip(x);
    DecimalRoundTrip(x');
  }
}
