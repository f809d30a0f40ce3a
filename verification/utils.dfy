/** The shared helpers of the API layer (src/api/common/utils.js): unit
    conversion between drops and XRP, the wire form of an amount, the
    error-first callback combinators and the snake_case to camelCase key
    rewriting of response objects. */
module Utils {
  import opened Base

  // ---------------------------------------------------------------------
  // Drops and XRP
  // ---------------------------------------------------------------------

  /** One XRP is one million drops. */
  const DropsPerXrp: real := 1000000.0

  /** dropsToXrp: exact division by 10^6 (decimal strings are modelled as
      exact rationals). */
  function DropsToXrp(drops: real): (xrp: real)
    ensures xrp * DropsPerXrp == drops
  {
    drops / DropsPerXrp
  }

  /** xrpToDrops: multiply by 10^6 and round toward negative infinity. */
  function XrpToDrops(xrp: real): (drops: int)
    ensures drops as real <= xrp * DropsPerXrp < drops as real + 1.0
  {
    (xrp * DropsPerXrp).Floor
  }

  /** The drop count is the only integer within one drop below the exact product. */
  lemma XrpToDropsIsFloor(xrp: real, d: int)
    ensures XrpToDrops(xrp) == d <==> d as real <= xrp * DropsPerXrp < d as real + 1.0
  {
  }

  /** A whole number of drops survives the trip through XRP unchanged. */
  lemma DropsRoundTrip(d: int)
    ensures XrpToDrops(DropsToXrp(d as real)) == d
  {
    XrpToDropsIsFloor(DropsToXrp(d as real), d);
  }

  /** Converting back loses less than one drop, and never adds value. */
  lemma XrpRoundTripLoss(xrp: real)
    ensures DropsToXrp(XrpToDrops(xrp) as real) <= xrp
    ensures xrp - DropsToXrp(XrpToDrops(xrp) as real) < 1.0 / DropsPerXrp
  {
  }

  lemma XrpToDropsMonotonic(x: real, y: real)
    requires x <= y
    ensures XrpToDrops(x) <= XrpToDrops(y)
  {
  }

  // ---------------------------------------------------------------------
  // Amounts on the wire
  // ---------------------------------------------------------------------

  /** An amount as the API user writes it; `value` is the decimal value. */
  datatype Amount = Amount(currency: string, value: real,
                           counterparty: Option<string>, issuer: Option<string>)

  /** An amount as the server expects it: XRP as a whole number of drops,
      any other currency as a record naming its issuer. */
  datatype RippledAmount =
    | Drops(drops: int)
    | IssuedAmount(currency: string, issuer: Option<string>, value: real)

  /** toRippledAmount. */
  function ToRippledAmount(amount: Amount): (r: RippledAmount)
    ensures r.Drops? <==> amount.currency == "XRP"
    ensures r.Drops? ==> r.drops == XrpToDrops(amount.value)
    ensures r.IssuedAmount? ==> r.currency == amount.currency && r.value == amount.value
    ensures r.IssuedAmount? && Truthy(amount.counterparty) ==> r.issuer == amount.counterparty
    ensures r.IssuedAmount? && !Truthy(amount.counterparty) && Truthy(amount.issuer) ==>
              r.issuer == amount.issuer
    ensures r.IssuedAmount? ==>
              (r.issuer.None? <==> !Truthy(amount.counterparty) && !Truthy(amount.issuer))
    ensures r.IssuedAmount? && r.issuer.Some? ==> r.issuer.value != ""
  {
    if amount.currency == "XRP" then
      Drops(XrpToDrops(amount.value))
    else
      IssuedAmount(amount.currency,
                   if Truthy(amount.counterparty) then amount.counterparty
                   else if Truthy(amount.issuer) then amount.issuer
                   else None,
                   amount.value)
  }

  /** An XRP amount written from a whole number of drops goes to the wire as
      exactly those drops, whatever issuer fields it carries. */
  lemma XrpAmountFromDrops(d: int, counterparty: Option<string>, issuer: Option<string>)
    ensures ToRippledAmount(Amount("XRP", DropsToXrp(d as real), counterparty, issuer)) == Drops(d)
  {
    DropsRoundTrip(d);
  }

  // ---------------------------------------------------------------------
  // JavaScript values
  // ---------------------------------------------------------------------

  /** A JavaScript value as it appears in a server response. An object is
      the list of its own properties in enumeration order. */
  datatype Json =
    | Undefined
    | Null
    | Bool(b: bool)
    | Num(n: real)
    | Str(s: string)
    | Arr(items: seq<Json>)
    | Obj(fields: seq<(string, Json)>)

  /** The keys of a property list, in order. */
  function Keys(entries: seq<(string, Json)>): (ks: seq<string>)
    ensures |ks| == |entries|
    ensures forall i :: 0 <= i < |entries| ==> ks[i] == entries[i].0
  {
    seq(|entries|, i requires 0 <= i < |entries| => entries[i].0)
  }

  /** A JavaScript object never holds the same key twice. */
  predicate DistinctKeys(entries: seq<(string, Json)>) {
    forall i, j :: 0 <= i < j < |entries| ==> entries[i].0 != entries[j].0
  }

  /** `result[key] = value` on an object: an existing key keeps its place and
      takes the new value, a new key is added at the end. */
  function Put(entries: seq<(string, Json)>, key: string, value: Json): (r: seq<(string, Json)>)
    requires DistinctKeys(entries)
    ensures DistinctKeys(r)
    ensures Keys(r) == if key in Keys(entries) then Keys(entries) else Keys(entries) + [key]
    ensures key !in Keys(entries) ==> r == entries + [(key, value)]
    ensures forall i :: 0 <= i < |r| && r[i].0 == key ==> r[i].1 == value
    ensures forall i :: 0 <= i < |entries| && entries[i].0 != key ==> r[i] == entries[i]
  {
    if key in Keys(entries) then
      seq(|entries|, i requires 0 <= i < |entries| =>
        if entries[i].0 == key then (key, value) else entries[i])
    else
      entries + [(key, value)]
  }

  // ---------------------------------------------------------------------
  // snake_case keys to camelCase
  // ---------------------------------------------------------------------

  predicate IsAsciiLetter(c: char) {
    'a' <= c <= 'z' || 'A' <= c <= 'Z'
  }

  /** String.prototype.toUpperCase on one ASCII letter: a lower-case letter
      becomes the upper-case letter at the same place in the alphabet, and an
      upper-case letter is kept. */
  function ToUpperAscii(c: char): (u: char)
    requires IsAsciiLetter(c)
    ensures 'A' <= u <= 'Z'
    ensures 'A' <= c <= 'Z' ==> u == c
    ensures 'a' <= c <= 'z' ==> u as int - 'A' as int == c as int - 'a' as int
  {
    if 'a' <= c <= 'z' then (c as int - 32) as char else c
  }

  /** The pattern letter, `_`, letter starts at index `i` of `key`. */
  predicate SnakeAt(key: string, i: int) {
    0 <= i && i + 3 <= |key| && IsAsciiLetter(key[i]) && key[i + 1] == '_' && IsAsciiLetter(key[i + 2])
  }

  /** FINDSNAKE.test(key). */
  predicate HasSnake(key: string) {
    exists i :: 0 <= i < |key| && SnakeAt(key, i)
  }

  /** key.replace(FINDSNAKE, r => r[0] + r[2].toUpperCase()): the matches are
      taken left to right without overlap, and each becomes its first letter
      followed by its last letter in upper case. */
  function CamelCaseKey(key: string): (r: string)
    ensures |r| <= |key|
  {
    if |key| < 3 then key
    else if SnakeAt(key, 0) then [key[0], ToUpperAscii(key[2])] + CamelCaseKey(key[3..])
    else [key[0]] + CamelCaseKey(key[1..])
  }

  lemma {:induction false} NoSnakeKeyUnchanged(key: string)
    requires !HasSnake(key)
    ensures CamelCaseKey(key) == key
    decreases |key|
  {
    if |key| >= 3 {
      assert !SnakeAt(key, 0);
      forall i | 0 <= i < |key[1..]| ensures !SnakeAt(key[1..], i) {
        assert !SnakeAt(key, i + 1);
      }
      NoSnakeKeyUnchanged(key[1..]);
    }
  }

  lemma {:induction false} SnakeKeyShortened(key: string)
    requires HasSnake(key)
    ensures |CamelCaseKey(key)| < |key|
    decreases |key|
  {
    var i :| 0 <= i < |key| && SnakeAt(key, i);
    if !SnakeAt(key, 0) {
      assert SnakeAt(key[1..], i - 1);
      SnakeKeyShortened(key[1..]);
    }
  }

  /** A key changes exactly when it holds a letter_letter match. */
  lemma CamelCaseKeyUnchangedIff(key: string)
    ensures CamelCaseKey(key) == key <==> !HasSnake(key)
  {
    if HasSnake(key) {
      SnakeKeyShortened(key);
    } else {
      NoSnakeKeyUnchanged(key);
    }
  }

  /** The rewriting is not idempotent: a second pass finds a match that the
      first pass skipped because it overlapped the previous one. */
  lemma CamelCaseKeyNotIdempotent()
    ensures CamelCaseKey("a_b_c") == "aB_c"
    ensures CamelCaseKey("aB_c") == "aBC"
  {
    assert SnakeAt("a_b_c", 0);
    assert "a_b_c"[3..] == "_c";
    assert !SnakeAt("_c", 0);
    assert !SnakeAt("aB_c", 0);
    assert "aB_c"[1..] == "B_c";
    assert SnakeAt("B_c", 0);
    assert "B_c"[3..] == "";
  }

  function Digit(d: nat): (c: char)
    requires d < 10
    ensures '0' <= c <= '9'
  {
    ('0' as int + d) as char
  }

  /** The decimal text of an array index, as JavaScript turns it into a key. */
  function NatToString(n: nat): (s: string)
    ensures |s| >= 1
    ensures n >= 10 ==> |s| >= 2
    ensures forall k :: 0 <= k < |s| ==> '0' <= s[k] <= '9'
  {
    if n < 10 then [Digit(n)] else NatToString(n / 10) + [Digit(n % 10)]
  }

  lemma {:induction false} NatToStringInjective(a: nat, b: nat)
    requires NatToString(a) == NatToString(b)
    ensures a == b
    decreases a
  {
    var s := NatToString(a);
    if a >= 10 && b >= 10 {
      assert s[|s| - 1] == Digit(a % 10) && s[|s| - 1] == Digit(b % 10);
      assert NatToString(a / 10) == s[..|s| - 1] == NatToString(b / 10);
      NatToStringInjective(a / 10, b / 10);
    }
  }

  lemma IndexKeyUnchanged(n: nat)
    ensures !HasSnake(NatToString(n))
    ensures CamelCaseKey(NatToString(n)) == NatToString(n)
  {
    var s := NatToString(n);
    forall i | 0 <= i < |s| ensures !SnakeAt(s, i) {
      assert '0' <= s[i] <= '9';
    }
    NoSnakeKeyUnchanged(s);
  }

  /** The number of properties `_.reduce` visits: array elements by index,
      object keys in order, none for anything else. */
  function Size(j: Json): nat {
    match j
    case Arr(items) => |items|
    case Obj(fields) => |fields|
    case _ => 0
  }

  /** The key `_.reduce` hands to its iteratee for the `i`th property. */
  function EntryKey(j: Json, i: nat): string
    requires j.Arr? || j.Obj?
    requires i < Size(j)
  {
    if j.Obj? then j.fields[i].0 else NatToString(i)
  }

  /** The value `_.reduce` hands to its iteratee for the `i`th property. */
  function EntryValue(j: Json, i: nat): (v: Json)
    requires j.Arr? || j.Obj?
    requires i < Size(j)
    ensures v < j
  {
    if j.Obj? then j.fields[i].1 else j.items[i]
  }

  /** Assigning `pairs` one after the other into an empty object. */
  function PutAll(pairs: seq<(string, Json)>): (r: seq<(string, Json)>)
    ensures DistinctKeys(r)
  {
    if pairs == [] then []
    else Put(PutAll(pairs[..|pairs| - 1]), pairs[|pairs| - 1].0, pairs[|pairs| - 1].1)
  }

  lemma PutAllAppend(pairs: seq<(string, Json)>, key: string, value: Json)
    ensures PutAll(pairs + [(key, value)]) == Put(PutAll(pairs), key, value)
  {
    assert (pairs + [(key, value)])[..|pairs|] == pairs;
  }

  /** The object has exactly the keys assigned; a key assigned twice is kept once. */
  lemma {:induction false} PutAllKeys(pairs: seq<(string, Json)>)
    ensures forall k :: k in Keys(PutAll(pairs)) <==> k in Keys(pairs)
  {
    if pairs != [] {
      var init := pairs[..|pairs| - 1];
      PutAllKeys(init);
      assert Keys(pairs) == Keys(init) + [pairs[|pairs| - 1].0];
    }
  }

  /** Distinct keys are all kept, in the order they were assigned. */
  lemma {:induction false} PutAllDistinct(pairs: seq<(string, Json)>)
    requires DistinctKeys(pairs)
    ensures PutAll(pairs) == pairs
  {
    if pairs != [] {
      var init := pairs[..|pairs| - 1];
      var last := pairs[|pairs| - 1];
      PutAllDistinct(init);
      assert last.0 !in Keys(init);
      assert init + [last] == pairs;
    }
  }

  /** The value convertKeysFromSnakeCaseToCamelCase computes: objects and
      arrays (and null, whose `typeof` is also 'object') are rebuilt key by
      key with converted keys and converted values; any other value is
      returned as it is. */
  function CamelKeys(j: Json): Json
    decreases j, 1
  {
    match j
    case Null => Obj([])
    case Arr(_) => Obj(PutAll(CamelPairs(j, Size(j))))
    case Obj(_) => Obj(PutAll(CamelPairs(j, Size(j))))
    case _ => j
  }

  /** The assignments `_.reduce` makes for the first `n` properties of `j`:
      the converted key with the converted value. */
  function CamelPairs(j: Json, n: nat): (r: seq<(string, Json)>)
    requires j.Arr? || j.Obj?
    requires n <= Size(j)
    ensures |r| == n
    ensures forall i :: 0 <= i < n ==> r[i] == (CamelCaseKey(EntryKey(j, i)), CamelKeys(EntryValue(j, i)))
    decreases j, 0, n
  {
    if n == 0 then []
    else CamelPairs(j, n - 1) + [(CamelCaseKey(EntryKey(j, n - 1)), CamelKeys(EntryValue(j, n - 1)))]
  }

  /** convertKeysFromSnakeCaseToCamelCase: fills a fresh accumulator object
      one property at a time. */
  method ConvertKeysFromSnakeCaseToCamelCase(obj: Json) returns (r: Json)
    ensures r == CamelKeys(obj)
    decreases obj
  {
    if obj.Null? {
      // `_.reduce(null, …, {})` visits nothing and returns the accumulator
      r := Obj([]);
    } else if obj.Arr? || obj.Obj? {
      var result: seq<(string, Json)> := [];
      var i := 0;
      while i < Size(obj)
        invariant i <= Size(obj)
        invariant result == PutAll(CamelPairs(obj, i))
      {
        var key := EntryKey(obj, i);
        var newKey := key;
        if HasSnake(key) {
          newKey := CamelCaseKey(key);
        } else {
          NoSnakeKeyUnchanged(key);
        }
        var value := ConvertKeysFromSnakeCaseToCamelCase(EntryValue(obj, i));
        PutAllAppend(CamelPairs(obj, i), newKey, value);
        result := Put(result, newKey, value);
        i := i + 1;
      }
      r := Obj(result);
    } else {
      r := obj;
    }
  }

  /** Values that are not objects come back unchanged; `null` becomes `{}`. */
  lemma CamelKeysOfScalars(j: Json)
    requires !j.Arr? && !j.Obj?
    ensures CamelKeys(j) == if j.Null? then Obj([]) else j
  {
  }

  /** The converted object has exactly the converted keys of the original;
      keys that collide after conversion are kept once. */
  lemma CamelKeysKeys(j: Json)
    requires j.Arr? || j.Obj?
    ensures forall k :: k in Keys(CamelKeys(j).fields) <==>
              exists i :: 0 <= i < Size(j) && k == CamelCaseKey(EntryKey(j, i))
  {
    var pairs := CamelPairs(j, Size(j));
    PutAllKeys(pairs);
    forall k ensures k in Keys(pairs) <==> exists i :: 0 <= i < Size(j) && k == CamelCaseKey(EntryKey(j, i)) {
      if k in Keys(pairs) {
        var i :| 0 <= i < |pairs| && Keys(pairs)[i] == k;
        assert k == CamelCaseKey(EntryKey(j, i));
      }
      if exists i :: 0 <= i < Size(j) && k == CamelCaseKey(EntryKey(j, i)) {
        var i :| 0 <= i < Size(j) && k == CamelCaseKey(EntryKey(j, i));
        assert Keys(pairs)[i] == k;
      }
    }
  }

  /** When no two keys collide after conversion, the object keeps its
      properties in order, each under its converted key and carrying its
      recursively converted value. */
  lemma CamelKeysInOrder(j: Json)
    requires j.Arr? || j.Obj?
    requires forall a, b :: 0 <= a < b < Size(j) ==> CamelCaseKey(EntryKey(j, a)) != CamelCaseKey(EntryKey(j, b))
    ensures CamelKeys(j) == Obj(CamelPairs(j, Size(j)))
  {
    PutAllDistinct(CamelPairs(j, Size(j)));
  }

  /** An array becomes an object keyed by the decimal indices, in order. */
  lemma ArrayBecomesIndexedObject(items: seq<Json>)
    ensures CamelKeys(Arr(items)).Obj?
    ensures |CamelKeys(Arr(items)).fields| == |items|
    ensures forall i :: 0 <= i < |items| ==>
              CamelKeys(Arr(items)).fields[i] == (NatToString(i), CamelKeys(items[i]))
  {
    var j := Arr(items);
    forall a, b | 0 <= a < b < |items|
      ensures CamelCaseKey(EntryKey(j, a)) != CamelCaseKey(EntryKey(j, b))
    {
      IndexKeyUnchanged(a);
      IndexKeyUnchanged(b);
      if NatToString(a) == NatToString(b) {
        NatToStringInjective(a, b);
      }
    }
    CamelKeysInOrder(j);
    forall i | 0 <= i < |items|
      ensures CamelKeys(j).fields[i] == (NatToString(i), CamelKeys(items[i]))
    {
      IndexKeyUnchanged(i);
      assert CamelPairs(j, |items|)[i] == (CamelCaseKey(EntryKey(j, i)), CamelKeys(EntryValue(j, i)));
    }
  }

  /** A tree made only of objects and scalars, whose keys have no
      letter_letter match anywhere. */
  predicate AlreadyCamel(j: Json)
    decreases j
  {
    match j
    case Null => false
    case Arr(_) => false
    case Obj(fields) =>
      DistinctKeys(fields) &&
      forall i :: 0 <= i < |fields| ==> !HasSnake(fields[i].0) && AlreadyCamel(fields[i].1)
    case _ => true
  }

  /** Such a tree is left exactly as it is. */
  lemma {:induction false} AlreadyCamelUnchanged(j: Json)
    requires AlreadyCamel(j)
    ensures CamelKeys(j) == j
    decreases j
  {
    if j.Obj? {
      var f := j.fields;
      forall i | 0 <= i < |f|
        ensures CamelCaseKey(EntryKey(j, i)) == f[i].0
        ensures CamelKeys(EntryValue(j, i)) == f[i].1
      {
        NoSnakeKeyUnchanged(f[i].0);
        AlreadyCamelUnchanged(f[i].1);
      }
      CamelKeysInOrder(j);
      var g := CamelKeys(j).fields;
      forall i | 0 <= i < |f| ensures g[i] == f[i] {
      }
      assert g == f;
    }
  }

  // ---------------------------------------------------------------------
  // Errors and error-first callbacks
  // ---------------------------------------------------------------------

  /** The constructor of an error object: `Domain` for the classes deriving
      from RippleError in the library's errors module, `Foreign` for any
      other (transport errors, TypeError, …). */
  datatype ErrorClass = Domain(name: string) | Foreign(name: string)

  const RippleErrorClass: ErrorClass := Domain("RippleError")
  const ApiErrorClass: ErrorClass := Domain("ApiError")

  /** The observable content of an error object at one moment. */
  datatype ErrorValue = ErrorValue(errorClass: ErrorClass, message: string,
                                   remoteMessage: Option<string>, data: Json)

  /** A thrown or passed error object; only `data` is ever assigned after
      construction. `remoteMessage` is the value at `error.remote.error_message`,
      `None` when that path is undefined. */
  class ErrorObject {
    const errorClass: ErrorClass
    const message: string
    const remoteMessage: Option<string>
    var data: Json

    constructor (errorClass: ErrorClass, message: string, remoteMessage: Option<string>, data: Json)
      ensures this.errorClass == errorClass && this.message == message
      ensures this.remoteMessage == remoteMessage && this.data == data
    {
      this.errorClass := errorClass;
      this.message := message;
      this.remoteMessage := remoteMessage;
      this.data := data;
    }

    function Value(): ErrorValue
      reads this
    {
      ErrorValue(errorClass, message, remoteMessage, data)
    }
  }

  /** The content of a possibly absent (falsy) error. */
  function ValueOf(e: ErrorObject?): Option<ErrorValue>
    reads e
  {
    if e == null then None else Some(e.Value())
  }

  /** The arguments an error-first callback is invoked with. */
  datatype Call = Call(error: ErrorObject?, data: Json)

  /** How a synchronous call ended: it returned a value or threw an error. */
  datatype Completion<T> = Returned(value: T) | Threw(exception: ErrorObject)

  /** composeAsync(wrapper, callback) invoked with `c`: the arguments it
      hands to `callback`. */
  function ComposeAsync(wrapper: Json -> Completion<Json>, c: Call): (r: Call)
    ensures c.error != null ==> r == c
    ensures c.error == null && wrapper(c.data).Returned? ==> r == Call(null, wrapper(c.data).value)
    ensures c.error == null && wrapper(c.data).Threw? ==> r == Call(wrapper(c.data).exception, Undefined)
    ensures r.error != null ==> r == c || r.data == Undefined
  {
    if c.error != null then c
    else
      match wrapper(c.data)
      case Returned(result) => Call(null, result)
      case Threw(exception) => Call(exception, Undefined)
  }

  /** An incoming error never reaches the wrapper: whatever the wrapper
      would do, the callback sees the same arguments. */
  lemma ComposeAsyncBypassesWrapper(w1: Json -> Completion<Json>, w2: Json -> Completion<Json>, c: Call)
    requires c.error != null
    ensures ComposeAsync(w1, c) == ComposeAsync(w2, c)
  {
  }

  /** What convertErrors hands to its callback, as a value: no error stays no
      error; a domain error keeps its class, message and remote message and
      takes the new data; any other error becomes a new RippleError whose
      message comes from the remote error message when there is one. */
  function Normalized(e: Option<ErrorValue>, data: Json): (r: Option<ErrorValue>)
    ensures r.None? <==> e.None?
    ensures r.Some? ==> r.value.errorClass.Domain? && r.value.data == data
    ensures e.Some? && e.value.errorClass.Domain? ==>
              r.value.errorClass == e.value.errorClass && r.value.message == e.value.message &&
              r.value.remoteMessage == e.value.remoteMessage
    ensures e.Some? && e.value.errorClass.Foreign? ==>
              r.value.errorClass == RippleErrorClass && r.value.remoteMessage.None? &&
              r.value.message == (if e.value.remoteMessage.Some? then e.value.remoteMessage.value
                                  else e.value.message)
  {
    match e
    case None => None
    case Some(err) =>
      if err.errorClass.Domain? then Some(err.(data := data))
      else Some(ErrorValue(RippleErrorClass, err.remoteMessage.GetOr(err.message), None, data))
  }

  /** Normalizing twice is normalizing once with the last data. */
  lemma NormalizedIdempotent(e: Option<ErrorValue>, d1: Json, d2: Json)
    ensures Normalized(Normalized(e, d1), d2) == Normalized(e, d2)
  {
  }

  /** convertErrors(callback) invoked with `(error, data)`: the arguments it
      hands to `callback`. A domain error is the same object, its `data`
      overwritten in place; any other error is replaced by a fresh RippleError
      and itself left untouched. */
  method ConvertErrors(error: ErrorObject?, data: Json) returns (c: Call)
    modifies error
    ensures c.data == data
    ensures ValueOf(c.error) == Normalized(old(ValueOf(error)), data)
    ensures error != null && error.errorClass.Domain? ==> c.error == error
    ensures error != null && error.errorClass.Foreign? ==>
              fresh(c.error) && error.data == old(error.data)
  {
    if error != null && !error.errorClass.Domain? {
      var message := error.remoteMessage.GetOr(error.message);
      var converted := new ErrorObject(RippleErrorClass, message, None, Undefined);
      converted.data := data;
      c := Call(converted, data);
    } else if error != null {
      error.data := data;
      c := Call(error, data);
    } else {
      c := Call(error, data);
    }
  }

  /** convertExceptions(f) applied to `args`: f's result when it returns,
      otherwise a fresh ApiError carrying the thrown error's message. */
  method ConvertExceptions<A, T>(f: A -> Completion<T>, args: A) returns (r: Completion<T>)
    ensures f(args).Returned? ==> r == f(args)
    ensures f(args).Threw? ==>
              r.Threw? && fresh(r.exception) && r.exception.errorClass == ApiErrorClass &&
              r.exception.message == f(args).exception.message &&
              r.exception.remoteMessage.None? && r.exception.data == Undefined
  {
    match f(args)
    case Returned(value) =>
      r := Returned(value);
    case Threw(error) =>
      var apiError := new ErrorObject(ApiErrorClass, error.message, None, Undefined);
      r := Threw(apiError);
  }
}
