/**
  The slice of JavaScript value semantics the front end relies on.

  Every record the client receives from the backend, keeps in state or
  sends back is a JavaScript value; the client code reshapes such values
  with three operators only:
  - `a || b`, which yields `a` when `a` is truthy and `b` otherwise (`Or`);
  - `{ ...a, k: v }`, which copies the own enumerable properties of `a`
    and lets later keys win (`Own` plus Dafny's right-biased map union);
  - `a.k` and `a?.k`, property reads (`Get` and `Chain`).
  Numbers are modelled as integers; NaN, -0 and fractions are not modelled.
 */
module Js {

  /** A JavaScript value as it appears in parsed JSON, in state, or as `undefined`. */
  datatype Json =
    | Undefined
    | Null
    | Bool(b: bool)
    | Num(n: int)
    | Str(s: string)
    | Arr(items: seq<Json>)
    | Obj(fields: map<string, Json>)

  datatype Option<+T> = None | Some(value: T)
  {
    function GetOr(default: T): T
    {
      match this
      case Some(v) => v
      case None => default
    }
  }

  /** A thrown JavaScript `Error`. An HTTP failure carries `status` and
      `payload` (client.js:39-44); every other error (a failed `fetch`, a
      `SyntaxError` from `response.json()`, a `TypeError` from reading a
      property of `null`) is known here only by its message. */
  datatype Error =
    | HttpError(message: string, status: int, payload: Json)
    | Thrown(message: string)

  /** A settled promise: fulfilled with a value, or rejected with an error. */
  datatype Result<+T> = Ok(value: T) | Err(error: Error)

  /** `JSON.parse` (None when it throws) and `JSON.stringify`, which the
      model takes as parameters rather than defining. */
  datatype Codec = Codec(parse: string -> Option<Json>, stringify: Json -> string)

  /** `JSON.parse(JSON.stringify(v))` gives back `v`. */
  predicate RoundTrips(codec: Codec, v: Json)
  {
    codec.parse(codec.stringify(v)) == Some(v)
  }

  /** `error.message || fallback`, the idiom every page uses for status lines. */
  function MessageOr(e: Error, fallback: string): (r: string)
    ensures e.message != "" ==> r == e.message
    ensures e.message == "" ==> r == fallback
  {
    if e.message != "" then e.message else fallback
  }

  // ---------------------------------------------------------------------
  // Truthiness and `||`
  // ---------------------------------------------------------------------

  /** ToBoolean: `undefined`, `null`, `false`, `0` and `""` are falsy. */
  predicate Truthy(v: Json)
  {
    match v
    case Undefined => false
    case Null => false
    case Bool(b) => b
    case Num(n) => n != 0
    case Str(s) => s != ""
    case Arr(_) => true
    case Obj(_) => true
  }

  /** Exactly five values are falsy; every array and object is truthy,
      even an empty one. */
  lemma FalsyValues(v: Json)
    ensures !Truthy(v) <==> v == Undefined || v == Null || v == Bool(false) || v == Num(0) || v == Str("")
    ensures v.Arr? || v.Obj? ==> Truthy(v)
  {
  }

  predicate Nullish(v: Json)
  {
    v.Undefined? || v.Null?
  }

  /** `a || b`. */
  function Or(a: Json, b: Json): (r: Json)
    ensures Truthy(a) ==> r == a
    ensures !Truthy(a) ==> r == b
  {
    if Truthy(a) then a else b
  }

  /** `a || b || c` groups to the left in JavaScript; both groupings agree. */
  lemma OrAssociative(a: Json, b: Json, c: Json)
    ensures Or(Or(a, b), c) == Or(a, Or(b, c))
  {
  }

  /** Re-applying an alias read on an already-aliased value changes nothing. */
  lemma OrAbsorbs(a: Json, b: Json)
    ensures Or(a, Or(a, b)) == Or(a, b)
  {
  }

  // ---------------------------------------------------------------------
  // Decimal rendering (used for array indices and for `String(n)`)
  // ---------------------------------------------------------------------

  function DigitChar(d: nat): (c: char)
    requires d < 10
    ensures '0' <= c <= '9'
  {
    "0123456789"[d]
  }

  /** The canonical decimal spelling of a natural number. */
  function Decimal(n: nat): (r: string)
    ensures |r| >= 1
    ensures n < 10 <==> |r| == 1
    ensures forall i :: 0 <= i < |r| ==> '0' <= r[i] <= '9'
    decreases n
  {
    if n < 10 then [DigitChar(n)] else Decimal(n / 10) + [DigitChar(n % 10)]
  }

  lemma DigitCharInjective(a: nat, b: nat)
    requires a < 10 && b < 10
    ensures DigitChar(a) == DigitChar(b) ==> a == b
  {
  }

  /** Distinct numbers have distinct spellings, so indices make distinct keys. */
  lemma {:induction false} DecimalInjective(a: nat, b: nat)
    ensures Decimal(a) == Decimal(b) ==> a == b
    decreases a
  {
    if Decimal(a) == Decimal(b) {
      if a < 10 {
        assert |Decimal(b)| == 1;
        DigitCharInjective(a, b);
      } else {
        assert b >= 10;
        var da, db := Decimal(a), Decimal(b);
        assert da[|da| - 1] == DigitChar(a % 10);
        assert db[|db| - 1] == DigitChar(b % 10);
        DigitCharInjective(a % 10, b % 10);
        assert da[..|da| - 1] == Decimal(a / 10);
        assert db[..|db| - 1] == Decimal(b / 10);
        DecimalInjective(a / 10, b / 10);
      }
    }
  }

  /** `String(n)` for an integer. */
  function IntString(n: int): (r: string)
    ensures n >= 0 ==> r == Decimal(n)
    ensures n < 0 ==> r == "-" + Decimal(-n)
  {
    if n < 0 then "-" + Decimal(-n) else Decimal(n)
  }

  // ---------------------------------------------------------------------
  // Own properties, spread and property reads
  // ---------------------------------------------------------------------

  /** The properties of an array-like value, keyed by decimal index. */
  function Indexed(xs: seq<Json>): map<string, Json>
    decreases |xs|
  {
    if xs == [] then map[]
    else Indexed(xs[..|xs| - 1])[Decimal(|xs| - 1) := xs[|xs| - 1]]
  }

  /** Index `i` of an array-like value is its property `String(i)`. */
  lemma {:induction false} IndexedLookup(xs: seq<Json>, i: nat)
    requires i < |xs|
    ensures Decimal(i) in Indexed(xs) && Indexed(xs)[Decimal(i)] == xs[i]
    decreases |xs|
  {
    if i < |xs| - 1 {
      DecimalInjective(i, |xs| - 1);
      IndexedLookup(xs[..|xs| - 1], i);
    }
  }

  /** The characters of a string, each as a one-character string. */
  function Chars(s: string): (xs: seq<Json>)
    ensures |xs| == |s|
    ensures forall i :: 0 <= i < |s| ==> xs[i] == Str([s[i]])
  {
    seq(|s|, i requires 0 <= i < |s| => Str([s[i]]))
  }

  /** The own enumerable string-keyed properties of a value: what `{ ...v }`
      copies. Spreading `null`, `undefined`, a boolean or a number copies
      nothing; an array or a string contributes one key per index. */
  function Own(v: Json): (m: map<string, Json>)
    ensures v.Obj? ==> m == v.fields
    ensures !v.Obj? && !v.Arr? && !v.Str? ==> m == map[]
  {
    match v
    case Obj(f) => f
    case Arr(xs) => Indexed(xs)
    case Str(s) => Indexed(Chars(s))
    case _ => map[]
  }

  /** `v.k` on a value that is not `null`/`undefined`: an own property, or
      `undefined`. Inherited properties (`length`, methods) are never read
      through `Get` in this model. */
  function Get(v: Json, k: string): (r: Json)
    ensures k in Own(v) ==> r == Own(v)[k]
    ensures k !in Own(v) ==> r == Undefined
  {
    if k in Own(v) then Own(v)[k] else Undefined
  }

  /** `v.k`, which throws a `TypeError` when `v` is `null` or `undefined`. */
  function Prop(v: Json, k: string): (r: Result<Json>)
    ensures r.Err? <==> Nullish(v)
    ensures r.Ok? ==> r.value == Get(v, k)
  {
    if Nullish(v) then Err(Thrown(TypeErrorMessage(k))) else Ok(Get(v, k))
  }

  /** The engine's text for reading a property of `null`; its exact wording
      is engine-specific, the model only relies on it being non-empty. */
  function TypeErrorMessage(k: string): (m: string)
    ensures m != ""
  {
    "Cannot read properties of null (reading '" + k + "')"
  }

  /** `v?.k`: `undefined` when `v` is `null` or `undefined`. */
  function Chain(v: Json, k: string): (r: Json)
    ensures Nullish(v) ==> r == Undefined
    ensures !Nullish(v) ==> r == Get(v, k)
  {
    if Nullish(v) then Undefined else Get(v, k)
  }

  /** `a === b` between values that come from different sources (two parses,
      a parse and a literal): objects and arrays are then never the same
      reference, and primitives compare by value. */
  predicate StrictEq(a: Json, b: Json)
  {
    !a.Obj? && !a.Arr? && a == b
  }

  // ---------------------------------------------------------------------
  // String(v)
  // ---------------------------------------------------------------------

  /** `String(v)`, as used by template literals and `localStorage.setItem`. */
  function ToJsString(v: Json): (r: string)
    ensures v.Str? ==> r == v.s
    decreases v
  {
    match v
    case Undefined => "undefined"
    case Null => "null"
    case Bool(b) => if b then "true" else "false"
    case Num(n) => IntString(n)
    case Str(s) => s
    case Arr(xs) => JoinElements(xs)
    case Obj(_) => "[object Object]"
  }

  /** `Array.prototype.join(",")`: `null` and `undefined` elements print as "". */
  function JoinElements(xs: seq<Json>): string
    decreases xs
  {
    if xs == [] then ""
    else
      var head := if Nullish(xs[0]) then "" else ToJsString(xs[0]);
      if |xs| == 1 then head else head + "," + JoinElements(xs[1..])
  }

  // ---------------------------------------------------------------------
  // String predicates and `trim`
  // ---------------------------------------------------------------------

  predicate StartsWith(s: string, prefix: string)
  {
    |prefix| <= |s| && s[..|prefix|] == prefix
  }

  /** `sub` occurs in `s` starting at index `i`. */
  predicate OccursAt(s: string, sub: string, i: int)
  {
    0 <= i <= |s| - |sub| && s[i..i + |sub|] == sub
  }

  /** `s.includes(sub)`. */
  predicate Includes(s: string, sub: string)
    decreases |s|
  {
    StartsWith(s, sub) || (s != [] && Includes(s[1..], sub))
  }

  /** `Includes` holds exactly when `sub` occurs somewhere in `s`. */
  lemma {:induction false} IncludesIff(s: string, sub: string)
    ensures Includes(s, sub) <==> exists i :: OccursAt(s, sub, i)
    decreases |s|
  {
    if StartsWith(s, sub) {
      assert OccursAt(s, sub, 0);
    } else if s == [] {
    } else {
      IncludesIff(s[1..], sub);
      if Includes(s[1..], sub) {
        var i :| OccursAt(s[1..], sub, i);
        assert s[i + 1..i + 1 + |sub|] == s[1..][i..i + |sub|];
        assert OccursAt(s, sub, i + 1);
      }
      if exists i :: OccursAt(s, sub, i) {
        var i :| OccursAt(s, sub, i);
        if i > 0 {
          assert s[1..][i - 1..i - 1 + |sub|] == s[i..i + |sub|];
          assert OccursAt(s[1..], sub, i - 1);
        }
      }
    }
  }

  /** The WhiteSpace and LineTerminator code points `String.prototype.trim`
      removes (sections 12.2 and 12.3 of ECMA-262). */
  predicate IsSpace(c: char)
  {
    || c == '\t' || c == '\n' || c == '\U{000B}' || c == '\U{000C}' || c == '\r'
    || c == ' ' || c == '\U{00A0}' || c == '\U{1680}'
    || ('\U{2000}' <= c <= '\U{200A}')
    || c == '\U{2028}' || c == '\U{2029}' || c == '\U{202F}' || c == '\U{205F}'
    || c == '\U{3000}' || c == '\U{FEFF}'
  }

  /** Every character of `s` at an index in `lo..hi` is white space. */
  predicate SpaceBetween(s: string, lo: int, hi: int)
    requires 0 <= lo && hi <= |s|
  {
    forall m :: lo <= m < hi ==> IsSpace(s[m])
  }

  /** Every character of `s` is white space. */
  predicate AllSpace(s: string)
  {
    SpaceBetween(s, 0, |s|)
  }

  /** The first index from `i` on that does not hold white space, or `|s|`. */
  function SkipSpace(s: string, i: int): (k: int)
    requires 0 <= i <= |s|
    ensures i <= k <= |s| && SpaceBetween(s, i, k)
    ensures k < |s| ==> !IsSpace(s[k])
    decreases |s| - i
  {
    if i < |s| && IsSpace(s[i]) then SkipSpace(s, i + 1) else i
  }

  /** The index just past the last non-white-space character below `j` and
      not below `lo`, or `lo`. */
  function SkipSpaceBack(s: string, lo: int, j: int): (k: int)
    requires 0 <= lo <= j <= |s|
    ensures lo <= k <= j && SpaceBetween(s, k, j)
    ensures k > lo ==> !IsSpace(s[k - 1])
    decreases j
  {
    if j > lo && IsSpace(s[j - 1]) then SkipSpaceBack(s, lo, j - 1) else j
  }

  /** `r` is `s[i..j]`, and everything cut off on either side is white space. */
  predicate CutBetween(s: string, r: string, i: int, j: int)
  {
    0 <= i <= j <= |s| && r == s[i..j] && SpaceBetween(s, 0, i) && SpaceBetween(s, j, |s|)
  }

  /** `s.trim()`: the longest infix of `s` that neither starts nor ends with
      white space, obtained by dropping only white space. */
  function Trim(s: string): (r: string)
    ensures exists i, j :: CutBetween(s, r, i, j)
    ensures r != [] ==> !IsSpace(r[0]) && !IsSpace(r[|r| - 1])
  {
    var i := SkipSpace(s, 0);
    var j := SkipSpaceBack(s, i, |s|);
    assert CutBetween(s, s[i..j], i, j);
    s[i..j]
  }

  /** A string trims to "" exactly when it is all white space. */
  lemma TrimEmptyIff(s: string)
    ensures Trim(s) == "" <==> AllSpace(s)
  {
    var i := SkipSpace(s, 0);
    var j := SkipSpaceBack(s, i, |s|);
    assert Trim(s) == s[i..j];
    if AllSpace(s) {
      assert i == |s|;
    }
    if Trim(s) == "" {
      assert i == j;
      forall m | 0 <= m < |s|
        ensures IsSpace(s[m])
      {
        if m >= j {
          assert SpaceBetween(s, j, |s|);
        }
      }
    }
  }

  /** Trimming twice is trimming once. */
  lemma TrimIdempotent(s: string)
    ensures Trim(Trim(s)) == Trim(s)
  {
    var r := Trim(s);
    if r != [] {
      assert SkipSpace(r, 0) == 0;
      assert SkipSpaceBack(r, 0, |r|) == |r|;
      assert r[0..|r|] == r;
    }
  }
}
