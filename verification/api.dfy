/**
  What the per-resource API modules share: the call an API function hands
  to `request`, the query string `new URLSearchParams(params).toString()`
  builds, and the `{ ...data, items: (data?.data?.items || []).map(f) }`
  envelope every list endpoint returns.
 */
module Api {
  import opened Js
  import Lists
  import Client

  /** A call to `request(path, options)`. */
  datatype Call = Call(path: string, options: Client.Options)

  /** `request(path)` with no options. */
  function Fetch(path: string): Call
  {
    Call(path, Client.Options(None, None, None))
  }

  /** `request(path, { method })`. */
  function Bare(verb: string, path: string): Call
  {
    Call(path, Client.Options(Some(verb), None, None))
  }

  /** `request(path, { method, body: JSON.stringify(payload) })`, with the
      body kept as the value before `JSON.stringify` encodes it. */
  function Send(verb: string, path: string, payload: Json): Call
  {
    Call(path, Client.Options(Some(verb), None, Some(payload)))
  }

  // ---------------------------------------------------------------------
  // Paths, as the server's router reads them back
  // ---------------------------------------------------------------------

  /** The `/`-separated segments of a path. */
  function Segments(s: string): (r: seq<string>)
    ensures |r| >= 1
    decreases |s|
  {
    if s == [] then [""]
    else
      var rest := Segments(s[1..]);
      if s[0] == '/' then [""] + rest else [[s[0]] + rest[0]] + rest[1..]
  }

  /** A piece without a slash is one segment. */
  lemma {:induction false} SegmentsSingle(a: string)
    requires '/' !in a
    ensures Segments(a) == [a]
    decreases |a|
  {
    if a != [] {
      assert a[0] in a;
      assert forall c :: c in a[1..] ==> c in a;
      SegmentsSingle(a[1..]);
      assert [a[0]] + a[1..] == a;
    }
  }

  /** A slash after a slash-free piece starts a new segment. */
  lemma {:induction false} SegmentsAppend(a: string, b: string)
    requires '/' !in a
    ensures Segments(a + "/" + b) == [a] + Segments(b)
    decreases |a|
  {
    if a == [] {
      assert a + "/" + b == ['/'] + b;
      assert (a + "/" + b)[1..] == b;
    } else {
      assert a[0] in a;
      assert forall c :: c in a[1..] ==> c in a;
      assert (a + "/" + b)[1..] == a[1..] + "/" + b;
      SegmentsAppend(a[1..], b);
      assert [a[0]] + a[1..] == a;
    }
  }

  /** `/a` reads back as the resource `a`. */
  lemma Route1(a: string)
    requires '/' !in a
    ensures Segments("/" + a) == ["", a]
  {
    assert "/" + a == "" + "/" + a;
    SegmentsAppend("", a);
    SegmentsSingle(a);
  }

  /** `/a/b` reads back as `a` and `b`. */
  lemma Route2(a: string, b: string)
    requires '/' !in a && '/' !in b
    ensures Segments("/" + a + "/" + b) == ["", a, b]
  {
    assert "/" + a + "/" + b == "" + "/" + (a + "/" + b);
    SegmentsAppend("", a + "/" + b);
    SegmentsAppend(a, b);
    SegmentsSingle(b);
  }

  /** `/a/b/c` reads back as `a`, `b` and `c`. */
  lemma Route3(a: string, b: string, c: string)
    requires '/' !in a && '/' !in b && '/' !in c
    ensures Segments("/" + a + "/" + b + "/" + c) == ["", a, b, c]
  {
    assert "/" + a + "/" + b + "/" + c == "" + "/" + (a + "/" + (b + "/" + c));
    SegmentsAppend("", a + "/" + (b + "/" + c));
    SegmentsAppend(a, b + "/" + c);
    SegmentsAppend(b, c);
    SegmentsSingle(c);
  }

  // ---------------------------------------------------------------------
  // URLSearchParams serialisation (application/x-www-form-urlencoded)
  // ---------------------------------------------------------------------

  /** The UTF-8 bytes of one code point. */
  function Utf8(c: char): (bytes: seq<int>)
    ensures 1 <= |bytes| <= 4
    ensures forall i :: 0 <= i < |bytes| ==> 0 <= bytes[i] < 256
  {
    var cp := c as int;
    if cp < 0x80 then [cp]
    else if cp < 0x800 then [0xC0 + cp / 64, 0x80 + cp % 64]
    else if cp < 0x10000 then [0xE0 + cp / 4096, 0x80 + (cp / 64) % 64, 0x80 + cp % 64]
    else [0xF0 + cp / 262144, 0x80 + (cp / 4096) % 64, 0x80 + (cp / 64) % 64, 0x80 + cp % 64]
  }

  /** Bytes the serializer emits as themselves: `*-._`, digits and letters. */
  predicate Unreserved(b: int)
  {
    b == 0x2A || b == 0x2D || b == 0x2E || b == 0x5F
    || (0x30 <= b <= 0x39) || (0x41 <= b <= 0x5A) || (0x61 <= b <= 0x7A)
  }

  /** Characters that can appear in an encoded name or value. */
  predicate EncodedChar(c: char)
  {
    Unreserved(c as int) || c == '+' || c == '%'
  }

  function HexDigit(d: int): (c: char)
    requires 0 <= d < 16
    ensures EncodedChar(c)
  {
    "0123456789ABCDEF"[d]
  }

  function EncodeByte(b: int): (r: string)
    requires 0 <= b < 256
    ensures forall i :: 0 <= i < |r| ==> EncodedChar(r[i])
  {
    if b == 0x20 then "+"
    else if Unreserved(b) then [b as char]
    else ['%', HexDigit(b / 16), HexDigit(b % 16)]
  }

  function EncodeBytes(bytes: seq<int>): (r: string)
    requires forall i :: 0 <= i < |bytes| ==> 0 <= bytes[i] < 256
    ensures forall i :: 0 <= i < |r| ==> EncodedChar(r[i])
    decreases |bytes|
  {
    if bytes == [] then "" else EncodeByte(bytes[0]) + EncodeBytes(bytes[1..])
  }

  /** The form-urlencoded spelling of a name or value. */
  function Encode(s: string): (r: string)
    ensures forall i :: 0 <= i < |r| ==> EncodedChar(r[i])
    decreases |s|
  {
    if s == [] then "" else EncodeBytes(Utf8(s[0])) + Encode(s[1..])
  }

  /** `name=value` pairs joined by `&`, in the order the object lists its keys. */
  function QueryString(params: seq<(string, string)>): string
    decreases |params|
  {
    if params == [] then ""
    else
      var field := Encode(params[0].0) + "=" + Encode(params[0].1);
      if |params| == 1 then field else field + "&" + QueryString(params[1..])
  }

  /** The query string is empty exactly when there are no parameters. */
  lemma QueryEmptyIff(params: seq<(string, string)>)
    ensures QueryString(params) == "" <==> params == []
  {
    if params != [] {
      var field := Encode(params[0].0) + "=" + Encode(params[0].1);
      assert field[|Encode(params[0].0)|] == '=';
    }
  }

  function Count(s: string, c: char): nat
    decreases |s|
  {
    if s == [] then 0 else (if s[0] == c then 1 else 0) + Count(s[1..], c)
  }

  lemma {:induction false} CountAppend(a: string, b: string, c: char)
    ensures Count(a + b, c) == Count(a, c) + Count(b, c)
    decreases |a|
  {
    if a == [] {
      assert a + b == b;
    } else {
      assert (a + b)[1..] == a[1..] + b;
      CountAppend(a[1..], b, c);
    }
  }

  lemma {:induction false} EncodedHasNo(s: string, c: char)
    requires forall i :: 0 <= i < |s| ==> EncodedChar(s[i])
    requires !EncodedChar(c)
    ensures Count(s, c) == 0
    decreases |s|
  {
    if s != [] {
      EncodedHasNo(s[1..], c);
    }
  }

  /** Separators appear only between pairs: `n` parameters give `n` `=` signs
      and `n - 1` ampersands, so a server splitting on them recovers the
      same number of pairs. */
  lemma {:induction false} QuerySeparators(params: seq<(string, string)>)
    requires params != []
    ensures Count(QueryString(params), '=') == |params|
    ensures Count(QueryString(params), '&') == |params| - 1
    decreases |params|
  {
    var k, v := Encode(params[0].0), Encode(params[0].1);
    EncodedHasNo(k, '='); EncodedHasNo(v, '=');
    EncodedHasNo(k, '&'); EncodedHasNo(v, '&');
    CountAppend(k, "=", '='); CountAppend(k + "=", v, '=');
    CountAppend(k, "=", '&'); CountAppend(k + "=", v, '&');
    if |params| > 1 {
      var field := k + "=" + v;
      QuerySeparators(params[1..]);
      CountAppend(field, "&", '='); CountAppend(field + "&", QueryString(params[1..]), '=');
      CountAppend(field, "&", '&'); CountAppend(field + "&", QueryString(params[1..]), '&');
    }
  }

  /** `base` followed by `?query` only when the query is non-empty. */
  function WithQuery(base: string, params: seq<(string, string)>): (path: string)
    ensures params == [] ==> path == base
    ensures params != [] ==> path == base + "?" + QueryString(params)
  {
    QueryEmptyIff(params);
    var query := QueryString(params);
    base + (if query != "" then "?" + query else "")
  }

  // ---------------------------------------------------------------------
  // Record normalisation: `{ ...item, id: item.uuid || item.id, ... }`
  // ---------------------------------------------------------------------

  /** How the client reads one field `target` of a backend record:
      `item.legacy || item.target`, or `item.target` alone when there is no
      other spelling, followed by `|| fallback` when there is a default. */
  datatype Alias = Alias(legacy: Option<string>, fallback: Option<Json>)

  /** The value a rule yields: the first truthy of the legacy spelling, the
      target spelling and the default, else the last of them. */
  function AliasValue(c: Json, target: string, a: Alias): (v: Json)
    ensures a.legacy.Some? && Truthy(Get(c, a.legacy.value)) ==> v == Get(c, a.legacy.value)
    ensures (a.legacy.None? || !Truthy(Get(c, a.legacy.value))) && (Truthy(Get(c, target)) || a.fallback.None?)
            ==> v == Get(c, target)
    ensures (a.legacy.None? || !Truthy(Get(c, a.legacy.value))) && !Truthy(Get(c, target)) && a.fallback.Some?
            ==> v == a.fallback.value
  {
    var base := if a.legacy.Some? then Or(Get(c, a.legacy.value), Get(c, target)) else Get(c, target);
    if a.fallback.Some? then Or(base, a.fallback.value) else base
  }

  /** No legacy spelling is itself a normalised key, so normalising cannot
      overwrite the key another rule reads. */
  predicate WellFormed(table: map<string, Alias>)
  {
    forall t :: t in table && table[t].legacy.Some? ==> table[t].legacy.value !in table
  }

  /** The normalised fields of a record. */
  function Aliased(c: Json, table: map<string, Alias>): (f: map<string, Json>)
    ensures f.Keys == table.Keys
    ensures forall t :: t in table ==> f[t] == AliasValue(c, t, table[t])
  {
    map t | t in table :: AliasValue(c, t, table[t])
  }

  /** `{ ...item, target: ... }` for every rule of the table; reading
      `item.uuid` on a `null` item throws. */
  function Normalize(c: Json, table: map<string, Alias>): (r: Result<Json>)
    ensures r.Err? <==> Nullish(c)
    ensures r.Ok? ==> r.value.Obj? && r.value.fields.Keys == Own(c).Keys + table.Keys
    ensures r.Ok? ==> forall t :: t in table ==> r.value.fields[t] == AliasValue(c, t, table[t])
    ensures r.Ok? ==> forall k :: k in Own(c) && k !in table ==> r.value.fields[k] == Own(c)[k]
  {
    if Nullish(c) then Err(Thrown(TypeErrorMessage("uuid")))
    else Ok(Obj(Own(c) + Aliased(c, table)))
  }

  /** A rule re-read on a record that already holds its value, and whose
      legacy spelling is untouched, yields that value again. */
  lemma AliasValueStable(c: Json, n: Json, t: string, a: Alias)
    requires Get(n, t) == AliasValue(c, t, a)
    requires a.legacy.Some? ==> Get(n, a.legacy.value) == Get(c, a.legacy.value)
    ensures AliasValue(n, t, a) == AliasValue(c, t, a)
  {
  }

  /** Normalising a normalised record changes nothing. */
  lemma NormalizeIdempotent(c: Json, table: map<string, Alias>)
    requires WellFormed(table)
    requires !Nullish(c)
    ensures Normalize(Normalize(c, table).value, table) == Normalize(c, table)
  {
    var f := Aliased(c, table);
    var n := Obj(Own(c) + f);
    forall t | t in table
      ensures AliasValue(n, t, table[t]) == f[t]
    {
      var a := table[t];
      assert Get(n, t) == f[t];
      if a.legacy.Some? {
        assert a.legacy.value !in f;
        assert Get(n, a.legacy.value) == Get(c, a.legacy.value);
      }
      AliasValueStable(c, n, t, a);
    }
    assert Aliased(n, table) == f;
    assert Own(n) + f == Own(n);
  }

  // ---------------------------------------------------------------------
  // The list envelope
  // ---------------------------------------------------------------------

  /** `data?.data?.items || []`. */
  function RawItems(data: Json): (items: Json)
    ensures Truthy(Chain(Chain(data, "data"), "items")) ==> items == Chain(Chain(data, "data"), "items")
    ensures !Truthy(Chain(Chain(data, "data"), "items")) ==> items == Arr([])
  {
    Or(Chain(Chain(data, "data"), "items"), Arr([]))
  }

  /** The message of the `TypeError` from calling `.map` on a non-array. */
  const NOT_A_LIST := "items.map is not a function"

  /** `{ ...data, items: (data?.data?.items || []).map(f) }`. */
  function ListEnvelope(data: Json, f: Json -> Result<Json>): (r: Result<Json>)
    ensures r.Ok? <==> RawItems(data).Arr? && forall i :: 0 <= i < |RawItems(data).items| ==> f(RawItems(data).items[i]).Ok?
    ensures r.Ok? ==>
      && r.value.Obj? && "items" in r.value.fields && r.value.fields["items"].Arr?
      && var ys := r.value.fields["items"].items;
      && var xs := RawItems(data).items;
      && |ys| == |xs|
      && (forall i :: 0 <= i < |xs| ==> ys[i] == f(xs[i]).value)
    ensures r.Ok? ==> forall k :: k != "items" ==>
      (k in r.value.fields <==> k in Own(data)) && (k in Own(data) ==> r.value.fields[k] == Own(data)[k])
  {
    var items := RawItems(data);
    if !items.Arr? then Err(Thrown(NOT_A_LIST))
    else
      match Lists.MapAll(items.items, f)
      case Err(e) => Err(e)
      case Ok(ys) => Ok(Obj(Own(data)["items" := Arr(ys)]))
  }

  /** With no `data.items` in the answer, the list is empty. */
  lemma MissingItemsListEmpty(data: Json, f: Json -> Result<Json>)
    requires !Truthy(Chain(Chain(data, "data"), "items"))
    ensures ListEnvelope(data, f).Ok?
    ensures ListEnvelope(data, f).value.fields["items"] == Arr([])
  {
  }
}
