/** The JavaScript values a JSON request body or webhook event can hold,
    with the parts of JavaScript's semantics the two edge functions rely on:
    `== null`, truthiness, property access (`v.k`, `v?.k`) and
    `JSON.stringify`. */
module Json {
  import opened Wrappers
  import Decimal

  /** A parsed JSON value, plus `undefined` for a missing property.
      Numbers are modelled as integers. An object keeps its members as the
      source text lists them, repeated keys included: `Lookup` gives a key's
      property (the last member with that key) and `PropertyOrder` the order
      in which `JSON.stringify` visits the distinct keys. */
  datatype Value =
    | Undefined
    | Null
    | Bool(b: bool)
    | Num(n: int)
    | Str(s: string)
    | Arr(items: seq<Value>)
    | Obj(members: seq<(string, Value)>)

  /** `v == null`: loose equality with null holds for null and undefined. */
  predicate Nullish(v: Value) {
    v.Undefined? || v.Null?
  }

  /** JavaScript truthiness (`if (v)`, `!v`). */
  predicate Truthy(v: Value) {
    match v
    case Undefined => false
    case Null => false
    case Bool(b) => b
    case Num(n) => n != 0
    case Str(s) => s != ""
    case Arr(_) => true
    case Obj(_) => true
  }

  /** The value of the last member named `key`, or undefined. */
  function Lookup(members: seq<(string, Value)>, key: string): (r: Value)
    ensures (forall i :: 0 <= i < |members| ==> members[i].0 != key) ==> r == Undefined
    ensures HasKey(members, key) ==> exists i :: 0 <= i < |members| && members[i] == (key, r)
    decreases |members|
  {
    if members == [] then Undefined
    else if members[|members| - 1].0 == key then members[|members| - 1].1
    else Lookup(members[..|members| - 1], key)
  }

  /** `v[key]` on a value that is not null or undefined. Only objects have
      own properties here; primitives and arrays give undefined. */
  function Get(v: Value, key: string): Value {
    if v.Obj? then Lookup(v.members, key) else Undefined
  }

  /** `v.key`: None is the TypeError thrown when `v` is null or undefined. */
  function Member(v: Value, key: string): (r: Option<Value>)
    ensures r.None? <==> Nullish(v)
    ensures r.Some? ==> r.value == Get(v, key)
  {
    if Nullish(v) then None else Some(Get(v, key))
  }

  /** `v?.key`: undefined instead of a TypeError. */
  function OptionalMember(v: Value, key: string): (r: Value)
    ensures Nullish(v) ==> r == Undefined
    ensures !Nullish(v) ==> r == Get(v, key)
  {
    if Nullish(v) then Undefined else Get(v, key)
  }

  /** `String(n)` for an integer. */
  function NumberText(n: int): string {
    if n < 0 then "-" + Decimal.FromNat(-n) else Decimal.FromNat(n)
  }

  const HexDigits: string := "0123456789abcdef"
  const Backspace: char := 8 as char
  const FormFeed: char := 12 as char

  /** How `JSON.stringify` writes one character inside a string literal. */
  function EscapeChar(c: char): (e: string)
    ensures 1 <= |e| <= 6
  {
    if c == '"' then "\\\""
    else if c == '\\' then "\\\\"
    else if c == Backspace then "\\b"
    else if c == '\t' then "\\t"
    else if c == '\n' then "\\n"
    else if c == FormFeed then "\\f"
    else if c == '\r' then "\\r"
    else if (c as int) < 0x20 then
      ['\\', 'u', '0', '0', HexDigits[(c as int) / 16], HexDigits[(c as int) % 16]]
    else [c]
  }

  function Escape(s: string): string
    decreases |s|
  {
    if s == [] then [] else EscapeChar(s[0]) + Escape(s[1..])
  }

  /** Characters that `JSON.stringify` writes as they are. */
  predicate Plain(s: string) {
    forall i :: 0 <= i < |s| ==> s[i] != '"' && s[i] != '\\' && (s[i] as int) >= 0x20
  }

  lemma {:induction false} EscapePlain(s: string)
    requires Plain(s)
    ensures Escape(s) == s
    decreases |s|
  {
    if s != [] {
      EscapePlain(s[1..]);
    }
  }

  /** A string as a JSON string literal. */
  function Quote(s: string): string {
    "\"" + Escape(s) + "\""
  }

  function Join(parts: seq<string>, sep: string): string
    decreases |parts|
  {
    if parts == [] then ""
    else if |parts| == 1 then parts[0]
    else parts[0] + sep + Join(parts[1..], sep)
  }

  /** `JSON.stringify(v)`. Inside an array undefined is written `null`;
      an object member whose value is undefined is left out. At the top
      level `JSON.stringify(undefined)` is undefined itself, which a
      template literal renders as "undefined". */
  function Stringify(v: Value): string
    decreases v, 1
  {
    match v
    case Undefined => "undefined"
    case Null => "null"
    case Bool(b) => if b then "true" else "false"
    case Num(n) => NumberText(n)
    case Str(s) => Quote(s)
    case Arr(items) => "[" + Join(ItemTexts(items), ",") + "]"
    case Obj(members) => "{" + Join(PropertyTexts(v, PropertyOrder(members)), ",") + "}"
  }

  function ItemTexts(items: seq<Value>): seq<string>
    decreases items, 0
  {
    if items == [] then []
    else [if items[0].Undefined? then "null" else Stringify(items[0])] + ItemTexts(items[1..])
  }

  /** The members written for the properties `keys` of object `obj`, in
      that order; a property whose value is undefined is left out. */
  function PropertyTexts(obj: Value, keys: seq<string>): seq<string>
    requires obj.Obj?
    decreases obj, 0, |keys|
  {
    if keys == [] then []
    else
      var val := Lookup(obj.members, keys[0]);
      (if val.Undefined? then [] else (PropertyRank(obj, keys[0]); [Quote(keys[0]) + ":" + Stringify(val)]))
      + PropertyTexts(obj, keys[1..])
  }

  lemma PropertyRank(obj: Value, key: string)
    requires obj.Obj?
    ensures Lookup(obj.members, key) != Undefined ==> Lookup(obj.members, key) < obj
  {
    var val := Lookup(obj.members, key);
    if val != Undefined {
      assert HasKey(obj.members, key);
      var i :| 0 <= i < |obj.members| && obj.members[i] == (key, val);
      assert obj.members[i].1 < obj.members[i];
    }
  }

  // ---- The own properties of a parsed object ----

  predicate HasKey(members: seq<(string, Value)>, key: string) {
    exists i :: 0 <= i < |members| && members[i].0 == key
  }

  predicate Distinct(ks: seq<string>) {
    forall i, j :: 0 <= i < j < |ks| ==> ks[i] != ks[j]
  }

  /** The distinct keys of an object, each where it first occurs: `JSON.parse`
      sets a repeated key's property again, which keeps its place. */
  function Keys(members: seq<(string, Value)>): (ks: seq<string>)
    ensures Distinct(ks)
    ensures forall k :: k in ks <==> HasKey(members, k)
    decreases |members|
  {
    if members == [] then []
    else
      var init := members[..|members| - 1];
      var k := members[|members| - 1].0;
      var ks := Keys(init);
      assert forall k' :: HasKey(members, k') <==> HasKey(init, k') || k' == k by {
        forall k' | HasKey(members, k') ensures HasKey(init, k') || k' == k {
          var i :| 0 <= i < |members| && members[i].0 == k';
          if i < |members| - 1 { assert init[i] == members[i]; }
        }
        forall k' | HasKey(init, k') ensures HasKey(members, k') {
          var i :| 0 <= i < |init| && init[i].0 == k';
          assert members[i] == init[i];
        }
      }
      if k in ks then ks else ks + [k]
  }

  /** Where `key` is first set: the position of the first member with that
      key, or the length of the object when no member has it. */
  function FirstIndex(members: seq<(string, Value)>, key: string): (i: nat)
    ensures i <= |members|
    ensures i < |members| ==> members[i].0 == key
    ensures forall j :: 0 <= j < i ==> members[j].0 != key
    decreases |members|
  {
    if members == [] || members[0].0 == key then 0
    else 1 + FirstIndex(members[1..], key)
  }

  /** Every key of `ks` is set in `members`, and `ks` lists them in the
      order they were first set. */
  predicate InFirstSetOrder(members: seq<(string, Value)>, ks: seq<string>) {
    && (forall i :: 0 <= i < |ks| ==> FirstIndex(members, ks[i]) < |members|)
    && (forall i, j :: 0 <= i < j < |ks| ==> FirstIndex(members, ks[i]) < FirstIndex(members, ks[j]))
  }

  /** Appending a member does not move where the earlier keys were first set. */
  lemma {:induction false} FirstIndexAppend(init: seq<(string, Value)>, last: (string, Value), key: string)
    requires HasKey(init, key)
    ensures HasKey(init + [last], key)
    ensures FirstIndex(init + [last], key) == FirstIndex(init, key)
  {
    var m := init + [last];
    var b := FirstIndex(init, key);
    assert m[b] == init[b];
  }

  /** `Keys` lists the keys in the order they were first set. */
  lemma {:induction false} KeysInFirstSetOrder(members: seq<(string, Value)>)
    ensures InFirstSetOrder(members, Keys(members))
    decreases |members|
  {
    if members != [] {
      var init, last := members[..|members| - 1], members[|members| - 1];
      assert members == init + [last];
      KeysInFirstSetOrder(init);
      var ks := Keys(init);
      forall i | 0 <= i < |ks| ensures FirstIndex(members, ks[i]) == FirstIndex(init, ks[i]) {
        FirstIndexAppend(init, last, ks[i]);
      }
      if last.0 !in ks {
        assert !HasKey(init, last.0);
        assert HasKey(members, last.0);
        var r := Keys(members);
        assert r == ks + [last.0];
        forall i, j | 0 <= i < j < |r| ensures FirstIndex(members, r[i]) < FirstIndex(members, r[j]) {
          if j < |ks| {
            assert r[i] == ks[i] && r[j] == ks[j];
          } else {
            assert r[i] == ks[i];
          }
        }
      }
    }
  }

  /** A key that names an array index: the canonical numeral of an integer
      below 2^32 - 1. Objects list such keys first, in ascending order. */
  predicate IsIndexKey(k: string) {
    && 1 <= |k| && Decimal.AllDigits(k) && (k[0] == '0' ==> |k| == 1)
    && Decimal.ToNat(k) < 0xFFFF_FFFF
  }

  function IndexKeys(ks: seq<string>): (r: seq<string>)
    ensures forall k :: k in r <==> k in ks && IsIndexKey(k)
    ensures Distinct(ks) ==> Distinct(r)
    decreases |ks|
  {
    if ks == [] then []
    else if IsIndexKey(ks[0]) then [ks[0]] + IndexKeys(ks[1..])
    else IndexKeys(ks[1..])
  }

  function NamedKeys(ks: seq<string>): (r: seq<string>)
    ensures forall k :: k in r <==> k in ks && !IsIndexKey(k)
    ensures Distinct(ks) ==> Distinct(r)
    decreases |ks|
  {
    if ks == [] then []
    else if IsIndexKey(ks[0]) then NamedKeys(ks[1..])
    else [ks[0]] + NamedKeys(ks[1..])
  }

  lemma {:induction false} InFirstSetOrderTail(members: seq<(string, Value)>, ks: seq<string>)
    requires ks != [] && InFirstSetOrder(members, ks)
    ensures InFirstSetOrder(members, ks[1..])
    ensures forall j :: 0 <= j < |ks| - 1 ==> FirstIndex(members, ks[0]) < FirstIndex(members, ks[1..][j])
  {
    var tail := ks[1..];
    forall i, j | 0 <= i < j < |tail| ensures FirstIndex(members, tail[i]) < FirstIndex(members, tail[j]) {
      assert tail[i] == ks[i + 1] && tail[j] == ks[j + 1];
    }
    forall j | 0 <= j < |tail| ensures FirstIndex(members, ks[0]) < FirstIndex(members, tail[j]) {
      assert tail[j] == ks[j + 1];
    }
  }

  lemma {:induction false} InFirstSetOrderCons(members: seq<(string, Value)>, k: string, rest: seq<string>)
    requires FirstIndex(members, k) < |members| && InFirstSetOrder(members, rest)
    requires forall j :: 0 <= j < |rest| ==> FirstIndex(members, k) < FirstIndex(members, rest[j])
    ensures InFirstSetOrder(members, [k] + rest)
  {
    var r := [k] + rest;
    forall i | 0 <= i < |r| ensures FirstIndex(members, r[i]) < |members| {
      if i > 0 {
        assert r[i] == rest[i - 1];
      }
    }
    forall i, j | 0 <= i < j < |r| ensures FirstIndex(members, r[i]) < FirstIndex(members, r[j]) {
      if i == 0 {
        assert r[j] == rest[j - 1];
      } else {
        assert r[i] == rest[i - 1] && r[j] == rest[j - 1];
      }
    }
  }

  /** Leaving out the index keys keeps the others in their order. */
  lemma {:induction false} NamedKeysInFirstSetOrder(members: seq<(string, Value)>, ks: seq<string>)
    requires InFirstSetOrder(members, ks)
    ensures InFirstSetOrder(members, NamedKeys(ks))
    decreases |ks|
  {
    if ks != [] {
      var tail := ks[1..];
      InFirstSetOrderTail(members, ks);
      NamedKeysInFirstSetOrder(members, tail);
      if !IsIndexKey(ks[0]) {
        var rest := NamedKeys(tail);
        forall j | 0 <= j < |rest| ensures FirstIndex(members, ks[0]) < FirstIndex(members, rest[j]) {
          assert rest[j] in tail;
          var m :| 0 <= m < |tail| && tail[m] == rest[j];
        }
        InFirstSetOrderCons(members, ks[0], rest);
      }
    }
  }

  /** The index an index key names. */
  function IndexOf(k: string): nat {
    if Decimal.AllDigits(k) then Decimal.ToNat(k) else 0
  }

  predicate Ascending(ks: seq<string>) {
    forall i, j :: 0 <= i < j < |ks| ==> IndexOf(ks[i]) <= IndexOf(ks[j])
  }

  function InsertIndex(k: string, ks: seq<string>): (r: seq<string>)
    ensures forall x :: x in r <==> x in ks || x == k
    ensures |r| == |ks| + 1
    decreases |ks|
  {
    if ks == [] || IndexOf(k) <= IndexOf(ks[0]) then [k] + ks
    else [ks[0]] + InsertIndex(k, ks[1..])
  }

  predicate AllAtLeast(n: nat, ks: seq<string>) {
    forall i :: 0 <= i < |ks| ==> n <= IndexOf(ks[i])
  }

  lemma {:induction false} InsertIndexAtLeast(n: nat, k: string, ks: seq<string>)
    requires AllAtLeast(n, ks) && n <= IndexOf(k)
    ensures AllAtLeast(n, InsertIndex(k, ks))
    decreases |ks|
  {
    if ks != [] && IndexOf(k) > IndexOf(ks[0]) {
      InsertIndexAtLeast(n, k, ks[1..]);
      var r := InsertIndex(k, ks[1..]);
      assert InsertIndex(k, ks) == [ks[0]] + r;
    }
  }

  lemma {:induction false} InsertIndexAscending(k: string, ks: seq<string>)
    requires Ascending(ks)
    ensures Ascending(InsertIndex(k, ks))
    decreases |ks|
  {
    if ks == [] || IndexOf(k) <= IndexOf(ks[0]) {
      var full := InsertIndex(k, ks);
      assert full == [k] + ks;
      forall i, j | 0 <= i < j < |full| ensures IndexOf(full[i]) <= IndexOf(full[j]) {
        if i == 0 {
          assert full[j] == ks[j - 1];
        } else {
          assert full[i] == ks[i - 1] && full[j] == ks[j - 1];
        }
      }
    } else {
      var tail := ks[1..];
      assert Ascending(tail) by {
        forall i, j | 0 <= i < j < |tail| ensures IndexOf(tail[i]) <= IndexOf(tail[j]) {
          assert tail[i] == ks[i + 1] && tail[j] == ks[j + 1];
        }
      }
      assert AllAtLeast(IndexOf(ks[0]), tail) by {
        forall i | 0 <= i < |tail| ensures IndexOf(ks[0]) <= IndexOf(tail[i]) {
          assert tail[i] == ks[i + 1];
        }
      }
      InsertIndexAscending(k, tail);
      InsertIndexAtLeast(IndexOf(ks[0]), k, tail);
      var r := InsertIndex(k, tail);
      var full := InsertIndex(k, ks);
      assert full == [ks[0]] + r;
      forall i, j | 0 <= i < j < |full| ensures IndexOf(full[i]) <= IndexOf(full[j]) {
        if i == 0 {
          assert full[j] == r[j - 1];
        } else {
          assert full[i] == r[i - 1] && full[j] == r[j - 1];
        }
      }
    }
  }

  lemma {:induction false} InsertIndexDistinct(k: string, ks: seq<string>)
    requires Distinct(ks) && k !in ks
    ensures Distinct(InsertIndex(k, ks))
    decreases |ks|
  {
    if ks != [] && IndexOf(k) > IndexOf(ks[0]) {
      var tail := ks[1..];
      assert ks[0] !in tail;
      assert Distinct(tail);
      InsertIndexDistinct(k, tail);
    }
  }

  function SortIndexKeys(ks: seq<string>): (r: seq<string>)
    ensures forall x :: x in r <==> x in ks
    ensures Ascending(r)
    ensures Distinct(ks) ==> Distinct(r)
    decreases |ks|
  {
    if ks == [] then []
    else
      var sorted := SortIndexKeys(ks[1..]);
      InsertIndexAscending(ks[0], sorted);
      if Distinct(ks) then
        assert ks[0] !in ks[1..];
        InsertIndexDistinct(ks[0], sorted);
        InsertIndex(ks[0], sorted)
      else InsertIndex(ks[0], sorted)
  }

  lemma {:induction false} NamedAfterIndices(members: seq<(string, Value)>, sorted: seq<string>, named: seq<string>)
    requires forall i :: 0 <= i < |sorted| ==> IsIndexKey(sorted[i])
    requires InFirstSetOrder(members, named)
    ensures var r := sorted + named;
            forall i, j :: 0 <= i < j < |r| && !IsIndexKey(r[i]) ==>
              FirstIndex(members, r[i]) < FirstIndex(members, r[j])
  {
    var r := sorted + named;
    forall i, j | 0 <= i < j < |r| && !IsIndexKey(r[i])
      ensures FirstIndex(members, r[i]) < FirstIndex(members, r[j])
    {
      assert i >= |sorted|;
      assert r[i] == named[i - |sorted|] && r[j] == named[j - |sorted|];
    }
  }

  /** The order of an object's own properties: array-index keys in ascending
      numeric order, then the other keys in the order they were first set. */
  function PropertyOrder(members: seq<(string, Value)>): seq<string> {
    SortIndexKeys(IndexKeys(Keys(members))) + NamedKeys(Keys(members))
  }

  lemma {:induction false} IndexAndNamedParts(ks: seq<string>)
    ensures forall i :: 0 <= i < |SortIndexKeys(IndexKeys(ks))| ==> IsIndexKey(SortIndexKeys(IndexKeys(ks))[i])
    ensures forall i :: 0 <= i < |NamedKeys(ks)| ==> !IsIndexKey(NamedKeys(ks)[i])
  {
    var sorted, named := SortIndexKeys(IndexKeys(ks)), NamedKeys(ks);
    forall i | 0 <= i < |sorted| ensures IsIndexKey(sorted[i]) {
      assert sorted[i] in sorted;
    }
    forall i | 0 <= i < |named| ensures !IsIndexKey(named[i]) {
      assert named[i] in named;
    }
  }

  /** `PropertyOrder` lists each key of the object exactly once, every
      array-index key before every other key, the array-index keys in
      ascending order and the other keys in the order they were first set. */
  lemma {:induction false} PropertyOrderIsOwnKeys(members: seq<(string, Value)>)
    ensures var r := PropertyOrder(members);
            && Distinct(r)
            && (forall k :: k in r <==> HasKey(members, k))
            && (forall i, j :: 0 <= i < j < |r| && !IsIndexKey(r[i]) ==> !IsIndexKey(r[j]))
            && (forall i, j :: 0 <= i < j < |r| && IsIndexKey(r[j]) ==> IndexOf(r[i]) <= IndexOf(r[j]))
            && (forall i, j :: 0 <= i < j < |r| && !IsIndexKey(r[i]) ==>
                  FirstIndex(members, r[i]) < FirstIndex(members, r[j]))
  {
    var ks := Keys(members);
    var sorted, named := SortIndexKeys(IndexKeys(ks)), NamedKeys(ks);
    IndexAndNamedParts(ks);
    KeysInFirstSetOrder(members);
    NamedKeysInFirstSetOrder(members, ks);
    var r := sorted + named;
    assert forall i :: 0 <= i < |r| ==> (IsIndexKey(r[i]) <==> i < |sorted|);
    NamedAfterIndices(members, sorted, named);
  }

  // ---- Reading string literals back: the partner of Escape ----

  function HexValue(c: char): Option<nat> {
    if '0' <= c <= '9' then Some(c as int - '0' as int)
    else if 'a' <= c <= 'f' then Some(c as int - 'a' as int + 10)
    else if 'A' <= c <= 'F' then Some(c as int - 'A' as int + 10)
    else None
  }

  /** Decodes the escape unit at the front of `t`: the character and how
      many characters of `t` it used. */
  function UnescapeUnit(t: string): (r: Option<(char, nat)>)
    requires t != []
    ensures r.Some? ==> 1 <= r.value.1 <= |t|
  {
    if t[0] == '\\' then
      if |t| < 2 then None
      else if t[1] == '"' then Some(('"', 2))
      else if t[1] == '\\' then Some(('\\', 2))
      else if t[1] == '/' then Some(('/', 2))
      else if t[1] == 'b' then Some((Backspace, 2))
      else if t[1] == 't' then Some(('\t', 2))
      else if t[1] == 'n' then Some(('\n', 2))
      else if t[1] == 'f' then Some((FormFeed, 2))
      else if t[1] == 'r' then Some(('\r', 2))
      else if t[1] == 'u' && |t| >= 6 then
        var h0, h1, h2, h3 := HexValue(t[2]), HexValue(t[3]), HexValue(t[4]), HexValue(t[5]);
        if h0.None? || h1.None? || h2.None? || h3.None? then None
        else
          var code := h0.value * 4096 + h1.value * 256 + h2.value * 16 + h3.value;
          if 0xD800 <= code < 0xE000 then None else Some((code as char, 6))
      else None
    else if t[0] == '"' || (t[0] as int) < 0x20 then None
    else Some((t[0], 1))
  }

  /** The characters a JSON string literal's body denotes, or None when the
      body is not well formed. */
  function Unescape(t: string): Option<string>
    decreases |t|
  {
    if t == [] then Some([])
    else match UnescapeUnit(t)
      case None => None
      case Some((c, k)) =>
        match Unescape(t[k..])
        case None => None
        case Some(rest) => Some([c] + rest)
  }

  lemma UnescapeEscapeChar(c: char, rest: string)
    ensures UnescapeUnit(EscapeChar(c) + rest) == Some((c, |EscapeChar(c)|))
  {
    var e := EscapeChar(c);
    var t := e + rest;
    if (c as int) < 0x20 && c !in [Backspace, '\t', '\n', FormFeed, '\r'] {
      var hi, lo := (c as int) / 16, (c as int) % 16;
      assert t[0] == '\\' && t[1] == 'u' && t[2] == '0' && t[3] == '0';
      assert HexValue(t[4]) == Some(hi) && HexValue(t[5]) == Some(lo);
    } else {
      assert t[..|e|] == e;
    }
  }

  /** Every string survives `JSON.stringify`'s escaping. */
  lemma {:induction false} UnescapeEscape(s: string)
    ensures Unescape(Escape(s)) == Some(s)
    decreases |s|
  {
    if s != [] {
      var e := EscapeChar(s[0]);
      var t := Escape(s);
      assert t == e + Escape(s[1..]);
      UnescapeEscapeChar(s[0], Escape(s[1..]));
      assert t[|e|..] == Escape(s[1..]);
      UnescapeEscape(s[1..]);
      assert [s[0]] + s[1..] == s;
    }
  }

  /** The property is the value of the last member with the key, however
      many members follow it with other keys. */
  lemma {:induction false} LookupLastWins(members: seq<(string, Value)>, key: string, v: Value, rest: seq<(string, Value)>)
    requires forall j :: 0 <= j < |rest| ==> rest[j].0 != key
    ensures Lookup(members + [(key, v)] + rest, key) == v
    decreases |rest|
  {
    var m := members + [(key, v)] + rest;
    if rest == [] {
      assert m[|m| - 1] == (key, v);
    } else {
      var init := rest[..|rest| - 1];
      assert m[..|m| - 1] == members + [(key, v)] + init;
      assert m[|m| - 1] == rest[|rest| - 1];
      LookupLastWins(members, key, v, init);
    }
  }

  /** Setting an existing key again: the object written is the one whose
      members with that key all hold the new value, in their places. */
  function Overwrite(members: seq<(string, Value)>, key: string, v: Value): (r: seq<(string, Value)>)
    ensures |r| == |members|
    ensures forall i :: 0 <= i < |r| ==> r[i].0 == members[i].0
    ensures forall i :: 0 <= i < |r| ==> r[i].1 == if members[i].0 == key then v else members[i].1
  {
    seq(|members|, i requires 0 <= i < |members| =>
      if members[i].0 == key then (key, v) else members[i])
  }

  lemma {:induction false} KeysOverwrite(members: seq<(string, Value)>, key: string, v: Value)
    ensures Keys(Overwrite(members, key, v)) == Keys(members)
    decreases |members|
  {
    if members != [] {
      var o := Overwrite(members, key, v);
      var init := members[..|members| - 1];
      assert o[..|o| - 1] == Overwrite(init, key, v);
      KeysOverwrite(init, key, v);
    }
  }

  lemma {:induction false} LookupOverwrite(members: seq<(string, Value)>, key: string, v: Value, k: string)
    ensures Lookup(Overwrite(members, key, v), k) ==
            if k == key && HasKey(members, key) then v else Lookup(members, k)
    decreases |members|
  {
    if members != [] {
      var o := Overwrite(members, key, v);
      var init := members[..|members| - 1];
      assert o[..|o| - 1] == Overwrite(init, key, v);
      LookupOverwrite(init, key, v, k);
      if k == key && HasKey(init, key) {
        assert HasKey(members, key) by {
          var i :| 0 <= i < |init| && init[i].0 == key;
          assert members[i] == init[i];
        }
      }
    }
  }

  lemma {:induction false} PropertyTextsAgree(a: Value, b: Value, keys: seq<string>)
    requires a.Obj? && b.Obj?
    requires forall i :: 0 <= i < |keys| ==> Lookup(a.members, keys[i]) == Lookup(b.members, keys[i])
    ensures PropertyTexts(a, keys) == PropertyTexts(b, keys)
    decreases |keys|
  {
    if keys != [] {
      PropertyTextsAgree(a, b, keys[1..]);
    }
  }

  /** A repeated key keeps its first place and takes its last value: the
      object is written as if the earlier members with that key held the
      later value. */
  lemma StringifyRepeatedKey(members: seq<(string, Value)>, key: string, v: Value)
    requires HasKey(members, key)
    ensures Stringify(Obj(members + [(key, v)])) == Stringify(Obj(Overwrite(members, key, v)))
  {
    var m := members + [(key, v)];
    var o := Overwrite(members, key, v);
    assert m[..|m| - 1] == members;
    KeysOverwrite(members, key, v);
    assert Keys(m) == Keys(members);
    var order := PropertyOrder(m);
    assert PropertyOrder(o) == order;
    forall i | 0 <= i < |order| ensures Lookup(m, order[i]) == Lookup(o, order[i]) {
      LookupOverwrite(members, key, v, order[i]);
    }
    PropertyTextsAgree(Obj(m), Obj(o), order);
  }

  /** `JSON.stringify(JSON.parse('{"a":1,"a":2}'))` is `{"a":2}`. */
  lemma StringifyRepeatedKeyExample()
    ensures Stringify(Obj([("a", Num(1)), ("a", Num(2))])) == "{\"a\":2}"
  {
    var m := [("a", Num(1)), ("a", Num(2))];
    assert PropertyOrder(m) == ["a"] by {
      assert m[..1] == [("a", Num(1))];
      assert [("a", Num(1))][..0] == [];
      assert Keys(m) == ["a"];
      assert !IsIndexKey("a");
    }
    var member := "\"a\":2";
    assert PropertyTexts(Obj(m), ["a"]) == [member] by {
      assert Lookup(m, "a") == Num(2);
      assert "a"[1..] == [] && ["a"][1..] == [];
      assert Escape("a") == "a";
      assert Stringify(Num(2)) == "2";
      assert Quote("a") + ":" + Stringify(Num(2)) == member;
      assert PropertyTexts(Obj(m), []) == [];
    }
  }

  /** `JSON.stringify(JSON.parse('{"b":1,"1":2}'))` is `{"1":2,"b":1}`. */
  lemma StringifyIndexKeysFirst()
    ensures Stringify(Obj([("b", Num(1)), ("1", Num(2))])) == "{\"1\":2,\"b\":1}"
  {
    var m := [("b", Num(1)), ("1", Num(2))];
    var one, b := "\"1\":2", "\"b\":1";
    var text := "{" + Join([one, b], ",") + "}";
    assert text == "{\"1\":2,\"b\":1}" by {
      assert Join([one, b], ",") == one + "," + b;
    }
    assert Stringify(Obj(m)) == text by {
      IndexKeysFirstOrder();
      IndexKeysFirstTexts();
    }
  }

  lemma IndexKeysFirstOrder()
    ensures PropertyOrder([("b", Num(1)), ("1", Num(2))]) == ["1", "b"]
  {
    var m := [("b", Num(1)), ("1", Num(2))];
    assert m[..1] == [("b", Num(1))];
    assert [("b", Num(1))][..0] == [];
    assert Keys(m) == ["b", "1"];
    assert !IsIndexKey("b");
    assert "1"[..0] == [];
    assert Decimal.ToNat("1") == 1;
    assert IsIndexKey("1");
    assert IndexKeys(["b", "1"]) == ["1"];
    assert NamedKeys(["b", "1"]) == ["b"];
    assert SortIndexKeys(["1"]) == ["1"];
  }

  lemma IndexKeysFirstTexts()
    ensures PropertyTexts(Obj([("b", Num(1)), ("1", Num(2))]), ["1", "b"]) == ["\"1\":2", "\"b\":1"]
  {
    var m := [("b", Num(1)), ("1", Num(2))];
    var one, b := "\"1\":2", "\"b\":1";
    assert Lookup(m, "1") == Num(2);
    assert Lookup(m, "b") == Num(1);
    assert "b"[1..] == [] && "1"[1..] == [];
    assert Escape("b") == "b" && Escape("1") == "1";
    assert Stringify(Num(2)) == "2" && Stringify(Num(1)) == "1";
    assert ["1", "b"][1..] == ["b"] && ["b"][1..] == [];
    assert Quote("1") + ":" + Stringify(Num(2)) == one;
    assert Quote("b") + ":" + Stringify(Num(1)) == b;
    assert PropertyTexts(Obj(m), []) == [];
    assert PropertyTexts(Obj(m), ["b"]) == [b];
  }

  /** The JSON text of a string is a quoted literal that reads back as it. */
  lemma StringifyStringRoundTrip(s: string)
    ensures var t := Stringify(Str(s));
            2 <= |t| && t[0] == '"' && t[|t| - 1] == '"' && Unescape(t[1..|t| - 1]) == Some(s)
  {
    var t := Stringify(Str(s));
    assert t[1..|t| - 1] == Escape(s);
    UnescapeEscape(s);
  }
}
