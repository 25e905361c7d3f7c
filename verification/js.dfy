/**
 * The JavaScript values the client-side stores hold and read: what
 * `response.json()` yields, plus `undefined`. Numbers are integers here.
 * An object lists its members in enumeration order; the objects the program
 * builds never repeat a key, and a read finds the first member with the key.
 */
module Js {
  import opened Wrappers
  import opened Text

  datatype Value =
    | Undefined
    | Null
    | Bool(b: bool)
    | Num(n: int)
    | Str(s: string)
    | Arr(items: seq<Value>)
    | Obj(members: seq<Member>)

  datatype Member = Member(key: string, value: Value)

  /** `v === null || v === undefined`: reading a property of such a value throws a TypeError. */
  predicate Nullish(v: Value) {
    v.Undefined? || v.Null?
  }

  /** JavaScript truthiness: what `if (v)`, `!v` and `a || b` test. */
  predicate Truthy(v: Value) {
    match v
    case Undefined => false
    case Null => false
    case Bool(b) => b
    case Num(n) => n != 0
    case Str(s) => s != ""
    case Arr(_) => true
    case Obj(_) => true
  }

  /** `a || b` */
  function Or(a: Value, b: Value): (r: Value)
    ensures Truthy(a) ==> r == a
    ensures !Truthy(a) ==> r == b
    ensures r == a || r == b
    ensures Truthy(r) <==> Truthy(a) || Truthy(b)
  {
    if Truthy(a) then a else b
  }

  function Lookup(members: seq<Member>, key: string): (r: Value)
    ensures r != Undefined ==> exists i :: 0 <= i < |members| && members[i].key == key && members[i].value == r
  {
    if members == [] then Undefined
    else if members[0].key == key then members[0].value
    else Lookup(members[1..], key)
  }

  /** A read gives the value of the first member with the key, and `undefined` when no member has it. */
  lemma {:induction false} LookupFirstMatch(members: seq<Member>, key: string)
    ensures KeyAbsent(members, key) ==> Lookup(members, key) == Undefined
    ensures forall i :: 0 <= i < |members| && members[i].key == key && KeyAbsent(members[..i], key) ==>
      Lookup(members, key) == members[i].value
  {
    if members != [] {
      LookupFirstMatch(members[1..], key);
      if members[0].key == key {
        assert forall i :: 0 < i < |members| ==> members[..i][0] == members[0];
      } else {
        assert forall i :: 0 < i < |members| ==> members[..i][1..] == members[1..][..i - 1];
        assert KeyAbsent(members, key) ==> KeyAbsent(members[1..], key);
      }
    }
  }

  predicate KeyAbsent(members: seq<Member>, key: string) {
    forall j :: 0 <= j < |members| ==> members[j].key != key
  }

  /**
   * `v?.key`, which is also `v.key` whenever `v` is not nullish: the member's
   * value for an object, `undefined` otherwise (the keys the program reads,
   * such as "id", "data", "playlists" and "tracks", are never own properties of
   * a string, a number or an array).
   */
  function Get(v: Value, key: string): Value {
    if v.Obj? then Lookup(v.members, key) else Undefined
  }

  /** `v.key`, which throws a TypeError (`None`) when `v` is null or undefined. */
  function Read(v: Value, key: string): (r: Option<Value>)
    ensures r.None? <==> Nullish(v)
    ensures r.Some? ==> r.value == Get(v, key)
  {
    if Nullish(v) then None else Some(Get(v, key))
  }

  /** `String(v)` for the values a property key can be built from. */
  function ToJsString(v: Value): string
    decreases v
  {
    match v
    case Undefined => "undefined"
    case Null => "null"
    case Bool(b) => if b then "true" else "false"
    case Num(n) => IntToString(n)
    case Str(s) => s
    case Arr(items) => JoinElements(items, v)
    case Obj(_) => "[object Object]"
  }

  /** `items.join(",")`, where null and undefined elements print as "". */
  function JoinElements(items: seq<Value>, ghost whole: Value): string
    requires forall i :: 0 <= i < |items| ==> items[i] < whole
    decreases whole, |items|
  {
    if items == [] then ""
    else
      var head := if Nullish(items[0]) then "" else ToJsString(items[0]);
      if |items| == 1 then head else head + "," + JoinElements(items[1..], whole)
  }

  /** The string key `obj[v]` reads or writes (ECMAScript ToPropertyKey). */
  function PropertyKey(v: Value): string {
    ToJsString(v)
  }

  /** `Object.values(v)` for a value that is not null or undefined. */
  function ObjectValues(v: Value): (r: seq<Value>)
    ensures v.Obj? ==> |r| == |v.members| && forall i :: 0 <= i < |r| ==> r[i] == v.members[i].value
    ensures v.Arr? ==> r == v.items
    ensures v.Str? ==> |r| == |v.s| && forall i :: 0 <= i < |r| ==> r[i] == Str([v.s[i]])
    ensures v.Num? || v.Bool? || Nullish(v) ==> r == []
  {
    match v
    case Obj(members) => seq(|members|, i requires 0 <= i < |members| => members[i].value)
    case Arr(items) => items
    case Str(s) => seq(|s|, i requires 0 <= i < |s| => Str([s[i]]))
    case _ => []
  }

  /**
   * The members of `{ ...obj, [key]: value }` for an object `obj`: the key
   * keeps its place when present and is appended otherwise.
   */
  function Put(members: seq<Member>, key: string, value: Value): (r: seq<Member>)
    ensures Lookup(r, key) == value
    ensures forall k :: k != key ==> Lookup(r, k) == Lookup(members, k)
  {
    if members == [] then [Member(key, value)]
    else if members[0].key == key then [Member(key, value)] + members[1..]
    else [members[0]] + Put(members[1..], key, value)
  }

  /** Reading a key just written with `{ ...obj, [key]: value }` gives the value; other keys read as before. */
  lemma ReadAfterPut(members: seq<Member>, key: string, value: Value, other: string)
    requires other != key
    ensures Read(Obj(Put(members, key, value)), key) == Some(value)
    ensures Read(Obj(Put(members, key, value)), other) == Read(Obj(members), other)
  {
  }

  /**
   * `a === b`. Arrays and objects compare by reference; the arrays and
   * objects a response carries are never the same reference as a value the
   * caller passes in, so they are never strictly equal to it.
   */
  predicate StrictEquals(a: Value, b: Value) {
    a == b && !a.Arr? && !a.Obj?
  }
}
