/**
 * The keyed cache every client-side reducer keeps: a map from the string
 * key `entity.id` converts to, to the entity itself. This module holds the
 * three operations the reducers share (fill by a `forEach` over a list,
 * spread-upsert one entity, copy-and-delete one key) and what the thunks
 * around them see of a response.
 */
module EntityStore {
  import opened Wrappers
  import opened Js

  /** A store slice. A reducer that throws a TypeError yields `None` instead. */
  type State = map<string, Value>

  /** The key `state[entity.id]` reads or writes. */
  function KeyOf(entity: Value): string {
    PropertyKey(Get(entity, "id"))
  }

  /** No element is null or undefined, so reading `.id` of each one succeeds. */
  predicate Keyable(items: seq<Value>) {
    forall i :: 0 <= i < |items| ==> !Nullish(items[i])
  }

  /** The keys of a list of entities. */
  function IdsOf(items: seq<Value>): set<string> {
    set i | 0 <= i < |items| :: KeyOf(items[i])
  }

  /** No later element of `items` has the key of the element at `i`. */
  predicate LastOfKey(items: seq<Value>, i: int)
    requires 0 <= i < |items|
  {
    forall j :: i < j < |items| ==> KeyOf(items[j]) != KeyOf(items[i])
  }

  /**
   * What `items.forEach(e => { m[e.id] = e; })` leaves in a copy of `m`, or
   * `None` when an element is null or undefined and reading `.id` throws.
   */
  function Assigned(m: State, items: seq<Value>): Option<State>
    decreases |items|
  {
    if items == [] then Some(m)
    else if Nullish(items[0]) then None
    else Assigned(m[KeyOf(items[0]) := items[0]], items[1..])
  }

  lemma IdsOfCons(items: seq<Value>)
    requires items != []
    ensures IdsOf(items) == {KeyOf(items[0])} + IdsOf(items[1..])
  {
    var rest := items[1..];
    forall k | k in IdsOf(items) ensures k in {KeyOf(items[0])} + IdsOf(rest) {
      var i :| 0 <= i < |items| && KeyOf(items[i]) == k;
      if i > 0 { assert rest[i - 1] == items[i]; }
    }
    forall k | k in IdsOf(rest) ensures k in IdsOf(items) {
      var i :| 0 <= i < |rest| && KeyOf(rest[i]) == k;
      assert items[i + 1] == rest[i];
    }
  }

  /**
   * The fill succeeds exactly when every element can be keyed; then the keys
   * are the old keys plus the elements' ids, a key no element names keeps its
   * old entity, and each id maps to the LAST element carrying it.
   */
  lemma {:induction false} AssignedFacts(m: State, items: seq<Value>)
    ensures Assigned(m, items).Some? <==> Keyable(items)
    ensures Assigned(m, items).Some? ==>
      var r := Assigned(m, items).value;
      && r.Keys == m.Keys + IdsOf(items)
      && (forall k :: k in m && k !in IdsOf(items) ==> r[k] == m[k])
      && (forall i :: 0 <= i < |items| && LastOfKey(items, i) ==> r[KeyOf(items[i])] == items[i])
    decreases |items|
  {
    if items == [] {
      assert IdsOf(items) == {};
    } else if Nullish(items[0]) {
      assert !Keyable(items);
    } else {
      var x, rest := items[0], items[1..];
      var m' := m[KeyOf(x) := x];
      AssignedFacts(m', rest);
      IdsOfCons(items);
      KeyableCons(items);
      if Keyable(items) {
        var r := Assigned(m', rest).value;
        forall i | 0 <= i < |items| && LastOfKey(items, i) ensures r[KeyOf(items[i])] == items[i] {
          if i == 0 {
            FirstIsLast(items);
          } else {
            LastOfKeyShift(items, i);
          }
        }
      }
    }
  }

  lemma KeyableCons(items: seq<Value>)
    requires items != [] && !Nullish(items[0])
    ensures Keyable(items) <==> Keyable(items[1..])
  {
    var rest := items[1..];
    if Keyable(rest) {
      forall i | 0 <= i < |items| ensures !Nullish(items[i]) {
        if i > 0 { assert items[i] == rest[i - 1]; }
      }
    }
    if Keyable(items) {
      forall i | 0 <= i < |rest| ensures !Nullish(rest[i]) {
        assert rest[i] == items[i + 1];
      }
    }
  }

  /** When the head is the last of its key, no later element has that key. */
  lemma FirstIsLast(items: seq<Value>)
    requires items != [] && LastOfKey(items, 0)
    ensures KeyOf(items[0]) !in IdsOf(items[1..])
  {
    var rest := items[1..];
    forall j | 0 <= j < |rest| ensures KeyOf(rest[j]) != KeyOf(items[0]) {
      assert rest[j] == items[j + 1];
    }
  }

  /** Being the last of its key survives dropping the head. */
  lemma LastOfKeyShift(items: seq<Value>, i: int)
    requires 0 < i < |items| && LastOfKey(items, i)
    ensures items[1..][i - 1] == items[i] && LastOfKey(items[1..], i - 1)
  {
    var rest := items[1..];
    forall j | i - 1 < j < |rest| ensures KeyOf(rest[j]) != KeyOf(rest[i - 1]) {
      assert rest[j] == items[j + 1];
    }
  }

  /** Every id of a list is carried by a last element with that id. */
  lemma {:induction false} LastExists(items: seq<Value>, k: string)
    requires k in IdsOf(items)
    ensures exists i :: 0 <= i < |items| && LastOfKey(items, i) && KeyOf(items[i]) == k
    decreases |items|
  {
    IdsOfCons(items);
    var rest := items[1..];
    if k in IdsOf(rest) {
      LastExists(rest, k);
      var j :| 0 <= j < |rest| && LastOfKey(rest, j) && KeyOf(rest[j]) == k;
      assert items[j + 1] == rest[j];
      forall l | j + 1 < l < |items| ensures KeyOf(items[l]) != KeyOf(items[j + 1]) {
        assert items[l] == rest[l - 1];
      }
      assert LastOfKey(items, j + 1);
    } else {
      forall l | 0 < l < |items| ensures KeyOf(items[l]) != KeyOf(items[0]) {
        assert items[l] == rest[l - 1];
      }
      assert LastOfKey(items, 0);
    }
  }

  /** Filling a second time with the same list changes nothing. */
  lemma {:induction false} AssignedIdempotent(m: State, items: seq<Value>)
    requires Assigned(m, items).Some?
    ensures Assigned(Assigned(m, items).value, items) == Assigned(m, items)
  {
    var r := Assigned(m, items).value;
    AssignedFacts(m, items);
    AssignedFacts(r, items);
    var r2 := Assigned(r, items).value;
    assert r2.Keys == r.Keys;
    forall k | k in r ensures r2[k] == r[k] {
      if k in IdsOf(items) {
        LastExists(items, k);
        var i :| 0 <= i < |items| && LastOfKey(items, i) && KeyOf(items[i]) == k;
        assert r2[k] == items[i] == r[k];
      }
    }
    assert r2 == r;
  }

  /** Filling an empty map: the result holds exactly the list's ids, whatever the store held before. */
  lemma FreshFillKeys(items: seq<Value>)
    requires Keyable(items)
    ensures Assigned(map[], items).Some? && Assigned(map[], items).value.Keys == IdsOf(items)
  {
    AssignedFacts(map[], items);
  }

  /** The `forEach` loop of a LOAD case, filling a copy of `m`. */
  method FillKeyed(m: State, items: seq<Value>) returns (r: Option<State>)
    ensures r == Assigned(m, items)
  {
    var newState := m;
    var i := 0;
    while i < |items|
      invariant 0 <= i <= |items|
      invariant Assigned(m, items) == Assigned(newState, items[i..])
    {
      var entity := items[i];
      if Nullish(entity) {
        return None;
      }
      assert items[i..][1..] == items[i + 1..];
      newState := newState[KeyOf(entity) := entity];
      i := i + 1;
    }
    assert items[i..] == [];
    r := Some(newState);
  }

  /**
   * `{ ...state, [entity.id]: entity }`: the entity replaces the whole entry
   * at its key, every other key is untouched; `None` when `entity` is null
   * or undefined.
   */
  function Upsert(state: State, entity: Value): (r: Option<State>)
    ensures r.Some? <==> !Nullish(entity)
    ensures r.Some? ==> KeyOf(entity) in r.value && r.value[KeyOf(entity)] == entity
    ensures r.Some? ==> forall k :: k != KeyOf(entity) ==> (k in r.value <==> k in state)
    ensures r.Some? ==> forall k :: k != KeyOf(entity) && k in state ==> r.value[k] == state[k]
  {
    if Nullish(entity) then None else Some(state[KeyOf(entity) := entity])
  }

  /** `const s = { ...state }; delete s[key]; return s;` */
  method RemoveKey(state: State, key: string) returns (r: State)
    ensures r.Keys == state.Keys - {key}
    ensures forall k :: k in r ==> r[k] == state[k]
    ensures key !in state ==> r == state
  {
    var newState := state;
    newState := newState - {key};
    r := newState;
  }

  /** What a thunk is handed by `fetch`: `response.ok` and what `response.json()` yields. */
  datatype Response = Response(ok: bool, body: Value)

  /** How the promise a thunk returns settles. */
  datatype Settled =
    | Resolves(v: Value)   // resolves with a JSON-like value (`undefined` included)
    | ResolvesResponse     // resolves with the Response object itself
    | ResolvesFailure      // resolves with `{ success: false, error }`
    | Rejects              // an exception escapes the thunk

  /** The store slice after a thunk has run, and how its promise settled. */
  datatype Run = Run(state: State, settled: Settled)
}
