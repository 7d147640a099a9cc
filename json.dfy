/**
 * The values that `JSON.parse` hands to the pages: every page reads the shared snapshot
 * as untyped data, so its defaults and fallbacks are JavaScript truthiness tests.
 * Numbers are integers here; a property read that finds nothing is `None` (`undefined`).
 */
module JsonValue {
  import opened Wrappers

  datatype Json =
    | JNull
    | JBool(b: bool)
    | JNum(n: int)
    | JStr(s: string)
    | JArr(items: seq<Json>)
    | JObj(fields: seq<(string, Json)>)

  /** The result of a property read: `None` is `undefined`. */
  type Prop = Option<Json>

  /** JavaScript truthiness: undefined, null, false, 0 and "" are falsy; arrays and objects are truthy. */
  predicate Truthy(p: Prop) {
    match p
    case None => false
    case Some(JNull) => false
    case Some(JBool(b)) => b
    case Some(JNum(n)) => n != 0
    case Some(JStr(s)) => s != ""
    case Some(_) => true
  }

  /** `a || b`. */
  function Or(a: Prop, b: Prop): Prop {
    if Truthy(a) then a else b
  }

  /** Field lookup in a parsed object; a key given twice keeps its last value, as `JSON.parse` does. */
  function Lookup(fields: seq<(string, Json)>, key: string): Prop
  {
    if |fields| == 0 then None
    else if fields[|fields| - 1].0 == key then Some(fields[|fields| - 1].1)
    else Lookup(fields[..|fields| - 1], key)
  }

  /** `v?.key`: a property of an object, `undefined` for anything else. */
  function Get(v: Prop, key: string): Prop {
    match v
    case Some(JObj(fs)) => Lookup(fs, key)
    case _ => None
  }

  /** `v?.[i]` for an array and an integer index. */
  function At(v: Prop, i: Prop): Prop {
    match (v, i)
    case (Some(JArr(xs)), Some(JNum(k))) => if 0 <= k < |xs| then Some(xs[k]) else None
    case _ => None
  }

  /** `a === b`: primitives compare by value; distinct parsed objects and arrays never compare equal. */
  predicate StrictEq(a: Prop, b: Prop) {
    match (a, b)
    case (None, None) => true
    case (Some(JNull), Some(JNull)) => true
    case (Some(JBool(x)), Some(JBool(y))) => x == y
    case (Some(JNum(x)), Some(JNum(y))) => x == y
    case (Some(JStr(x)), Some(JStr(y))) => x == y
    case _ => false
  }

  /** `typeof p === "number"`. */
  predicate IsNumber(p: Prop) {
    p.Some? && p.value.JNum?
  }

  /** An object literal whose `undefined` members are dropped, as `JSON.stringify` drops them. */
  function Obj(members: seq<(string, Prop)>): Json {
    JObj(Present(members))
  }

  function Present(members: seq<(string, Prop)>): seq<(string, Json)> {
    if |members| == 0 then []
    else
      var rest := Present(members[1..]);
      if members[0].1.Some? then [(members[0].0, members[0].1.value)] + rest else rest
  }

  /** A string member. */
  function S(s: string): Prop { Some(JStr(s)) }

  /** A number member. */
  function N(n: int): Prop { Some(JNum(n)) }

  /** Reading back a member written by `Obj`: the last member with that key, if it is present. */
  lemma {:induction false} GetObj(members: seq<(string, Prop)>, key: string)
    ensures Get(Some(Obj(members)), key) == LastMember(members, key)
  {
    PresentLookup(members, key);
  }

  function LastMember(members: seq<(string, Prop)>, key: string): Prop {
    if |members| == 0 then None
    else
      var later := LastMember(members[1..], key);
      if later.Some? then later
      else if members[0].0 == key then members[0].1
      else None
  }

  lemma {:induction false} PresentLookup(members: seq<(string, Prop)>, key: string)
    ensures Lookup(Present(members), key) == LastMember(members, key)
  {
    if |members| > 0 {
      PresentLookup(members[1..], key);
      var rest := Present(members[1..]);
      if members[0].1.Some? {
        LookupPrepend(members[0].0, members[0].1.value, rest, key);
      }
    }
  }

  lemma {:induction false} LookupPrepend(k: string, v: Json, rest: seq<(string, Json)>, key: string)
    ensures Lookup([(k, v)] + rest, key) == if Lookup(rest, key).Some? then Lookup(rest, key) else if k == key then Some(v) else None
    decreases |rest|
  {
    var all := [(k, v)] + rest;
    if |rest| > 0 {
      assert all[..|all| - 1] == [(k, v)] + rest[..|rest| - 1];
      LookupPrepend(k, v, rest[..|rest| - 1], key);
    } else {
      assert all[..|all| - 1] == [];
    }
  }

  /** An object literal whose keys are distinct reads back each present member's value. */
  lemma {:induction false} GetDistinct(members: seq<(string, Prop)>, i: nat)
    requires i < |members|
    requires forall j :: 0 <= j < |members| && j != i ==> members[j].0 != members[i].0
    ensures Get(Some(Obj(members)), members[i].0) == members[i].1
  {
    GetObj(members, members[i].0);
    LastMemberDistinct(members, i);
  }

  lemma {:induction false} LastMemberDistinct(members: seq<(string, Prop)>, i: nat)
    requires i < |members|
    requires forall j :: 0 <= j < |members| && j != i ==> members[j].0 != members[i].0
    ensures LastMember(members, members[i].0) == members[i].1
  {
    var key := members[i].0;
    if i == 0 {
      LastMemberAbsent(members[1..], key);
    } else {
      assert members[1..][i - 1] == members[i];
      LastMemberDistinct(members[1..], i - 1);
      if members[i].1.None? {
        assert members[0].0 != key;
      }
    }
  }

  lemma {:induction false} LastMemberAbsent(members: seq<(string, Prop)>, key: string)
    requires forall j :: 0 <= j < |members| ==> members[j].0 != key
    ensures LastMember(members, key) == None
  {
    if |members| > 0 {
      LastMemberAbsent(members[1..], key);
    }
  }

  /** A key no member carries reads `undefined`. */
  lemma GetAbsent(members: seq<(string, Prop)>, key: string)
    requires forall j :: 0 <= j < |members| ==> members[j].0 != key
    ensures Get(Some(Obj(members)), key) == None
  {
    GetObj(members, key);
    LastMemberAbsent(members, key);
  }
}
