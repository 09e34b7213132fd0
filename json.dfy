/**
 * Parsed JSON values as the client sees them once `json.loads` has run, and
 * the two Python behaviours the client relies on: truthiness (`if x:`,
 * `x or default`) and `dict.get`.
 */
module Json {

  datatype Option<+T> = None | Some(value: T)

  /** A JSON value. An object keeps its members in the order they were
      written; when a key is written twice, the later binding is the one a
      Python `dict` keeps. Numbers are integers only. */
  datatype Json =
    | Null
    | Bool(b: bool)
    | Num(n: int)
    | Str(s: string)
    | Arr(items: seq<Json>)
    | Obj(members: seq<(string, Json)>)

  /** Python truthiness of the value `json.loads` returns for `j`:
      None, False, 0, "", [] and {} are false, everything else is true. */
  predicate Truthy(j: Json)
    ensures Truthy(j) <==>
      j != Null && j != Bool(false) && j != Num(0) && j != Str("") && j != Arr([]) && j != Obj([])
  {
    match j
    case Null => false
    case Bool(b) => b
    case Num(n) => n != 0
    case Str(s) => s != ""
    case Arr(items) => items != []
    case Obj(members) => members != []
  }

  /** Python's `a or b`: `a` when it is truthy, `b` otherwise. */
  function Or(a: Json, b: Json): (r: Json)
    ensures Truthy(a) ==> r == a
    ensures !Truthy(a) ==> r == b
    ensures Truthy(r) <==> Truthy(a) || Truthy(b)
  {
    if Truthy(a) then a else b
  }

  /** The key is bound somewhere in the member list. */
  predicate HasKey(members: seq<(string, Json)>, key: string)
  {
    exists i :: 0 <= i < |members| && members[i].0 == key
  }

  /** The keys of an object, in order. */
  function Keys(members: seq<(string, Json)>): (ks: seq<string>)
    ensures |ks| == |members|
    ensures forall i :: 0 <= i < |members| ==> ks[i] == members[i].0
  {
    seq(|members|, i requires 0 <= i < |members| => members[i].0)
  }

  /** The value bound to `key`: the last binding wins, as when a `dict` is
      built from the members in order. */
  function Lookup(members: seq<(string, Json)>, key: string): (r: Option<Json>)
    ensures r.None? <==> !HasKey(members, key)
    ensures r.Some? ==>
      exists i :: 0 <= i < |members| && members[i] == (key, r.value) &&
        forall j :: i < j < |members| ==> members[j].0 != key
    decreases |members|
  {
    if members == [] then None
    else
      var n := |members| - 1;
      if members[n].0 == key then Some(members[n].1)
      else
        Lookup(members[..n], key)
  }

  /** The binding at `i` is the one looked up when no later member binds
      the same key. */
  lemma LookupAt(members: seq<(string, Json)>, i: int)
    requires 0 <= i < |members|
    requires forall j :: i < j < |members| ==> members[j].0 != members[i].0
    ensures Lookup(members, members[i].0) == Some(members[i].1)
  {
  }

  /** Python's `o.get(key)` on a dict: the bound value, or None (here Null)
      when the key is absent. */
  function Get(o: Json, key: string): (r: Json)
    requires o.Obj?
    ensures !HasKey(o.members, key) ==> r == Null
    ensures HasKey(o.members, key) ==> Lookup(o.members, key) == Some(r)
  {
    match Lookup(o.members, key)
    case Some(v) => v
    case None => Null
  }
}
