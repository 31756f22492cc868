/** A constant slice of `(key, value)` string pairs searched with
    `iter().find(|(key, _)| key == &k)`: the shape of every alias table and of
    the table of generated constants. */
module Tables {
  import opened Wrappers

  type Entry = (string, string)
  type Table = seq<Entry>

  /** Position of the entry `iter().find` stops at: the first whose key is `key`. */
  function Find(t: Table, key: string): (r: Option<nat>)
    ensures r.Some? ==> r.value < |t| && t[r.value].0 == key
    ensures r.Some? ==> forall j :: 0 <= j < r.value ==> t[j].0 != key
    ensures r.None? <==> forall j :: 0 <= j < |t| ==> t[j].0 != key
  {
    if t == [] then None
    else if t[0].0 == key then Some(0)
    else match Find(t[1..], key)
      case None => None
      case Some(i) => Some(i + 1)
  }

  /** `find(..).map_or(key, |(_, value)| value)`: the value of the first entry
      whose key equals `key` exactly, or `key` itself when there is none. */
  function Lookup(t: Table, key: string): (r: string)
    ensures r == key || exists i :: 0 <= i < |t| && r == t[i].1
  {
    match Find(t, key)
    case None => key
    case Some(i) => t[i].1
  }

  /** `find(..).unwrap().1` before the unwrap: the value of the first entry with the key. */
  function ValueOf(t: Table, key: string): (r: Option<string>)
    ensures r.None? <==> forall j :: 0 <= j < |t| ==> t[j].0 != key
    ensures r.Some? ==> r.value == Lookup(t, key)
  {
    match Find(t, key)
    case None => None
    case Some(i) => Some(t[i].1)
  }

  /** First match wins: an entry with the key, preceded by none, gives the result. */
  lemma LookupFirstMatch(t: Table, key: string, i: nat)
    requires i < |t| && t[i].0 == key
    requires forall j :: 0 <= j < i ==> t[j].0 != key
    ensures Lookup(t, key) == t[i].1
  {
    var f := Find(t, key);
    assert f.Some?;
    assert f.value == i;
  }

  lemma ValueOfAt(t: Table, key: string, i: nat)
    requires i < |t| && t[i].0 == key
    requires forall j :: 0 <= j < i ==> t[j].0 != key
    ensures ValueOf(t, key) == Some(t[i].1)
  {
    LookupFirstMatch(t, key, i);
  }

  /** No key occurs twice. */
  ghost predicate DistinctKeys(t: Table) {
    forall i, j :: 0 <= i < j < |t| ==> t[i].0 != t[j].0
  }

  /** With distinct keys, each key finds its own entry. */
  lemma ValueOfDistinct(t: Table, i: nat)
    requires DistinctKeys(t) && i < |t|
    ensures ValueOf(t, t[i].0) == Some(t[i].1)
  {
    ValueOfAt(t, t[i].0, i);
  }

  /** Pass-through: a key the table does not have comes back unchanged. */
  lemma LookupPassThrough(t: Table, key: string)
    requires forall j :: 0 <= j < |t| ==> t[j].0 != key
    ensures Lookup(t, key) == key
  {
  }

  /** Every value that is also a key maps to itself: resolving never chains. */
  ghost predicate NoChains(t: Table) {
    forall i, j :: 0 <= i < |t| && 0 <= j < |t| && t[j].0 == t[i].1 ==> t[j].1 == t[i].1
  }

  /** On a table without chains, resolving twice is resolving once. */
  lemma LookupIdempotent(t: Table, key: string)
    requires NoChains(t)
    ensures Lookup(t, Lookup(t, key)) == Lookup(t, key)
  {
    var r := Lookup(t, key);
    if r != key {
      var i :| 0 <= i < |t| && r == t[i].1;
      match Find(t, r)
      case None =>
      case Some(j) =>
        assert t[j].0 == t[i].1;
    }
  }

  /** The keys of a table, in order. */
  function Keys(t: Table): seq<string> {
    seq(|t|, i requires 0 <= i < |t| => t[i].0)
  }

  /** The search only looks at keys: tables with the same keys stop at the same entry. */
  lemma {:induction false} FindSameKeys(t: Table, u: Table, key: string)
    requires Keys(t) == Keys(u)
    ensures Find(t, key) == Find(u, key)
  {
    assert |Keys(t)| == |t| && |Keys(u)| == |u|;
    if t != [] {
      assert Keys(t)[0] == t[0].0 && Keys(u)[0] == u[0].0;
      assert Keys(t[1..]) == Keys(u[1..]) by {
        forall i | 0 <= i < |t| - 1 ensures Keys(t[1..])[i] == Keys(u[1..])[i] {
          assert Keys(t[1..])[i] == Keys(t)[i + 1] && Keys(u[1..])[i] == Keys(u)[i + 1];
        }
      }
      FindSameKeys(t[1..], u[1..], key);
    }
  }
}
