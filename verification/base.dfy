/** Values shared by every component: optional values and the PLC configuration
    entries of internal/config/config.go. */
module Base {

  datatype Option<+T> = None | Some(value: T)

  /** One configured tag: config.TagDef. */
  datatype TagDef = TagDef(name: string, typ: string, writable: bool, dcmdEnabled: bool)

  /** One configured PLC: config.PLC. */
  datatype PLC = PLC(
    name: string,
    address: string,
    slot: int,
    socketTimeout: string,
    scanRate: string,
    keepAlive: bool,
    path: string,
    tags: seq<TagDef>)

  ghost predicate NoDuplicates<T>(s: seq<T>) {
    forall i, j :: 0 <= i < j < |s| ==> s[i] != s[j]
  }

  function ToSet<T>(s: seq<T>): set<T> {
    set x | x in s
  }

  function PlcNames(cfgs: seq<PLC>): set<string> {
    set c | c in cfgs :: c.name
  }

  /** No two entries of a configuration share a name. */
  ghost predicate DistinctNames(cfgs: seq<PLC>) {
    forall i, j :: 0 <= i < j < |cfgs| ==> cfgs[i].name != cfgs[j].name
  }

  /** A configuration indexed by name; a later entry of a name replaces an earlier one. */
  function ByName(cfgs: seq<PLC>): (m: map<string, PLC>)
    ensures m.Keys == PlcNames(cfgs)
  {
    if cfgs == [] then map[]
    else
      assert cfgs == cfgs[..|cfgs| - 1] + [cfgs[|cfgs| - 1]];
      ByName(cfgs[..|cfgs| - 1])[cfgs[|cfgs| - 1].name := cfgs[|cfgs| - 1]]
  }

  lemma {:induction false} ByNameEntry(cfgs: seq<PLC>, n: string)
    requires n in PlcNames(cfgs)
    ensures ByName(cfgs)[n] in cfgs && ByName(cfgs)[n].name == n
  {
    var m := |cfgs| - 1;
    assert cfgs == cfgs[..m] + [cfgs[m]];
    if n != cfgs[m].name {
      ByNameEntry(cfgs[..m], n);
    }
  }

  /** a is b with some elements left out. */
  predicate Subsequence<T(==)>(a: seq<T>, b: seq<T>) {
    if a == [] then true
    else if b == [] then false
    else
      var m, n := |a| - 1, |b| - 1;
      (a[m] == b[n] && Subsequence(a[..m], b[..n])) || Subsequence(a, b[..n])
  }

  lemma SubsequenceGrows<T>(a: seq<T>, b: seq<T>, x: T)
    requires Subsequence(a, b)
    ensures Subsequence(a, b + [x]) && Subsequence(a + [x], b + [x])
  {
    assert (b + [x])[..|b|] == b && (a + [x])[..|a|] == a;
  }

  lemma {:induction false} SubsequenceWithoutLast<T>(a: seq<T>, b: seq<T>)
    requires a != [] && Subsequence(a, b)
    ensures Subsequence(a[..|a| - 1], b)
    decreases |b|
  {
    var m, n := |a| - 1, |b| - 1;
    if a[m] == b[n] && Subsequence(a[..m], b[..n]) {
      assert b == b[..n] + [b[n]];
      SubsequenceGrows(a[..m], b[..n], b[n]);
    } else {
      SubsequenceWithoutLast(a, b[..n]);
      assert b == b[..n] + [b[n]];
      SubsequenceGrows(a[..m], b[..n], b[n]);
    }
  }
}
