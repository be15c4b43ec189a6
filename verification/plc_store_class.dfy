/** The operations of internal/plcstore/store.go over its two tables, each refining an
    operation on a map from names to PLCs. */
module PlcStoreClass {
  import opened Base
  import opened PlcStore

  // ----- the order of List -----

  /** SQLite's binary order on names. */
  predicate Precedes(a: string, b: string) {
    if a == [] then b != []
    else b != [] && (a[0] < b[0] || (a[0] == b[0] && Precedes(a[1..], b[1..])))
  }

  lemma {:induction false} PrecedesTotal(a: string, b: string)
    ensures a == b || Precedes(a, b) || Precedes(b, a)
    ensures !(Precedes(a, b) && Precedes(b, a)) && !Precedes(a, a)
  {
    if a != [] {
      PrecedesTotal(a[1..], a[1..]);
    }
    if a != [] && b != [] {
      PrecedesTotal(a[1..], b[1..]);
      if a[0] == b[0] && a[1..] == b[1..] {
        assert a == [a[0]] + a[1..] && b == [b[0]] + b[1..];
      }
    }
  }

  lemma {:induction false} PrecedesTransitive(a: string, b: string, c: string)
    requires Precedes(a, b) && Precedes(b, c)
    ensures Precedes(a, c)
  {
    if a != [] && a[0] == b[0] == c[0] {
      PrecedesTransitive(a[1..], b[1..], c[1..]);
    }
  }

  /** a and b agree up to n, where a ends or has the smaller character. */
  predicate DiffersAt(a: string, b: string, n: int) {
    0 <= n <= |a| && n < |b| && a[..n] == b[..n] && (n == |a| || a[n] < b[n])
  }

  lemma DiffersLater(a: string, b: string, n: int)
    requires a != [] && b != [] && 0 < n
    ensures DiffersAt(a, b, n) <==> a[0] == b[0] && DiffersAt(a[1..], b[1..], n - 1)
  {
    if n <= |a| && n < |b| {
      var c, d := a[1..][..n - 1], b[1..][..n - 1];
      assert a[..n] == [a[0]] + c && b[..n] == [b[0]] + d;
      assert ([a[0]] + c)[1..] == c && ([b[0]] + d)[1..] == d;
    }
  }

  /** Ascending order of characters: at the first difference the smaller character comes
      first, and a name comes before its own continuations. */
  lemma {:induction false} PrecedesAtDifference(a: string, b: string)
    ensures Precedes(a, b) <==> exists n :: DiffersAt(a, b, n)
  {
    if a != [] && b != [] {
      PrecedesAtDifference(a[1..], b[1..]);
      if n :| DiffersAt(a, b, n) && n > 0 {
        DiffersLater(a, b, n);
      }
      if n :| a[0] == b[0] && DiffersAt(a[1..], b[1..], n) {
        DiffersLater(a, b, n + 1);
      }
      assert a[0] < b[0] ==> DiffersAt(a, b, 0);
    } else {
      assert b != [] ==> DiffersAt(a, b, 0);
    }
  }

  ghost predicate IsLeast(r: PlcRow, rows: set<PlcRow>) {
    r in rows && forall s :: s in rows && s != r ==> Precedes(r.name, s.name)
  }

  lemma LeastExists(rows: set<PlcRow>) returns (least: PlcRow)
    requires rows != {} && forall r, s :: r in rows && s in rows && r.name == s.name ==> r == s
    ensures IsLeast(least, rows)
  {
    var r :| r in rows;
    if rows == {r} {
      least := r;
    } else {
      var other := LeastExists(rows - {r});
      PrecedesTotal(r.name, other.name);
      if Precedes(r.name, other.name) {
        least := r;
        forall s | s in rows && s != r
          ensures Precedes(r.name, s.name)
        {
          if s != other {
            PrecedesTransitive(r.name, other.name, s.name);
          }
        }
      } else {
        least := other;
      }
    }
  }

  ghost predicate SortedByName(plcs: seq<PLC>) {
    forall i, j :: 0 <= i < j < |plcs| ==> Precedes(plcs[i].name, plcs[j].name)
  }

  /** plcs has the entries of m, sorted by name. */
  ghost predicate Lists(plcs: seq<PLC>, m: map<string, PLC>) {
    && SortedByName(plcs) && PlcNames(plcs) == m.Keys
    && forall p :: p in plcs ==> p.name in m && p == m[p.name]
  }

  // ----- the outcome each operation promises on the map -----

  ghost function CreateOutcome(m: map<string, PLC>, p: PLC): (r: Outcome)
    ensures r == AlreadyExists <==> p.name in m
    ensures r == Done <==> p.name !in m && DistinctTags(p.tags)
  {
    if p.name in m then AlreadyExists else if DistinctTags(p.tags) then Done else Failed
  }

  ghost function UpdateOutcome(m: map<string, PLC>, name: string, p: PLC): (r: Outcome)
    ensures r == NotFound <==> name !in m
    ensures r == AlreadyExists <==> name in m && p.name != name && p.name in m
    ensures r == Done <==> name in m && (p.name == name || p.name !in m) && DistinctTags(p.tags)
  {
    if name !in m then NotFound
    else if p.name != name && p.name in m then AlreadyExists
    else if DistinctTags(p.tags) then Done
    else Failed
  }

  ghost function DeleteOutcome(m: map<string, PLC>, name: string): Outcome {
    if name in m then Done else NotFound
  }

  ghost predicate SeedOk(plcs: seq<PLC>) {
    DistinctNames(plcs) && forall p :: p in plcs ==> DistinctTags(p.tags)
  }

  ghost function SeedOutcome(m: map<string, PLC>, plcs: seq<PLC>): Outcome {
    if plcs == [] || m != map[] || SeedOk(plcs) then Done else Failed
  }

  /** With a database fault an operation may fail instead; nothing else may differ. */
  ghost predicate Expected(r: Outcome, promised: Outcome, fault: Option<nat>) {
    r == promised || (fault.Some? && r == Failed)
  }

  // ----- the class -----

  /** Store. In every operation `fault` names the statement of the transaction, counting
      from BEGIN, that the database fails, if any. */
  class Store {
    var db: Db

    ghost predicate Valid()
      reads this
    {
      DbOk(db)
    }

    ghost function Plcs(): map<string, PLC>
      requires Valid()
      reads this
    {
      View(db)
    }

    constructor ()
      ensures Valid() && Plcs() == map[]
    {
      db := EMPTY_DB;
      new;
    }

    /** insertTags inside a transaction, for a row that has no tags yet. */
    method InsertTags(tx0: Db, ghost r: PlcRow, plcId: nat, tags: seq<TagDef>, fault: Option<nat>, at: nat)
      returns (ok: bool, tx: Db)
      requires Loaded(tx0, tx0, r, []) && r.id == plcId
      ensures ok ==> Loaded(tx0, tx, r, tags)
      ensures !ok ==> fault.Some? || !DistinctTags(tags)
    {
      hide Loaded, InsertTag;
      tx := tx0;
      for i := 0 to |tags|
        invariant Loaded(tx0, tx, r, tags[..i])
      {
        assert tags[..i + 1] == tags[..i] + [tags[i]];
        LoadMore(tx0, tx, r, tags[..i], tags[i]);
        if fault == Some(at + i) {
          return false, tx0;
        }
        match InsertTag(tx, plcId, tags[i])
        case None =>
          PrefixDistinct(tags, i + 1);
          return false, tx0;
        case Some(next) => tx := next;
      }
      assert tags[..|tags|] == tags;
      return true, tx;
    }

    method Create(p: PLC, fault: Option<nat>) returns (r: Outcome)
      requires Valid()
      modifies this
      ensures Valid()
      ensures Expected(r, CreateOutcome(old(Plcs()), p), fault)
      ensures r == Done ==> Plcs() == old(Plcs())[p.name := p]
      ensures r != Done ==> db == old(db)
    {
      hide DbOk, View, Loaded, TagsOf, HasName, DistinctTags, RowFor;
      if fault == Some(0) || fault == Some(1) {
        return Failed;
      }
      HasNameIsKey(db, p.name);
      match InsertPlc(db, p)
      case None => return AlreadyExists;
      case Some(tx) =>
        InsertPlcMeans(db, p);
        assert RowFor(db.nextId, p).id == db.nextId by { RowForId(db.nextId, p); }
        LoadNone(tx, RowFor(db.nextId, p));
        var ok, tx1 := InsertTags(tx, RowFor(db.nextId, p), db.nextId, p.tags, fault, 2);
        if !ok || fault.Some? {
          LoadedIsDistinct(tx, tx1, RowFor(db.nextId, p), p.tags);
          return Failed;
        }
        CreateEffect(db, tx1, p);
        LoadedIsDistinct(tx, tx1, RowFor(db.nextId, p), p.tags);
        db := tx1;
        return Done;
    }

    method Update(name: string, p: PLC, fault: Option<nat>) returns (r: Outcome)
      requires Valid()
      modifies this
      ensures Valid()
      ensures Expected(r, UpdateOutcome(old(Plcs()), name, p), fault)
      ensures r == Done ==> Plcs() == (old(Plcs()) - {name})[p.name := p]
      ensures r != Done ==> db == old(db)
    {
      hide DbOk, View, Loaded, TagsOf, HasName, DistinctTags, RowFor, DeleteTags;
      if fault == Some(0) || fault == Some(1) {
        return Failed;
      }
      HasNameIsKey(db, name);
      HasNameIsKey(db, p.name);
      match UpdatePlc(db, name, p)
      case None => return AlreadyExists;
      case Some(tx) =>
        if !HasName(db, name) {
          return NotFound;
        }
        ghost var was := NamedRow(db, name);
        UpdatePlcMeans(db, name, p, was);
        RowForId(was.id, p);
        RowIsEntry(tx, RowFor(was.id, p));
        var row :| row in tx.plcs && row.name == p.name;
        if fault == Some(2) || fault == Some(3) {
          return Failed;
        }
        DeleteTagsMeans(tx, row);
        var tx1 := DeleteTags(tx, row.id);
        DeleteTagsKeepsRows(tx, row.id);
        LoadNone(tx1, row);
        var ok, tx2 := InsertTags(tx1, row, row.id, p.tags, fault, 4);
        if ok {
          LoadedIsDistinct(tx1, tx2, row, p.tags);
        }
        if !ok || fault.Some? {
          return Failed;
        }
        UpdateEffect(db, name, p, was, tx2);
        db := tx2;
        return Done;
    }

    method Delete(name: string, fault: Option<nat>) returns (r: Outcome)
      requires Valid()
      modifies this
      ensures Valid()
      ensures Expected(r, DeleteOutcome(old(Plcs()), name), fault)
      ensures r == Done ==> Plcs() == old(Plcs()) - {name}
      ensures r != Done ==> db == old(db)
    {
      hide DbOk, View, TagsOf, HasName, DeleteTags, DeletePlc;
      if fault == Some(0) || fault == Some(1) {
        return Failed;
      }
      HasNameIsKey(db, name);
      if !HasName(db, name) {
        return NotFound;
      }
      ghost var was := NamedRow(db, name);
      var row :| row in db.plcs && row.name == name;
      if fault.Some? {
        return Failed;
      }
      DeleteTagsMeans(db, row);
      var tx := DeleteTags(db, row.id);
      DeleteTagsKeepsRows(db, row.id);
      DeletePlcMeans(tx, row);
      db := DeletePlc(tx, row.id);
      return Done;
    }

    /** Seed fills an empty store in one transaction; a non-empty store or an empty list
        makes it do nothing. */
    method Seed(plcs: seq<PLC>, fault: Option<nat>) returns (r: Outcome)
      requires Valid()
      modifies this
      ensures Valid()
      ensures Expected(r, SeedOutcome(old(Plcs()), plcs), fault)
      ensures r == Done && old(Plcs()) == map[] ==> Plcs() == ByName(plcs)
      ensures r != Done || old(Plcs()) != map[] ==> db == old(db)
    {
      hide DbOk, View, Loaded, TagsOf, HasName, DistinctTags, RowFor, SeedOk, ByName;
      if |plcs| == 0 {
        EmptySeed();
        return Done;
      }
      if fault == Some(0) {
        return Failed;
      }
      EmptyIffEmptyView(db);
      if db.plcs != {} {
        return Done;
      }
      EmptySeed();
      var tx, at: nat := db, 1;
      for i := 0 to |plcs|
        invariant db == old(db)
        invariant DbOk(tx) && View(tx) == ByName(plcs[..i]) && SeedOk(plcs[..i])
      {
        var p := plcs[i];
        assert plcs[..i + 1] == plcs[..i] + [p];
        if fault == Some(at) {
          return Failed;
        }
        HasNameIsKey(tx, p.name);
        SeedMore(plcs[..i], p);
        match InsertPlc(tx, p)
        case None =>
          SeedPrefix(plcs, i + 1);
          return Failed;
        case Some(tx1) =>
          InsertPlcMeans(tx, p);
          RowForId(tx.nextId, p);
          LoadNone(tx1, RowFor(tx.nextId, p));
          var ok, tx2 := InsertTags(tx1, RowFor(tx.nextId, p), tx.nextId, p.tags, fault, at + 1);
          if !ok {
            SeedPrefix(plcs, i + 1);
            return Failed;
          }
          LoadedIsDistinct(tx1, tx2, RowFor(tx.nextId, p), p.tags);
          CreateEffect(tx, tx2, p);
          tx := tx2;
          at := at + 1 + |p.tags|;
      }
      assert plcs[..|plcs|] == plcs;
      if fault.Some? {
        return Failed;
      }
      db := tx;
      return Done;
    }

    /** listTags */
    method ListTags(plcId: nat) returns (tags: seq<TagDef>)
      ensures tags == TagsOf(db.tags, plcId)
    {
      tags := [];
      for i := 0 to |db.tags|
        invariant tags == TagsOf(db.tags[..i], plcId)
      {
        assert db.tags[..i + 1][..i] == db.tags[..i];
        if db.tags[i].plcId == plcId {
          tags := tags + [DefOf(db.tags[i])];
        } else {
          assert tags + [] == tags;
        }
      }
      assert db.tags[..|db.tags|] == db.tags;
    }

    /** Get finds exactly the entries of the map. */
    method Get(name: string) returns (r: Option<PLC>)
      requires Valid()
      ensures r == if name in Plcs() then Some(Plcs()[name]) else None
    {
      ViewShows(db);
      if !HasName(db, name) {
        return None;
      }
      var row :| row in db.plcs && row.name == name;
      var tags := ListTags(row.id);
      return Some(PLC(row.name, row.address, row.slot, row.socketTimeout, row.scanRate, row.keepAlive != 0, row.path, tags));
    }

    /** List is the map, sorted by name. */
    method List() returns (plcs: seq<PLC>)
      requires Valid()
      ensures Lists(plcs, Plcs())
    {
      var rows := SortedRows();
      plcs := [];
      for i := 0 to |rows|
        invariant |plcs| == i
        invariant forall j :: 0 <= j < i ==> plcs[j] == PlcOf(rows[j], db.tags)
      {
        var r := rows[i];
        var tags := ListTags(r.id);
        plcs := plcs + [PLC(r.name, r.address, r.slot, r.socketTimeout, r.scanRate, r.keepAlive != 0, r.path, tags)];
      }
      RowsAreListed(db, rows, plcs);
    }

    /** SELECT ... FROM plcs ORDER BY name */
    method SortedRows() returns (rows: seq<PlcRow>)
      requires Valid()
      ensures forall i, j :: 0 <= i < j < |rows| ==> Precedes(rows[i].name, rows[j].name)
      ensures ToSet(rows) == db.plcs
    {
      hide Precedes, TagsOk;
      rows := [];
      var rest := db.plcs;
      while rest != {}
        invariant rest <= db.plcs && ToSet(rows) == db.plcs - rest
        invariant forall i, j :: 0 <= i < j < |rows| ==> Precedes(rows[i].name, rows[j].name)
        invariant forall i, r :: 0 <= i < |rows| && r in rest ==> Precedes(rows[i].name, r.name)
        decreases rest
      {
        ghost var witness_ := LeastExists(rest);
        assert IsLeast(witness_, rest);
        var r :| r in rest && forall s :: s in rest && s != r ==> Precedes(r.name, s.name);
        ghost var before := rows;
        rows := rows + [r];
        assert ToSet(rows) == ToSet(before) + {r};
        rest := rest - {r};
      }
    }
  }

  lemma PrefixDistinct(tags: seq<TagDef>, n: nat)
    requires n <= |tags|
    ensures DistinctTags(tags) ==> DistinctTags(tags[..n])
  {
  }

  lemma LoadedIsDistinct(tx0: Db, tx: Db, r: PlcRow, tags: seq<TagDef>)
    ensures Loaded(tx0, tx, r, tags) ==> DistinctTags(tags)
  {
  }

  lemma NamedRow(db: Db, name: string) returns (r: PlcRow)
    requires HasName(db, name)
    ensures r in db.plcs && r.name == name
  {
    r :| r in db.plcs && r.name == name;
  }

  lemma DeleteTagsKeepsRows(db: Db, plcId: nat)
    ensures DeleteTags(db, plcId).plcs == db.plcs
  {
  }

  lemma EmptyIffEmptyView(db: Db)
    requires DbOk(db)
    ensures db.plcs == {} <==> View(db) == map[]
  {
    ViewShows(db);
    hide View, DbOk;
    if db.plcs != {} {
      var r :| r in db.plcs;
      assert r.name in View(db);
    } else {
      assert forall n :: !HasName(db, n);
    }
  }

  lemma EmptySeed()
    ensures SeedOk([]) && ByName([]) == map[]
  {
  }

  /** One more entry keeps a list loadable exactly when its name is new and its tags
      differ, and extends the map by that entry. */
  lemma SeedMore(done: seq<PLC>, p: PLC)
    requires SeedOk(done)
    ensures SeedOk(done + [p]) <==> p.name !in ByName(done) && DistinctTags(p.tags)
    ensures ByName(done + [p]) == ByName(done)[p.name := p]
  {
    hide DistinctTags;
    var all := done + [p];
    assert all[..|done|] == done;
    if p.name !in ByName(done) {
      forall i | 0 <= i < |done|
        ensures all[i].name != p.name
      {
        assert done[i] in done;
      }
    } else {
      var c :| c in done && c.name == p.name;
      var i :| 0 <= i < |done| && done[i] == c;
      assert all[i].name == all[|done|].name;
    }
    assert p in all;
  }

  lemma SeedPrefix(plcs: seq<PLC>, n: nat)
    requires n <= |plcs|
    ensures SeedOk(plcs) ==> SeedOk(plcs[..n])
  {
    hide DistinctTags;
  }

  /** Two lists that show the same map are the same list. */
  lemma ListIsUnique(m: map<string, PLC>, a: seq<PLC>, b: seq<PLC>)
    requires Lists(a, m) && Lists(b, m)
    ensures a == b
    decreases |a|
  {
    hide *;
    HeadIsEntry(a, m);
    HeadIsEntry(b, m);
    if a != [] {
      HeadIsLeast(m, a, b[0].name);
      HeadIsLeast(m, b, a[0].name);
      PrecedesTotal(a[0].name, b[0].name);
      var n := m - {a[0].name};
      Tail(m, a);
      Tail(m, b);
      ListIsUnique(n, a[1..], b[1..]);
      assert a == [a[0]] + a[1..] && b == [b[0]] + b[1..];
    }
  }

  lemma HeadIsEntry(a: seq<PLC>, m: map<string, PLC>)
    requires Lists(a, m)
    ensures a == [] <==> m == map[]
    ensures a != [] ==> a[0].name in m && a[0] == m[a[0].name]
  {
    if a != [] {
      assert a[0] in a;
    }
  }

  lemma RowsAreListed(db: Db, rows: seq<PlcRow>, plcs: seq<PLC>)
    requires DbOk(db) && ToSet(rows) == db.plcs && |plcs| == |rows|
    requires forall i, j :: 0 <= i < j < |rows| ==> Precedes(rows[i].name, rows[j].name)
    requires forall j :: 0 <= j < |rows| ==> plcs[j] == PlcOf(rows[j], db.tags)
    ensures Lists(plcs, View(db))
  {
    ViewShows(db);
    hide View, DbOk, Precedes, TagsOf;
    forall p | p in plcs
      ensures p.name in View(db) && p == View(db)[p.name]
    {
      var j :| 0 <= j < |plcs| && plcs[j] == p;
      assert rows[j] in ToSet(rows);
    }
    forall n | n in View(db)
      ensures n in PlcNames(plcs)
    {
      var r :| r in db.plcs && r.name == n;
      assert r in ToSet(rows);
      var j :| 0 <= j < |rows| && rows[j] == r;
      assert plcs[j].name == n && plcs[j] in plcs;
    }
  }

  lemma HeadIsLeast(m: map<string, PLC>, a: seq<PLC>, n: string)
    requires Lists(a, m) && a != []
    ensures n in m ==> a[0].name == n || Precedes(a[0].name, n)
  {
    if n in m {
      var p :| p in a && p.name == n;
      var i :| 0 <= i < |a| && a[i] == p;
    }
  }

  lemma Tail(m: map<string, PLC>, a: seq<PLC>)
    requires Lists(a, m) && a != []
    ensures Lists(a[1..], m - {a[0].name})
  {
    var n := m - {a[0].name};
    forall p | p in a[1..]
      ensures p.name in n
    {
      var i :| 0 <= i < |a[1..]| && a[1..][i] == p;
      assert Precedes(a[0].name, a[i + 1].name);
      PrecedesTotal(a[0].name, p.name);
    }
    forall x | x in n
      ensures x in PlcNames(a[1..])
    {
      var p :| p in a && p.name == x;
      assert p != a[0];
      assert a == [a[0]] + a[1..];
    }
  }
}
