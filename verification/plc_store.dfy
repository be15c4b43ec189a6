/** internal/plcstore/store.go: the tables plcs and plc_tags, the SQL statements the
    store issues, and the operations built from them. Timestamps of rows are left out. */
module PlcStore {
  import opened Base

  datatype PlcRow = PlcRow(
    id: nat,
    name: string,
    address: string,
    slot: int,
    socketTimeout: string,
    scanRate: string,
    keepAlive: int,
    path: string)

  datatype TagRow = TagRow(plcId: nat, name: string, typ: string, writable: int, dcmdEnabled: int)

  /** plcs as a set of rows, plc_tags in the order of its AUTOINCREMENT ids, and the next
      id of plcs. */
  datatype Db = Db(plcs: set<PlcRow>, tags: seq<TagRow>, nextId: nat)

  datatype Outcome = Done | NotFound | AlreadyExists | Failed

  const EMPTY_DB := Db({}, [], 1)

  // ----- the constraints of the schema -----

  /** Primary keys and names are unique. */
  ghost predicate PlcsOk(db: Db) {
    && (forall r :: r in db.plcs ==> r.id < db.nextId)
    && (forall r, s :: r in db.plcs && s in db.plcs && (r.id == s.id || r.name == s.name) ==> r == s)
  }

  /** UNIQUE(plc_id, name) and the foreign key: no tag row without its PLC. */
  ghost predicate TagsOk(db: Db) {
    UniqueTagRows(db.tags) && forall t :: t in db.tags ==> HasId(db.plcs, t.plcId)
  }

  ghost predicate UniqueTagRows(tags: seq<TagRow>) {
    forall i, j :: 0 <= i < j < |tags| ==> tags[i].plcId != tags[j].plcId || tags[i].name != tags[j].name
  }

  ghost predicate HasId(plcs: set<PlcRow>, plcId: nat) {
    exists r :: r in plcs && r.id == plcId
  }

  ghost predicate DbOk(db: Db) {
    PlcsOk(db) && TagsOk(db)
  }

  // ----- the map the tables stand for -----

  function ToInt(b: bool): int {
    if b then 1 else 0
  }

  function DefOf(t: TagRow): TagDef {
    TagDef(t.name, t.typ, t.writable != 0, t.dcmdEnabled != 0)
  }

  /** SELECT ... FROM plc_tags WHERE plc_id = ? ORDER BY id */
  function TagsOf(tags: seq<TagRow>, plcId: nat): seq<TagDef> {
    if tags == [] then []
    else
      var n := |tags| - 1;
      TagsOf(tags[..n], plcId) + (if tags[n].plcId == plcId then [DefOf(tags[n])] else [])
  }

  function PlcOf(r: PlcRow, tags: seq<TagRow>): PLC {
    PLC(r.name, r.address, r.slot, r.socketTimeout, r.scanRate, r.keepAlive != 0, r.path, TagsOf(tags, r.id))
  }

  /** The store as its users see it. */
  ghost function View(db: Db): map<string, PLC>
    requires DbOk(db)
  {
    map r | r in db.plcs :: r.name := PlcOf(r, db.tags)
  }

  ghost predicate DistinctTags(tags: seq<TagDef>) {
    forall i, j :: 0 <= i < j < |tags| ==> tags[i].name != tags[j].name
  }

  // ----- SQL statements -----

  predicate HasName(db: Db, name: string) {
    exists r :: r in db.plcs && r.name == name
  }

  predicate HasTag(db: Db, plcId: nat, name: string) {
    exists i :: 0 <= i < |db.tags| && db.tags[i].plcId == plcId && db.tags[i].name == name
  }

  function RowFor(id: nat, p: PLC): PlcRow {
    PlcRow(id, p.name, p.address, p.slot, p.socketTimeout, p.scanRate, ToInt(p.keepAlive), p.path)
  }

  function TagRowFor(plcId: nat, t: TagDef): TagRow {
    TagRow(plcId, t.name, t.typ, ToInt(t.writable), ToInt(t.dcmdEnabled))
  }

  /** INSERT INTO plcs; None on a UNIQUE violation. The new row has id nextId. */
  function InsertPlc(db: Db, p: PLC): Option<Db> {
    if HasName(db, p.name) then None
    else Some(db.(plcs := db.plcs + {RowFor(db.nextId, p)}, nextId := db.nextId + 1))
  }

  /** INSERT INTO plc_tags; None on a UNIQUE violation. */
  function InsertTag(db: Db, plcId: nat, t: TagDef): Option<Db> {
    if HasTag(db, plcId, t.name) then None else Some(db.(tags := db.tags + [TagRowFor(plcId, t)]))
  }

  function SetRow(r: PlcRow, name: string, p: PLC): PlcRow {
    if r.name == name then RowFor(r.id, p) else r
  }

  /** UPDATE plcs SET ... WHERE name = ?; None when a matching row would take a name that
      another row has. */
  function UpdatePlc(db: Db, name: string, p: PLC): Option<Db> {
    if HasName(db, name) && p.name != name && HasName(db, p.name) then None
    else Some(db.(plcs := set r | r in db.plcs :: SetRow(r, name, p)))
  }

  function KeepTags(tags: seq<TagRow>, plcId: nat): seq<TagRow> {
    if tags == [] then []
    else
      var n := |tags| - 1;
      KeepTags(tags[..n], plcId) + (if tags[n].plcId == plcId then [] else [tags[n]])
  }

  /** DELETE FROM plc_tags WHERE plc_id = ? */
  function DeleteTags(db: Db, plcId: nat): Db {
    db.(tags := KeepTags(db.tags, plcId))
  }

  /** DELETE FROM plcs WHERE id = ?, with ON DELETE CASCADE. */
  function DeletePlc(db: Db, plcId: nat): Db {
    db.(plcs := (set r | r in db.plcs && r.id != plcId), tags := KeepTags(db.tags, plcId))
  }

  // ----- what the statements mean for the map -----

  /** m is the view of db, row by row. */
  ghost predicate Shows(db: Db, m: map<string, PLC>) {
    && (forall r :: r in db.plcs ==> r.name in m && m[r.name] == PlcOf(r, db.tags))
    && (forall n :: n in m ==> HasName(db, n))
  }

  lemma ViewShows(db: Db)
    requires DbOk(db)
    ensures Shows(db, View(db))
  {
  }

  lemma ShowsIsView(db: Db, m: map<string, PLC>)
    requires DbOk(db) && Shows(db, m)
    ensures View(db) == m
  {
  }

  lemma {:induction false} NoTagsYet(tags: seq<TagRow>, plcId: nat)
    requires forall t :: t in tags ==> t.plcId != plcId
    ensures TagsOf(tags, plcId) == []
  {
    if tags != [] {
      NoTagsYet(tags[..|tags| - 1], plcId);
    }
  }

  lemma InsertPlcKeepsOk(db: Db, p: PLC)
    requires DbOk(db) && InsertPlc(db, p).Some?
    ensures DbOk(InsertPlc(db, p).value)
  {
    var e := InsertPlc(db, p).value;
    forall t | t in e.tags
      ensures HasId(e.plcs, t.plcId)
    {
      var r :| r in db.plcs && r.id == t.plcId;
      assert r in e.plcs;
    }
  }

  lemma RowForShows(id: nat, p: PLC, tags: seq<TagRow>)
    ensures PlcOf(RowFor(id, p), tags) == p.(tags := TagsOf(tags, id))
  {
  }

  /** Replacing the rows of the given names by one row changes exactly those entries. */
  lemma SwapRow(db: Db, e: Db, names: set<string>, row: PlcRow)
    requires DbOk(db) && DbOk(e) && e.tags == db.tags && row in e.plcs
    requires forall s :: s in e.plcs <==> s == row || (s in db.plcs && s.name !in names)
    ensures View(e) == (View(db) - names)[row.name := PlcOf(row, db.tags)]
  {
    ViewShows(db);
    hide View, PlcOf;
    var m := (View(db) - names)[row.name := PlcOf(row, db.tags)];
    forall n | n in m
      ensures HasName(e, n)
    {
      if n == row.name {
        assert row in e.plcs;
      } else {
        var s :| s in db.plcs && s.name == n;
        assert s in e.plcs;
      }
    }
    ShowsIsView(e, m);
  }

  lemma InsertPlcMeans(db: Db, p: PLC)
    requires DbOk(db) && InsertPlc(db, p).Some?
    ensures var e := InsertPlc(db, p).value;
            && DbOk(e) && RowFor(db.nextId, p) in e.plcs && TagsOf(e.tags, db.nextId) == []
            && View(e) == View(db)[p.name := p.(tags := [])]
  {
    var e := InsertPlc(db, p).value;
    var row := RowFor(db.nextId, p);
    InsertPlcKeepsOk(db, p);
    assert forall t :: t in db.tags ==> t.plcId != row.id;
    NoTagsYet(db.tags, row.id);
    RowForShows(db.nextId, p, db.tags);
    hide View, PlcOf, TagsOf, TagsOk;
    SwapRow(db, e, {}, row);
    assert View(db) - {} == View(db);
  }

  lemma AppendTag(tags: seq<TagRow>, t: TagRow, plcId: nat)
    ensures TagsOf(tags + [t], plcId) == TagsOf(tags, plcId) + (if t.plcId == plcId then [DefOf(t)] else [])
  {
    assert (tags + [t])[..|tags|] == tags;
  }

  lemma InsertTagKeepsOk(db: Db, r: PlcRow, t: TagDef)
    requires DbOk(db) && r in db.plcs && InsertTag(db, r.id, t).Some?
    ensures DbOk(InsertTag(db, r.id, t).value)
  {
    var e := InsertTag(db, r.id, t).value;
    forall u | u in e.tags
      ensures HasId(e.plcs, u.plcId)
    {
      assert u in db.tags || u == TagRowFor(r.id, t);
    }
  }

  /** Changing only the tag rows of r changes only the entry of r. */
  lemma OnlyTagsOf(db: Db, e: Db, r: PlcRow, tags: seq<TagDef>)
    requires DbOk(db) && DbOk(e) && e.plcs == db.plcs && r in db.plcs && TagsOf(e.tags, r.id) == tags
    requires forall s :: s in db.plcs && s != r ==> TagsOf(e.tags, s.id) == TagsOf(db.tags, s.id)
    ensures View(e) == View(db)[r.name := PlcOf(r, db.tags).(tags := tags)]
  {
    ViewShows(db);
    hide View, TagsOf;
    ShowsIsView(e, View(db)[r.name := PlcOf(r, db.tags).(tags := tags)]);
  }

  lemma InsertTagMeans(db: Db, r: PlcRow, t: TagDef)
    requires DbOk(db) && r in db.plcs && InsertTag(db, r.id, t).Some?
    ensures var e := InsertTag(db, r.id, t).value;
            && DbOk(e) && e.plcs == db.plcs
            && TagsOf(e.tags, r.id) == TagsOf(db.tags, r.id) + [t]
            && View(e) == View(db)[r.name := PlcOf(r, db.tags).(tags := TagsOf(db.tags, r.id) + [t])]
  {
    var e := InsertTag(db, r.id, t).value;
    InsertTagKeepsOk(db, r, t);
    assert DefOf(TagRowFor(r.id, t)) == t;
    forall s | s in db.plcs
      ensures TagsOf(e.tags, s.id) == TagsOf(db.tags, s.id) + (if s.id == r.id then [t] else [])
    {
      AppendTag(db.tags, TagRowFor(r.id, t), s.id);
    }
    hide View, TagsOf;
    OnlyTagsOf(db, e, r, TagsOf(db.tags, r.id) + [t]);
  }

  /** The names of a PLC's tag rows are the names of its tags. */
  lemma {:induction false} HasTagIsListed(db: Db, plcId: nat, name: string)
    ensures HasTag(db, plcId, name) <==> exists i :: 0 <= i < |TagsOf(db.tags, plcId)| && TagsOf(db.tags, plcId)[i].name == name
    decreases |db.tags|
  {
    if db.tags != [] {
      var n := |db.tags| - 1;
      var rest := db.(tags := db.tags[..n]);
      HasTagIsListed(rest, plcId, name);
      var all, some := TagsOf(db.tags, plcId), TagsOf(rest.tags, plcId);
      assert HasTag(db, plcId, name) <==>
             HasTag(rest, plcId, name) || (db.tags[n].plcId == plcId && db.tags[n].name == name) by {
        if HasTag(rest, plcId, name) {
          var i :| 0 <= i < |rest.tags| && rest.tags[i].plcId == plcId && rest.tags[i].name == name;
          assert db.tags[i] == rest.tags[i];
        }
        if i :| 0 <= i < |db.tags| && db.tags[i].plcId == plcId && db.tags[i].name == name {
          if i < n {
            assert rest.tags[i] == db.tags[i];
          }
        }
      }
      if i :| 0 <= i < |some| && some[i].name == name {
        assert all[i].name == name;
      }
      if db.tags[n].plcId == plcId && db.tags[n].name == name {
        assert all[|some|].name == name;
      }
      if i :| 0 <= i < |all| && all[i].name == name {
        if i < |some| {
          assert some[i].name == name;
        }
      }
    }
  }

  lemma {:induction false} KeptMembers(tags: seq<TagRow>, plcId: nat)
    ensures forall t :: t in KeepTags(tags, plcId) <==> t in tags && t.plcId != plcId
  {
    if tags != [] {
      var n := |tags| - 1;
      KeptMembers(tags[..n], plcId);
      assert tags == tags[..n] + [tags[n]];
    }
  }

  lemma {:induction false} KeptTagsOf(tags: seq<TagRow>, plcId: nat, other: nat)
    ensures TagsOf(KeepTags(tags, plcId), other) == if other == plcId then [] else TagsOf(tags, other)
  {
    if tags != [] {
      var n := |tags| - 1;
      KeptTagsOf(tags[..n], plcId, other);
      var kept := KeepTags(tags[..n], plcId);
      assert KeepTags(tags, plcId) == kept + (if tags[n].plcId == plcId then [] else [tags[n]]);
      assert kept + [] == kept && tags == tags[..n] + [tags[n]];
      AppendTag(kept, tags[n], other);
      AppendTag(tags[..n], tags[n], other);
      hide KeepTags, TagsOf, DefOf;
    }
  }

  lemma KeptTags(tags: seq<TagRow>, plcId: nat, other: nat)
    ensures TagsOf(KeepTags(tags, plcId), other) == if other == plcId then [] else TagsOf(tags, other)
    ensures forall t :: t in KeepTags(tags, plcId) <==> t in tags && t.plcId != plcId
  {
    hide *;
    KeptMembers(tags, plcId);
    KeptTagsOf(tags, plcId, other);
  }

  lemma {:induction false} KeptUnique(tags: seq<TagRow>, plcId: nat)
    requires UniqueTagRows(tags)
    ensures UniqueTagRows(KeepTags(tags, plcId))
  {
    if tags != [] {
      var n := |tags| - 1;
      KeptUnique(tags[..n], plcId);
      KeptTags(tags[..n], plcId, plcId);
      var kept := KeepTags(tags[..n], plcId);
      forall i | 0 <= i < |kept|
        ensures kept[i].plcId != tags[n].plcId || kept[i].name != tags[n].name
      {
        assert kept[i] in kept;
        var j :| 0 <= j < n && tags[..n][j] == kept[i];
      }
    }
  }

  lemma DeleteTagsMeans(db: Db, r: PlcRow)
    requires DbOk(db) && r in db.plcs
    ensures var e := DeleteTags(db, r.id);
            && DbOk(e) && TagsOf(e.tags, r.id) == []
            && View(e) == View(db)[r.name := PlcOf(r, db.tags).(tags := [])]
  {
    var e := DeleteTags(db, r.id);
    KeptUnique(db.tags, r.id);
    KeptTags(db.tags, r.id, r.id);
    forall s | s in db.plcs
      ensures TagsOf(e.tags, s.id) == if s.id == r.id then [] else TagsOf(db.tags, s.id)
    {
      KeptTags(db.tags, r.id, s.id);
    }
    hide View, TagsOf, KeepTags;
    OnlyTagsOf(db, e, r, []);
  }

  lemma DeletePlcKeepsOk(db: Db, r: PlcRow)
    requires DbOk(db) && r in db.plcs
    ensures DbOk(DeletePlc(db, r.id))
  {
    var e := DeletePlc(db, r.id);
    KeptUnique(db.tags, r.id);
    KeptTags(db.tags, r.id, r.id);
    forall t | t in e.tags
      ensures HasId(e.plcs, t.plcId)
    {
      var s :| s in db.plcs && s.id == t.plcId;
      assert s in e.plcs;
    }
  }

  lemma DeletePlcMeans(db: Db, r: PlcRow)
    requires DbOk(db) && r in db.plcs
    ensures DbOk(DeletePlc(db, r.id)) && View(DeletePlc(db, r.id)) == View(db) - {r.name}
  {
    var e := DeletePlc(db, r.id);
    DeletePlcKeepsOk(db, r);
    ViewShows(db);
    hide View;
    forall s | s in e.plcs
      ensures TagsOf(e.tags, s.id) == TagsOf(db.tags, s.id)
    {
      KeptTags(db.tags, r.id, s.id);
    }
    hide TagsOf, KeepTags;
    forall n | n in View(db) - {r.name}
      ensures HasName(e, n)
    {
      var s :| s in db.plcs && s.name == n;
      assert s in e.plcs;
    }
    ShowsIsView(e, View(db) - {r.name});
  }

  /** The rows after an UPDATE: the matching one rewritten, the others as they were. */
  lemma UpdatedRows(db: Db, name: string, p: PLC, r: PlcRow)
    requires PlcsOk(db) && r in db.plcs && r.name == name && UpdatePlc(db, name, p).Some?
    ensures var e := UpdatePlc(db, name, p).value;
            && RowFor(r.id, p) in e.plcs
            && (forall s :: s in e.plcs <==> s == RowFor(r.id, p) || (s in db.plcs && s != r))
            && (forall s :: s in db.plcs && s != r ==> s.name != p.name && s.id != r.id)
  {
    var e := UpdatePlc(db, name, p).value;
    assert SetRow(r, name, p) == RowFor(r.id, p);
    forall s | s in db.plcs && s != r
      ensures s.name != p.name && s in e.plcs
    {
      assert SetRow(s, name, p) == s;
      assert HasName(db, name);
    }
  }

  lemma UpdatePlcKeepsOk(db: Db, name: string, p: PLC, r: PlcRow)
    requires DbOk(db) && r in db.plcs && r.name == name && UpdatePlc(db, name, p).Some?
    ensures DbOk(UpdatePlc(db, name, p).value)
  {
    var e := UpdatePlc(db, name, p).value;
    UpdatedRows(db, name, p, r);
    forall t | t in e.tags
      ensures HasId(e.plcs, t.plcId)
    {
      var s :| s in db.plcs && s.id == t.plcId;
      assert (if s == r then RowFor(r.id, p) else s) in e.plcs;
    }
  }

  lemma UpdatePlcMeans(db: Db, name: string, p: PLC, r: PlcRow)
    requires DbOk(db) && r in db.plcs && r.name == name && UpdatePlc(db, name, p).Some?
    ensures var e := UpdatePlc(db, name, p).value;
            && DbOk(e) && RowFor(r.id, p) in e.plcs && e.tags == db.tags
            && View(e) == (View(db) - {name})[p.name := p.(tags := TagsOf(db.tags, r.id))]
  {
    UpdatePlcKeepsOk(db, name, p, r);
    UpdatedRows(db, name, p, r);
    RowForShows(r.id, p, db.tags);
    hide View, PlcOf, TagsOf, TagsOk;
    SwapRow(db, UpdatePlc(db, name, p).value, {name}, RowFor(r.id, p));
  }

  lemma HasNameIsKey(db: Db, name: string)
    requires DbOk(db)
    ensures HasName(db, name) <==> name in View(db)
  {
    ViewShows(db);
    hide View;
  }

  lemma RowIsEntry(db: Db, r: PlcRow)
    requires DbOk(db) && r in db.plcs
    ensures r.name in View(db) && View(db)[r.name] == PlcOf(r, db.tags)
    ensures forall s :: s in db.plcs && s.name == r.name ==> s == r
  {
    ViewShows(db);
    hide View, PlcOf;
  }

  // ----- loading the tags of a row that has none -----

  /** tx is tx0 with the given tags inserted for r. */
  ghost predicate Loaded(tx0: Db, tx: Db, r: PlcRow, tags: seq<TagDef>) {
    && DbOk(tx0) && DbOk(tx) && tx.plcs == tx0.plcs && r in tx.plcs
    && DistinctTags(tags) && TagsOf(tx.tags, r.id) == tags
    && View(tx) == View(tx0)[r.name := PlcOf(r, tx0.tags).(tags := tags)]
  }

  lemma LoadNone(tx: Db, r: PlcRow)
    requires DbOk(tx) && r in tx.plcs && TagsOf(tx.tags, r.id) == []
    ensures Loaded(tx, tx, r, [])
  {
    RowIsEntry(tx, r);
    hide View, DbOk;
  }

  lemma LoadedMeans(tx0: Db, tx: Db, r: PlcRow, tags: seq<TagDef>)
    ensures Loaded(tx0, tx, r, tags) <==>
            && DbOk(tx0) && DbOk(tx) && tx.plcs == tx0.plcs && r in tx.plcs
            && DistinctTags(tags) && TagsOf(tx.tags, r.id) == tags
            && View(tx) == View(tx0)[r.name := PlcOf(r, tx0.tags).(tags := tags)]
  {
    hide View, DbOk, TagsOf, PlcOf, DistinctTags;
  }

  lemma OneMoreTag(tags: seq<TagDef>, t: TagDef)
    ensures DistinctTags(tags + [t]) <==>
            DistinctTags(tags) && !exists i :: 0 <= i < |tags| && tags[i].name == t.name
  {
    var all := tags + [t];
    if i :| 0 <= i < |tags| && tags[i].name == t.name {
      assert all[i].name == all[|tags|].name;
    }
    if DistinctTags(all) {
      forall i, j | 0 <= i < j < |tags|
        ensures tags[i].name != tags[j].name
      {
        assert all[i].name != all[j].name;
      }
    }
  }

  lemma LoadMore(tx0: Db, tx: Db, r: PlcRow, tags: seq<TagDef>, t: TagDef)
    requires Loaded(tx0, tx, r, tags)
    ensures InsertTag(tx, r.id, t).Some? <==> DistinctTags(tags + [t])
    ensures InsertTag(tx, r.id, t).Some? ==> Loaded(tx0, InsertTag(tx, r.id, t).value, r, tags + [t])
  {
    hide *;
    LoadedMeans(tx0, tx, r, tags);
    HasTagIsListed(tx, r.id, t.name);
    OneMoreTag(tags, t);
    InsertTagIffNew(tx, r.id, t);
    if InsertTag(tx, r.id, t).Some? {
      InsertTagMeans(tx, r, t);
      SameButTags(r, tx0.tags, tx.tags);
      LoadedMeans(tx0, InsertTag(tx, r.id, t).value, r, tags + [t]);
    }
  }

  lemma InsertTagIffNew(db: Db, plcId: nat, t: TagDef)
    ensures InsertTag(db, plcId, t).Some? <==> !HasTag(db, plcId, t.name)
  {
  }

  lemma SameButTags(r: PlcRow, a: seq<TagRow>, b: seq<TagRow>)
    ensures forall tags :: PlcOf(r, a).(tags := tags) == PlcOf(r, b).(tags := tags)
  {
  }

  /** INSERT INTO plcs and its tags: the map gains the entry p. */
  lemma CreateEffect(db: Db, tx: Db, p: PLC)
    requires DbOk(db) && InsertPlc(db, p).Some?
    requires Loaded(InsertPlc(db, p).value, tx, RowFor(db.nextId, p), p.tags)
    ensures DbOk(tx) && View(tx) == View(db)[p.name := p]
  {
    InsertPlcMeans(db, p);
    RowForShows(db.nextId, p, InsertPlc(db, p).value.tags);
    hide View, DbOk, TagsOf, PlcOf, InsertPlc;
  }

  /** UPDATE, DELETE of the old tags, and the new ones: the entry moves to p.name. */
  lemma UpdateEffect(db: Db, name: string, p: PLC, r: PlcRow, tx: Db)
    requires DbOk(db) && r in db.plcs && r.name == name && UpdatePlc(db, name, p).Some?
    requires Loaded(DeleteTags(UpdatePlc(db, name, p).value, r.id), tx, RowFor(r.id, p), p.tags)
    ensures DbOk(tx) && View(tx) == (View(db) - {name})[p.name := p]
  {
    hide *;
    UpdatePlcMeans(db, name, p, r);
    var u, row := UpdatePlc(db, name, p).value, RowFor(r.id, p);
    RowForId(r.id, p);
    DeleteTagsMeans(u, row);
    var d := DeleteTags(u, r.id);
    RowForShows(r.id, p, u.tags);
    RowForShows(r.id, p, d.tags);
    LoadedMeans(d, tx, row, p.tags);
  }

  lemma RowForId(id: nat, p: PLC)
    ensures RowFor(id, p).id == id && RowFor(id, p).name == p.name
  {
  }
}
