/** Where a permission comes from, over any sequence of edits. */
module AclHistory {
  import opened Base
  import opened AclStore

  /** The table before the i-th edit. */
  function At(edits: seq<Edit>, i: nat): Table
    requires i <= |edits|
  {
    if i == 0 then EMPTY else Apply(At(edits, i - 1), edits[i - 1])
  }

  ghost predicate Allows(t: Table, key: Key)
    requires TableOk(t)
  {
    key in Grants(t) && Grants(t)[key]
  }

  /** The edit commits and writes a row of this key that allows. */
  predicate GrantsIt(t: Table, e: Edit, key: Key) {
    match e
    case Create(r, _) => r == Rule(key, true) && Apply(t, e) != t
    case Update(id, r, fault) => r == Rule(key, true) && ValidRole(key.role) && !fault && id in t.rows && Set(t, id, r).Some?
    case Delete(_, _) => false
  }

  /** The edit removes or overwrites the row of this key, or writes one that denies. */
  predicate Revokes(t: Table, e: Edit, key: Key) {
    !GrantsIt(t, e, key)
    && match e
       case Create(r, _) => r == Rule(key, false) && Apply(t, e) != t
       case Update(id, r, fault) =>
         ValidRole(r.key.role) && !fault && id in t.rows && Set(t, id, r).Some? && (r.key == key || t.rows[id].key == key)
       case Delete(id, fault) => !fault && id in t.rows && t.rows[id].key == key
  }

  lemma CreateKeeps(t: Table, r: Rule, fault: bool, key: Key)
    requires TableOk(t)
    ensures var e := Create(r, fault);
            && TableOk(Apply(t, e))
            && (Allows(Apply(t, e), key) <==> GrantsIt(t, e, key) || (Allows(t, key) && !Revokes(t, e, key)))
  {
    hide Grants, Insert, TableOk;
    InsertMeans(t, r);
    InsertChanges(t, r);
  }

  lemma UpdateKeeps(t: Table, id: nat, r: Rule, fault: bool, key: Key)
    requires TableOk(t)
    ensures var e := Update(id, r, fault);
            && TableOk(Apply(t, e))
            && (Allows(Apply(t, e), key) <==> GrantsIt(t, e, key) || (Allows(t, key) && !Revokes(t, e, key)))
  {
    hide Grants, TableOk, Set;
    SetMisses(t, id, r);
    if id in t.rows {
      SetMeans(t, id, r);
      OwnKeyIsGranted(t, id);
    }
  }

  lemma DeleteKeeps(t: Table, id: nat, fault: bool, key: Key)
    requires TableOk(t)
    ensures var e := Delete(id, fault);
            && TableOk(Apply(t, e))
            && (Allows(Apply(t, e), key) <==> GrantsIt(t, e, key) || (Allows(t, key) && !Revokes(t, e, key)))
  {
    hide Grants, TableOk;
    if id in t.rows {
      RemoveMeans(t, id);
    } else {
      assert t.rows - {id} == t.rows;
    }
  }

  lemma SetMisses(t: Table, id: nat, r: Rule)
    ensures id !in t.rows ==> Set(t, id, r) == Some(t)
  {
  }

  lemma OwnKeyIsGranted(t: Table, id: nat)
    requires TableOk(t) && id in t.rows
    ensures t.rows[id].key in Grants(t)
  {
  }

  lemma EditKeeps(t: Table, e: Edit, key: Key)
    requires TableOk(t)
    ensures TableOk(Apply(t, e))
    ensures Allows(Apply(t, e), key) <==> GrantsIt(t, e, key) || (Allows(t, key) && !Revokes(t, e, key))
  {
    hide TableOk, Apply, Allows, GrantsIt, Revokes;
    match e
    case Create(r, fault) => CreateKeeps(t, r, fault, key);
    case Update(id, r, fault) => UpdateKeeps(t, id, r, fault, key);
    case Delete(id, fault) => DeleteKeeps(t, id, fault, key);
  }

  lemma InsertChanges(t: Table, r: Rule)
    ensures Insert(t, r).Some? ==> Insert(t, r).value != t
  {
  }

  lemma {:induction false} TablesOk(edits: seq<Edit>, i: nat)
    requires i <= |edits|
    ensures TableOk(At(edits, i))
  {
    if i > 0 {
      TablesOk(edits, i - 1);
      EditKeeps(At(edits, i - 1), edits[i - 1], Key("", "", ""));
    }
  }

  /** Edit g gave the permission and no edit from then to n took it away. */
  ghost predicate Provenance(edits: seq<Edit>, n: nat, key: Key, g: nat)
    requires n <= |edits|
  {
    && g < n && GrantsIt(At(edits, g), edits[g], key)
    && forall j :: g < j < n ==> !Revokes(At(edits, j), edits[j], key)
  }

  lemma ProvenanceStep(edits: seq<Edit>, m: nat, n: nat, key: Key)
    requires m < |edits| && n == m + 1
    ensures (exists g: nat :: Provenance(edits, n, key, g)) <==>
            || GrantsIt(At(edits, m), edits[m], key)
            || ((exists g: nat :: Provenance(edits, m, key, g)) && !Revokes(At(edits, m), edits[m], key))
  {
    hide Apply, GrantsIt, Revokes, At;
    if GrantsIt(At(edits, m), edits[m], key) {
      assert Provenance(edits, n, key, m);
    } else {
      if g: nat :| Provenance(edits, n, key, g) {
        assert g < m;
        assert Provenance(edits, m, key, g);
      }
      if !Revokes(At(edits, m), edits[m], key) {
        if g: nat :| Provenance(edits, m, key, g) {
          assert Provenance(edits, n, key, g);
        }
      }
    }
  }

  /** A table that started empty allows a write if and only if some edit granted exactly
      this (role, plc, tag), and no later edit revoked it. */
  lemma {:induction false} PermissionHasProvenance(edits: seq<Edit>, n: nat, key: Key)
    requires n <= |edits|
    ensures TableOk(At(edits, n))
    ensures Allows(At(edits, n), key) <==> exists g: nat :: Provenance(edits, n, key, g)
  {
    TablesOk(edits, n);
    hide Apply, GrantsIt, Revokes, TableOk;
    if n > 0 {
      var m := n - 1;
      assert At(edits, n) == Apply(At(edits, m), edits[m]);
      hide Provenance, Allows, At;
      PermissionHasProvenance(edits, m, key);
      EditKeeps(At(edits, m), edits[m], key);
      ProvenanceStep(edits, m, n, key);
    }
  }
}
