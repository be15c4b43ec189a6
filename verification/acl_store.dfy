/** internal/aclstore/store.go: the table tag_acl with UNIQUE(role, plc, tag), refining
    a map from (role, plc, tag) to a permission. */
module AclStore {
  import opened Base

  datatype Key = Key(role: string, plc: string, tag: string)

  datatype Rule = Rule(key: Key, allow: bool)

  /** The rows by their AUTOINCREMENT id, and the next id. */
  datatype Table = Table(rows: map<nat, Rule>, next: nat)

  datatype Outcome = Done | InvalidRole | AlreadyExists | NotFound | Failed

  const EMPTY := Table(map[], 1)

  predicate ValidRole(role: string) {
    role == "admin" || role == "operator" || role == "viewer"
  }

  /** UNIQUE(role, plc, tag), and no row has an id that is still to come. */
  ghost predicate TableOk(t: Table) {
    && (forall i, j :: i in t.rows && j in t.rows && t.rows[i].key == t.rows[j].key ==> i == j)
    && (forall i :: i in t.rows ==> i < t.next)
  }

  predicate HasKey(t: Table, key: Key) {
    exists i :: i in t.rows && t.rows[i].key == key
  }

  /** The permissions the table stands for. */
  ghost function Grants(t: Table): map<Key, bool>
    requires TableOk(t)
  {
    map k | k in Keys(t) :: (exists i :: i in t.rows && t.rows[i] == Rule(k, true))
  }

  function Keys(t: Table): set<Key> {
    set i | i in t.rows :: t.rows[i].key
  }

  // ----- the statements -----

  /** INSERT */
  function Insert(t: Table, r: Rule): Option<Table> {
    if HasKey(t, r.key) then None else Some(Table(t.rows[t.next := r], t.next + 1))
  }

  /** UPDATE ... WHERE id = ?: no row, no effect; a key of another row is a violation. */
  function Set(t: Table, id: nat, r: Rule): Option<Table> {
    if id !in t.rows then Some(t)
    else if r.key != t.rows[id].key && HasKey(t, r.key) then None
    else Some(t.(rows := t.rows[id := r]))
  }

  /** m is the permission map of t, row by row. */
  ghost predicate Shows(t: Table, m: map<Key, bool>) {
    && (forall i :: i in t.rows ==> t.rows[i].key in m && m[t.rows[i].key] == t.rows[i].allow)
    && (forall k :: k in m ==> HasKey(t, k))
  }

  lemma GrantsShows(t: Table)
    requires TableOk(t)
    ensures Shows(t, Grants(t))
    ensures forall k :: k in Grants(t) <==> HasKey(t, k)
  {
  }

  lemma ShowsIsGrants(t: Table, m: map<Key, bool>)
    requires TableOk(t) && Shows(t, m)
    ensures Grants(t) == m
  {
    GrantsShows(t);
    hide Grants;
    forall k | k in m
      ensures k in Grants(t) && Grants(t)[k] == m[k]
    {
      var i :| i in t.rows && t.rows[i].key == k;
    }
    forall k | k in Grants(t)
      ensures k in m
    {
      var i :| i in t.rows && t.rows[i].key == k;
    }
  }

  lemma InsertMeans(t: Table, r: Rule)
    requires TableOk(t)
    ensures Insert(t, r).Some? <==> r.key !in Grants(t)
    ensures Insert(t, r).Some? ==>
              && TableOk(Insert(t, r).value)
              && Grants(Insert(t, r).value) == Grants(t)[r.key := r.allow]
  {
    GrantsShows(t);
    hide Grants;
    if Insert(t, r).Some? {
      InsertShows(t, r, Grants(t));
      ShowsIsGrants(Insert(t, r).value, Grants(t)[r.key := r.allow]);
    }
  }

  lemma InsertKeepsOk(t: Table, r: Rule)
    requires TableOk(t) && Insert(t, r).Some?
    ensures TableOk(Insert(t, r).value)
    ensures t.next !in t.rows && forall i :: i in t.rows ==> t.rows[i].key != r.key
  {
    assert forall i :: i in t.rows ==> t.rows[i].key != r.key;
  }

  lemma InsertShows(t: Table, r: Rule, m: map<Key, bool>)
    requires TableOk(t) && Shows(t, m) && Insert(t, r).Some?
    ensures TableOk(Insert(t, r).value) && Shows(Insert(t, r).value, m[r.key := r.allow])
  {
    var u := Insert(t, r).value;
    InsertKeepsOk(t, r);
    hide TableOk;
    assert u.rows[t.next] == r;
    forall k | k in m[r.key := r.allow]
      ensures HasKey(u, k)
    {
      if k != r.key {
        var i :| i in t.rows && t.rows[i].key == k;
        assert u.rows[i] == t.rows[i];
      }
    }
  }

  lemma RemoveMeans(t: Table, id: nat)
    requires TableOk(t) && id in t.rows
    ensures TableOk(t.(rows := t.rows - {id}))
    ensures Grants(t.(rows := t.rows - {id})) == Grants(t) - {t.rows[id].key}
  {
    GrantsShows(t);
    hide Grants;
    RemoveShows(t, id, Grants(t));
    ShowsIsGrants(t.(rows := t.rows - {id}), Grants(t) - {t.rows[id].key});
  }

  lemma RemoveShows(t: Table, id: nat, m: map<Key, bool>)
    requires TableOk(t) && Shows(t, m) && id in t.rows
    ensures TableOk(t.(rows := t.rows - {id})) && Shows(t.(rows := t.rows - {id}), m - {t.rows[id].key})
  {
    var u := t.(rows := t.rows - {id});
    forall k | k in m - {t.rows[id].key}
      ensures HasKey(u, k)
    {
      var i :| i in t.rows && t.rows[i].key == k;
      assert i in u.rows && u.rows[i] == t.rows[i];
    }
  }

  lemma SetMeans(t: Table, id: nat, r: Rule)
    requires TableOk(t) && id in t.rows
    ensures Set(t, id, r).Some? <==> r.key !in Grants(t) - {t.rows[id].key}
    ensures Set(t, id, r).Some? ==>
              && TableOk(Set(t, id, r).value)
              && Grants(Set(t, id, r).value) == (Grants(t) - {t.rows[id].key})[r.key := r.allow]
  {
    GrantsShows(t);
    hide Grants;
    if Set(t, id, r).Some? {
      SetShows(t, id, r, Grants(t));
      ShowsIsGrants(Set(t, id, r).value, (Grants(t) - {t.rows[id].key})[r.key := r.allow]);
    }
  }

  lemma SetKeepsOk(t: Table, id: nat, r: Rule)
    requires TableOk(t) && id in t.rows && Set(t, id, r).Some?
    ensures TableOk(Set(t, id, r).value)
    ensures forall i :: i in t.rows && i != id ==> t.rows[i].key != r.key && t.rows[i].key != t.rows[id].key
  {
  }

  lemma SetShows(t: Table, id: nat, r: Rule, m: map<Key, bool>)
    requires TableOk(t) && Shows(t, m) && id in t.rows && Set(t, id, r).Some?
    ensures TableOk(Set(t, id, r).value) && Shows(Set(t, id, r).value, (m - {t.rows[id].key})[r.key := r.allow])
  {
    var u := Set(t, id, r).value;
    SetKeepsOk(t, id, r);
    hide TableOk;
    assert u.rows[id] == r;
    forall k | k in (m - {t.rows[id].key})[r.key := r.allow]
      ensures HasKey(u, k)
    {
      if k != r.key {
        var i :| i in t.rows && t.rows[i].key == k;
        assert i in u.rows && u.rows[i] == t.rows[i];
      }
    }
  }

  // ----- edits -----

  /** One edit of the table, which the database may fail. */
  datatype Edit = Create(r: Rule, fault: bool) | Update(id: nat, r: Rule, fault: bool) | Delete(id: nat, fault: bool)

  /** What an edit does to the table, commit or not. */
  function Apply(t: Table, e: Edit): Table {
    match e
    case Create(r, fault) =>
      if !ValidRole(r.key.role) || fault then t
      else (match Insert(t, r) case None => t case Some(u) => u)
    case Update(id, r, fault) =>
      if !ValidRole(r.key.role) || fault then t
      else (match Set(t, id, r) case None => t case Some(u) => u)
    case Delete(id, fault) => if fault then t else t.(rows := t.rows - {id})
  }

  // ----- the class -----

  /** Store. `fault` says that the database fails the statement. */
  class Store {
    var table: Table

    ghost predicate Valid()
      reads this
    {
      TableOk(table)
    }

    ghost function Permissions(): map<Key, bool>
      requires Valid()
      reads this
    {
      Grants(table)
    }

    constructor ()
      ensures Valid() && Permissions() == map[] && table == EMPTY
    {
      table := EMPTY;
    }

    method CreateRule(r: Rule, fault: bool) returns (o: Outcome)
      requires Valid()
      modifies this
      ensures Valid()
      ensures o == (if !ValidRole(r.key.role) then InvalidRole
                    else if fault then Failed
                    else if r.key in old(Permissions()) then AlreadyExists
                    else Done)
      ensures o == InvalidRole <==> r.key.role !in {"admin", "operator", "viewer"}
      ensures o == Done ==> Permissions() == old(Permissions())[r.key := r.allow]
      ensures o != Done ==> table == old(table)
      ensures table == Apply(old(table), Create(r, fault))
    {
      hide Grants, TableOk;
      InsertMeans(table, r);
      if !ValidRole(r.key.role) {
        return InvalidRole;
      }
      if fault {
        return Failed;
      }
      match Insert(table, r)
      case None => return AlreadyExists;
      case Some(t) =>
        table := t;
        return Done;
    }

    /** A missing id is reported only after the statement ran; the new key may be the
        row's own. */
    method UpdateRule(id: nat, r: Rule, fault: bool) returns (o: Outcome)
      requires Valid()
      modifies this
      ensures Valid()
      ensures o == (if !ValidRole(r.key.role) then InvalidRole
                    else if fault then Failed
                    else if id !in old(table).rows then NotFound
                    else if r.key in old(Permissions()) - {old(table).rows[id].key} then AlreadyExists
                    else Done)
      ensures o == InvalidRole <==> r.key.role !in {"admin", "operator", "viewer"}
      ensures o == Done ==>
                Permissions() == (old(Permissions()) - {old(table).rows[id].key})[r.key := r.allow]
      ensures o != Done ==> table == old(table)
      ensures table == Apply(old(table), Update(id, r, fault))
    {
      hide Grants, TableOk;
      if !ValidRole(r.key.role) {
        return InvalidRole;
      }
      if fault {
        return Failed;
      }
      if id in table.rows {
        SetMeans(table, id, r);
      }
      var affected := if id in table.rows then 1 else 0;
      match Set(table, id, r)
      case None => return AlreadyExists;
      case Some(t) =>
        if affected == 0 {
          return NotFound;
        }
        table := t;
        return Done;
    }

    method DeleteRule(id: nat, fault: bool) returns (o: Outcome)
      requires Valid()
      modifies this
      ensures Valid()
      ensures o == (if fault then Failed else if id in old(table).rows then Done else NotFound)
      ensures o == Done ==> Permissions() == old(Permissions()) - {old(table).rows[id].key}
      ensures o != Done ==> table == old(table)
      ensures table == Apply(old(table), Delete(id, fault))
    {
      hide Grants, TableOk;
      if fault {
        return Failed;
      }
      if id !in table.rows {
        assert table.rows - {id} == table.rows;
        return NotFound;
      }
      RemoveMeans(table, id);
      table := table.(rows := table.rows - {id});
      return Done;
    }

    /** Seed fills an empty table in one transaction, or leaves it empty. It does not
        check roles. `fault` names the statement the database fails. */
    method Seed(rules: seq<Rule>, fault: Option<nat>) returns (o: Outcome)
      requires Valid()
      modifies this
      ensures Valid()
      ensures o == Done && rules != [] && old(Permissions()) == map[] ==>
                DistinctKeys(rules) && Permissions() == Seeded(rules)
      ensures o == Done && (rules == [] || old(Permissions()) != map[]) ==> table == old(table)
      ensures o != Done ==> table == old(table) && o == Failed && (fault.Some? || !DistinctKeys(rules))
    {
      if |rules| == 0 {
        return Done;
      }
      if fault == Some(0) {
        return Failed;
      }
      EmptyMeansNoGrants(table);
      if table.rows != map[] {
        return Done;
      }
      hide Grants, TableOk, DistinctKeys, Seeded;
      NothingSeeded();
      var t := table;
      for i := 0 to |rules|
        invariant TableOk(t) && Grants(t) == Seeded(rules[..i]) && DistinctKeys(rules[..i])
        invariant table == old(table)
      {
        assert rules[..i + 1] == rules[..i] + [rules[i]];
        SeededMore(rules[..i], rules[i]);
        InsertMeans(t, rules[i]);
        if fault == Some(i + 1) {
          return Failed;
        }
        match Insert(t, rules[i])
        case None =>
          PrefixDistinct(rules, i + 1);
          return Failed;
        case Some(u) => t := u;
      }
      assert rules[..|rules|] == rules;
      if fault.Some? {
        return Failed;
      }
      table := t;
      return Done;
    }

    /** CanWrite: true only for a row of exactly this key that allows; None is a store
        failure. */
    method CanWrite(key: Key, fault: bool) returns (r: Option<bool>)
      requires Valid()
      ensures r == if fault then None else Some(key in Permissions() && Permissions()[key])
    {
      if fault {
        return None;
      }
      GrantsShows(table);
      if !HasKey(table, key) {
        return Some(false);
      }
      var i :| i in table.rows && table.rows[i].key == key;
      return Some(table.rows[i].allow);
    }

    method GetRule(id: nat) returns (r: Option<Rule>)
      requires Valid()
      ensures r.Some? <==> id in table.rows
      ensures r.Some? ==> r.value.key in Permissions() && Permissions()[r.value.key] == r.value.allow
    {
      GrantsShows(table);
      return if id in table.rows then Some(table.rows[id]) else None;
    }
  }

  // ----- seeding -----

  ghost predicate DistinctKeys(rules: seq<Rule>) {
    forall i, j :: 0 <= i < j < |rules| ==> rules[i].key != rules[j].key
  }

  function Seeded(rules: seq<Rule>): map<Key, bool> {
    if rules == [] then map[]
    else Seeded(rules[..|rules| - 1])[rules[|rules| - 1].key := rules[|rules| - 1].allow]
  }

  lemma NothingSeeded()
    ensures Seeded([]) == map[] && DistinctKeys([])
  {
  }

  lemma {:induction false} SeededKeys(rules: seq<Rule>, key: Key)
    ensures key in Seeded(rules) <==> exists i :: 0 <= i < |rules| && rules[i].key == key
  {
    if rules != [] {
      var n := |rules| - 1;
      SeededKeys(rules[..n], key);
      assert forall i :: 0 <= i < n ==> rules[..n][i] == rules[i];
      if i :| 0 <= i < |rules| && rules[i].key == key {
        assert i < n ==> rules[..n][i].key == key;
      }
    }
  }

  lemma SeededMore(rules: seq<Rule>, r: Rule)
    requires DistinctKeys(rules)
    ensures Seeded(rules + [r]) == Seeded(rules)[r.key := r.allow]
    ensures DistinctKeys(rules + [r]) <==> r.key !in Seeded(rules)
  {
    var all := rules + [r];
    assert all[..|rules|] == rules;
    SeededKeys(rules, r.key);
    if i :| 0 <= i < |rules| && rules[i].key == r.key {
      assert all[i].key == all[|rules|].key;
    }
  }

  lemma PrefixDistinct(rules: seq<Rule>, n: nat)
    requires n <= |rules|
    ensures DistinctKeys(rules) ==> DistinctKeys(rules[..n])
  {
  }

  lemma EmptyMeansNoGrants(t: Table)
    requires TableOk(t)
    ensures t.rows == map[] <==> Grants(t) == map[]
  {
    GrantsShows(t);
    hide Grants, TableOk;
    if t.rows != map[] {
      var i :| i in t.rows;
      assert t.rows[i].key in Grants(t);
    }
  }
}
