/** internal/config/loader.go: from the suffix of an LGB_ environment variable to a
    configuration key. */
module EnvLookup {
  import opened Base

  // ----- envLookup -----

  /** s[:i] + s[i+1:] */
  function Cut(s: string, i: nat): string
    requires i < |s|
  {
    s[..i] + s[i + 1..]
  }

  predicate IsBar(s: string, i: nat) {
    i < |s| && s[i] == '_'
  }

  /** The names the inner loop tries from index j on. */
  function InnerTries(s: string, j: nat): seq<string>
    decreases |s| - j
  {
    if j >= |s| then []
    else (if s[j] == '_' then [Cut(s, j)] else []) + InnerTries(s, j + 1)
  }

  /** The names the outer loop tries from index i on. */
  function OuterTries(s: string, i: nat): seq<string>
    decreases |s| - i
  {
    if i >= |s| then []
    else (if s[i] == '_' then [Cut(s, i)] + InnerTries(Cut(s, i), i + 1) else []) + OuterTries(s, i + 1)
  }

  /** All names envLookup tries, in its order. */
  function Tries(s: string): seq<string> {
    [s] + OuterTries(s, 0)
  }

  /** The entry of the first name that is a key, or "". */
  function FirstMatch(keys: map<string, string>, tries: seq<string>): string {
    if tries == [] then ""
    else if tries[0] in keys then keys[tries[0]]
    else FirstMatch(keys, tries[1..])
  }

  predicate NoneIn(keys: map<string, string>, tries: seq<string>) {
    forall i :: 0 <= i < |tries| ==> tries[i] !in keys
  }

  lemma FirstHit(keys: map<string, string>, name: string, rest: seq<string>)
    ensures name in keys ==> FirstMatch(keys, [name] + rest) == keys[name]
    ensures name !in keys ==> FirstMatch(keys, [name] + rest) == FirstMatch(keys, rest)
  {
    assert ([name] + rest)[1..] == rest;
  }

  /** What index i adds to the names tried. */
  lemma OuterStep(s: string, i: nat)
    requires i < |s|
    ensures s[i] == '_' ==>
              OuterTries(s, i) == [Cut(s, i)] + (InnerTries(Cut(s, i), i + 1) + OuterTries(s, i + 1))
    ensures s[i] != '_' ==> OuterTries(s, i) == OuterTries(s, i + 1)
  {
    hide Cut;
  }

  lemma InnerStep(s: string, j: nat, later: seq<string>)
    requires j < |s|
    ensures s[j] == '_' ==> InnerTries(s, j) + later == [Cut(s, j)] + (InnerTries(s, j + 1) + later)
    ensures s[j] != '_' ==> InnerTries(s, j) + later == InnerTries(s, j + 1) + later
  {
    hide Cut;
  }

  lemma InnerEnd(s: string, j: nat, later: seq<string>)
    requires j >= |s|
    ensures InnerTries(s, j) + later == later
  {
  }

  /** envLookup, with its nested loops and early returns. */
  method Lookup(keys: map<string, string>, suffix: string) returns (r: string)
    ensures r == FirstMatch(keys, Tries(suffix))
  {
    FirstHit(keys, suffix, OuterTries(suffix, 0));
    if suffix in keys {
      return keys[suffix];
    }
    assert FirstMatch(keys, OuterTries(suffix, |suffix|)) == "";
    hide Cut, OuterTries, InnerTries, FirstMatch;
    var i := 0;
    while i < |suffix|
      invariant i <= |suffix|
      invariant FirstMatch(keys, Tries(suffix)) == FirstMatch(keys, OuterTries(suffix, i))
    {
      OuterStep(suffix, i);
      if suffix[i] == '_' {
        var candidate := Cut(suffix, i);
        ghost var later := OuterTries(suffix, i + 1);
        FirstHit(keys, candidate, InnerTries(candidate, i + 1) + later);
        if candidate in keys {
          return keys[candidate];
        }
        var j := i + 1;
        while j < |candidate|
          invariant i + 1 <= j
          invariant FirstMatch(keys, Tries(suffix)) == FirstMatch(keys, InnerTries(candidate, j) + later)
          decreases |candidate| - j
        {
          InnerStep(candidate, j, later);
          if candidate[j] == '_' {
            var shorter := Cut(candidate, j);
            FirstHit(keys, shorter, InnerTries(candidate, j + 1) + later);
            if shorter in keys {
              return keys[shorter];
            }
          }
          j := j + 1;
        }
        InnerEnd(candidate, j, later);
      }
      i := i + 1;
    }
    return "";
  }

  // ----- which names are tried -----

  /** name is s without the underscore at i. */
  ghost predicate OneCut(s: string, name: string, i: nat) {
    IsBar(s, i) && name == s[..i] + s[i + 1..]
  }

  /** name is s without the underscores at i and k. */
  ghost predicate TwoCuts(s: string, name: string, i: nat, k: nat) {
    IsBar(s, i) && IsBar(s, k) && i < k && name == s[..i] + s[i + 1..k] + s[k + 1..]
  }

  lemma {:induction false} InnerTriesAre(s: string, j: nat, name: string)
    ensures name in InnerTries(s, j) <==> exists p :: j <= p < |s| && OneCut(s, name, p)
    decreases |s| - j
  {
    if j < |s| {
      InnerTriesAre(s, j + 1, name);
      if s[j] == '_' && name == Cut(s, j) {
        assert OneCut(s, name, j);
        assert InnerTries(s, j)[0] == name;
      }
      if p :| j <= p < |s| && OneCut(s, name, p) {
        if p > j {
          assert name in InnerTries(s, j + 1);
        }
      }
    }
  }

  /** Cutting s at i and the result at p is cutting s at i and p + 1. */
  lemma CutTwice(s: string, i: nat, p: nat, name: string)
    requires IsBar(s, i) && i + 1 <= p
    ensures OneCut(Cut(s, i), name, p) <==> TwoCuts(s, name, i, p + 1)
  {
    var c := Cut(s, i);
    if p < |c| {
      assert c[p] == s[p + 1];
      assert c[..p] == s[..i] + s[i + 1..p + 1];
      assert c[p + 1..] == s[p + 2..];
    }
  }

  /** From index i on: one cut, or two cuts that are not neighbours. */
  ghost predicate CutFrom(s: string, name: string, i: nat) {
    || (exists p :: i <= p < |s| && OneCut(s, name, p))
    || (exists p, k :: i <= p < |s| && p + 2 <= k < |s| && TwoCuts(s, name, p, k))
  }

  lemma InnerCuts(s: string, i: nat, name: string)
    requires IsBar(s, i)
    ensures name in InnerTries(Cut(s, i), i + 1) <==> exists k :: i + 2 <= k < |s| && TwoCuts(s, name, i, k)
  {
    var c := Cut(s, i);
    InnerTriesAre(c, i + 1, name);
    if p :| i + 1 <= p < |c| && OneCut(c, name, p) {
      CutTwice(s, i, p, name);
      assert i + 2 <= p + 1 < |s|;
    }
    if k :| i + 2 <= k < |s| && TwoCuts(s, name, i, k) {
      CutTwice(s, i, k - 1, name);
      assert i + 1 <= k - 1 < |c|;
    }
  }

  lemma {:induction false} OuterTriesAre(s: string, i: nat, name: string)
    ensures name in OuterTries(s, i) <==> CutFrom(s, name, i)
    decreases |s| - i
  {
    if i < |s| {
      OuterTriesAre(s, i + 1, name);
      hide OneCut, TwoCuts;
      StepCut(s, name, i);
      if s[i] == '_' {
        InnerCuts(s, i, name);
        CutIsOne(s, name, i);
      } else {
        NoBarNoCut(s, name, i);
      }
    }
  }

  lemma StepCut(s: string, name: string, i: nat)
    requires i < |s|
    ensures CutFrom(s, name, i) <==>
            || CutFrom(s, name, i + 1) || OneCut(s, name, i)
            || exists k :: i + 2 <= k < |s| && TwoCuts(s, name, i, k)
  {
    hide OneCut, TwoCuts;
  }

  lemma CutIsOne(s: string, name: string, i: nat)
    requires IsBar(s, i)
    ensures OneCut(s, name, i) <==> name == Cut(s, i)
  {
  }

  lemma NoBarNoCut(s: string, name: string, i: nat)
    requires !IsBar(s, i)
    ensures !OneCut(s, name, i) && forall k :: !TwoCuts(s, name, i, k)
  {
  }

  // ----- soundness and completeness -----

  lemma {:induction false} FirstMatchSound(keys: map<string, string>, tries: seq<string>)
    ensures NoneIn(keys, tries) ==> FirstMatch(keys, tries) == ""
    ensures !NoneIn(keys, tries) ==>
              exists i :: && 0 <= i < |tries| && tries[i] in keys && NoneIn(keys, tries[..i])
                          && FirstMatch(keys, tries) == keys[tries[i]]
    decreases |tries|
  {
    if tries != [] {
      if tries[0] in keys {
        assert NoneIn(keys, tries[..0]);
      } else {
        FirstMatchSound(keys, tries[1..]);
        if !NoneIn(keys, tries) {
          assert !NoneIn(keys, tries[1..]) by {
            var i :| 0 <= i < |tries| && tries[i] in keys;
            assert tries[1..][i - 1] == tries[i];
          }
          var i :| 0 <= i < |tries[1..]| && tries[1..][i] in keys && NoneIn(keys, tries[1..][..i])
                   && FirstMatch(keys, tries[1..]) == keys[tries[1..][i]];
          assert tries[..i + 1] == [tries[0]] + tries[1..][..i];
          assert tries[i + 1] == tries[1..][i];
        }
      }
    }
  }

  /** A key that the suffix leads to: itself, or with one underscore deleted, or with two
      that are not neighbours. */
  ghost predicate Reaches(suffix: string, name: string) {
    name == suffix || CutFrom(suffix, name, 0)
  }

  lemma TriesAre(suffix: string, name: string)
    ensures name in Tries(suffix) <==> Reaches(suffix, name)
  {
    OuterTriesAre(suffix, 0, name);
    hide CutFrom, OuterTries;
    var t := OuterTries(suffix, 0);
    assert ([suffix] + t)[0] == suffix;
    if name in t {
      var i :| 0 <= i < |t| && t[i] == name;
      assert ([suffix] + t)[i + 1] == name;
    }
  }

  /** envLookup is sound and exactly complete: its result is the entry of a key that the
      suffix leads to; it is empty if and only if there is no such key; and an exact key
      wins. (The key map maps to the dotted keys, see Indexes, and none of these is empty,
      see PathsAreNotEmpty.) */
  lemma LookupExactness(keys: map<string, string>, suffix: string)
    requires forall k :: k in keys ==> keys[k] != ""
    ensures var r := FirstMatch(keys, Tries(suffix));
            && (r != "" ==> exists k :: k in keys && Reaches(suffix, k) && r == keys[k])
            && (r == "" <==> forall k :: k in keys ==> !Reaches(suffix, k))
            && (suffix in keys ==> r == keys[suffix])
  {
    var tries := Tries(suffix);
    FirstMatchSound(keys, tries);
    hide Tries, FirstMatch, Reaches;
    if NoneIn(keys, tries) {
      forall k | k in keys
        ensures !Reaches(suffix, k)
      {
        TriesAre(suffix, k);
      }
    } else {
      var i :| 0 <= i < |tries| && tries[i] in keys && FirstMatch(keys, tries) == keys[tries[i]];
      TriesAre(suffix, tries[i]);
    }
    if suffix in keys {
      ExactWins(keys, suffix);
    }
  }

  /** Two neighbouring underscores are never deleted together, so A__B does not lead to
      the key AB. */
  lemma NeighboursStay()
    ensures FirstMatch(map["AB" := "ab"], Tries("A__B")) == ""
  {
    var s := "A__B";
    assert s[0] == 'A' && s[1] == '_' && s[2] == '_' && s[3] == 'B';
    assert !CutFrom(s, "AB", 0);
    TriesAre(s, "AB");
    FirstMatchSound(map["AB" := "ab"], Tries(s));
  }

  lemma ExactWins(keys: map<string, string>, suffix: string)
    requires suffix in keys
    ensures FirstMatch(keys, Tries(suffix)) == keys[suffix]
  {
  }

  // ----- buildEnvKeyMap -----

  /** A struct field: its koanf tag, and its own fields when its type is a struct. */
  datatype Field = Field(tag: string, sub: seq<Field>)

  predicate Named(f: Field) {
    f.tag != "" && f.tag != "-"
  }

  function FullKey(f: Field, prefix: string): string {
    if prefix == "" then f.tag else prefix + "." + f.tag
  }

  function Upper(c: char): char {
    if 'a' <= c <= 'z' then c - 'a' + 'A' else c
  }

  /** strings.ToUpper(strings.ReplaceAll(key, ".", "_")), on ASCII keys. */
  function EnvName(key: string): string {
    seq(|key|, i requires 0 <= i < |key| => if key[i] == '.' then '_' else Upper(key[i]))
  }

  /** The dotted keys of a struct type. */
  function Paths(fields: seq<Field>, prefix: string): set<string>
    decreases fields
  {
    if fields == [] then {}
    else
      var n := |fields| - 1;
      var f := fields[n];
      Paths(fields[..n], prefix)
      + (if Named(f) then {FullKey(f, prefix)} + Paths(f.sub, FullKey(f, prefix)) else {})
  }

  /** The name of a key has its length, with each dot as an underscore, each small letter
      as its capital, and every other character as it is. */
  lemma NameByCharacter(key: string, i: nat)
    requires i < |key|
    ensures |EnvName(key)| == |key|
    ensures key[i] == '.' ==> EnvName(key)[i] == '_'
    ensures 'a' <= key[i] <= 'z' ==> EnvName(key)[i] as int == key[i] as int - 32 && 'A' <= EnvName(key)[i] <= 'Z'
    ensures key[i] != '.' && !('a' <= key[i] <= 'z') ==> EnvName(key)[i] == key[i]
  {
  }

  /** The key of a field within the struct of the given key: the field's tag, after the
      struct's key and a dot if that has one. */
  predicate KeyWithin(key: string, prefix: string, tag: string) {
    if prefix == "" then key == tag else key == prefix + "." + tag
  }

  /** The keys of a struct are those of its tagged fields and, with these as prefixes, the
      keys of their own structs, at any depth. */
  lemma {:induction false} PathsAreFieldKeys(fields: seq<Field>, prefix: string, p: string)
    ensures p in Paths(fields, prefix) <==>
            exists i, key: string ::
              && 0 <= i < |fields| && fields[i].tag != "" && fields[i].tag != "-"
              && KeyWithin(key, prefix, fields[i].tag) && (p == key || p in Paths(fields[i].sub, key))
    decreases |fields|
  {
    if fields != [] {
      var n := |fields| - 1;
      PathsAreFieldKeys(fields[..n], prefix, p);
      if p in Paths(fields, prefix) && p !in Paths(fields[..n], prefix) {
        assert KeyWithin(FullKey(fields[n], prefix), prefix, fields[n].tag);
      }
      if i, key: string :|
           && 0 <= i < |fields| && fields[i].tag != "" && fields[i].tag != "-"
           && KeyWithin(key, prefix, fields[i].tag) && (p == key || p in Paths(fields[i].sub, key)) {
        assert key == FullKey(fields[i], prefix);
        if i < n {
          assert fields[..n][i] == fields[i];
        }
      }
    }
  }

  /** m maps the name of every path to a path of that name, and maps nothing else. */
  ghost predicate Indexes(m: map<string, string>, paths: set<string>) {
    && (forall k :: k in m ==> m[k] in paths && k == EnvName(m[k]))
    && (forall p :: p in paths ==> EnvName(p) in m)
  }

  lemma IndexesBoth(m: map<string, string>, a: set<string>, n: map<string, string>, b: set<string>)
    requires Indexes(m, a) && Indexes(n, b)
    ensures Indexes(m + n, a + b)
  {
    hide EnvName;
  }

  lemma IndexesOne(m: map<string, string>, a: set<string>, key: string)
    requires Indexes(m, a)
    ensures Indexes(m[EnvName(key) := key], a + {key})
  {
    hide EnvName;
  }

  lemma PathsOneMore(fields: seq<Field>, prefix: string, i: nat)
    requires i < |fields|
    ensures Paths(fields[..i + 1], prefix) ==
            if Named(fields[i]) then
              Paths(fields[..i], prefix) + {FullKey(fields[i], prefix)} + Paths(fields[i].sub, FullKey(fields[i], prefix))
            else Paths(fields[..i], prefix)
  {
    assert fields[..i + 1][..i] == fields[..i];
  }

  /** buildEnvKeyMap: a key map for exactly the tagged fields, at any depth. */
  method BuildEnvKeyMap(fields: seq<Field>, prefix: string) returns (m: map<string, string>)
    ensures Indexes(m, Paths(fields, prefix))
    decreases fields
  {
    m := map[];
    assert Indexes(m, {}) && Paths([], prefix) == {};
    hide EnvName, Indexes, Paths, FullKey, Named;
    for i := 0 to |fields|
      invariant Indexes(m, Paths(fields[..i], prefix))
    {
      var f := fields[i];
      PathsOneMore(fields, prefix, i);
      if Named(f) {
        var key := FullKey(f, prefix);
        IndexesOne(m, Paths(fields[..i], prefix), key);
        m := m[EnvName(key) := key];
        var inner := BuildEnvKeyMap(f.sub, key);
        IndexesBoth(m, Paths(fields[..i], prefix) + {key}, inner, Paths(f.sub, key));
        m := m + inner;
      }
    }
    assert fields[..|fields|] == fields;
  }

  lemma {:induction false} PathsAreNotEmpty(fields: seq<Field>, prefix: string)
    ensures "" !in Paths(fields, prefix)
    decreases fields
  {
    if fields != [] {
      var n := |fields| - 1;
      PathsAreNotEmpty(fields[..n], prefix);
      if Named(fields[n]) {
        PathsAreNotEmpty(fields[n].sub, FullKey(fields[n], prefix));
      }
    }
  }

  /** Every configuration key can be set by its own variable, with or without one extra
      underscore: a lookup of its name finds it, unless another key has the same name; and
      a lookup of its name with one underscore inserted finds some key that the longer
      name leads to. */
  lemma EveryKeyIsReachable(fields: seq<Field>, m: map<string, string>, p: string, at: nat)
    requires Indexes(m, Paths(fields, "")) && p in Paths(fields, "") && at <= |p|
    ensures EnvName(FirstMatch(m, Tries(EnvName(p)))) == EnvName(p)
    ensures (forall q :: q in Paths(fields, "") && EnvName(q) == EnvName(p) ==> q == p) ==>
              FirstMatch(m, Tries(EnvName(p))) == p
    ensures var longer := EnvName(p)[..at] + "_" + EnvName(p)[at..];
            var r := FirstMatch(m, Tries(longer));
            r in Paths(fields, "") && Reaches(longer, EnvName(r))
  {
    PathsAreNotEmpty(fields, "");
    var name := EnvName(p);
    assert |name| == |p|;
    ExactWins(m, name);
    var longer := name[..at] + "_" + name[at..];
    assert OneCut(longer, name, at) by {
      assert longer[..at] == name[..at] && longer[at + 1..] == name[at..];
    }
    assert Reaches(longer, name);
    hide EnvName, FirstMatch, Tries, Reaches;
    LookupExactness(m, longer);
  }
}
