/** internal/historian/store.go: batched inserts, range queries and retention over the
    tag_samples table. Times are nanoseconds since the epoch, as UnixNano gives them;
    values are the text that is stored. */
module HistorianStore {
  import opened Base

  datatype Sample = Sample(plc: string, tag: string, ts: int, value: string, quality: string)

  /** A row of tag_samples. The table is kept in the order of its AUTOINCREMENT ids. */
  datatype Row = Row(plc: string, tag: string, ts: int, value: string, quality: string)

  datatype Query = Query(plc: string, tag: string, from: int, to: int, limit: int)

  /** Where a transaction fails, if it does. */
  datatype Fault = NoFault | AtBegin | AtPrepare | AtRow(k: nat) | AtCommit

  datatype InsertResult = Inserted | WriterBusy | Failed

  function RowOf(s: Sample): Row {
    Row(s.plc, s.tag, s.ts, s.value, if s.quality == "" then "good" else s.quality)
  }

  function RowsOf(samples: seq<Sample>): (r: seq<Row>)
    ensures |r| == |samples|
    ensures forall i :: 0 <= i < |r| ==> r[i] == RowOf(samples[i])
  {
    seq(|samples|, i requires 0 <= i < |samples| => RowOf(samples[i]))
  }

  lemma RowsOfConcat(a: seq<Sample>, b: seq<Sample>)
    ensures RowsOf(a + b) == RowsOf(a) + RowsOf(b)
  {
  }

  /** Whether a transaction over n rows survives the fault. */
  predicate Commits(fault: Fault, n: nat) {
    match fault
    case NoFault => true
    case AtRow(k) => k >= n
    case _ => false
  }

  // ----- range queries -----

  predicate Matches(r: Row, q: Query) {
    r.plc == q.plc && r.tag == q.tag && q.from <= r.ts <= q.to
  }

  function Filter(rows: seq<Row>, q: Query): seq<Row> {
    if rows == [] then []
    else
      var n := |rows| - 1;
      Filter(rows[..n], q) + (if Matches(rows[n], q) then [rows[n]] else [])
  }

  /** Insert a row after every row that is not younger. */
  function InsertByTime(sorted: seq<Row>, r: Row): seq<Row> {
    if sorted == [] || sorted[|sorted| - 1].ts <= r.ts then sorted + [r]
    else InsertByTime(sorted[..|sorted| - 1], r) + [sorted[|sorted| - 1]]
  }

  /** ORDER BY ts_unix_nano ASC, rows of equal time in insertion order. */
  function SortByTime(rows: seq<Row>): seq<Row> {
    if rows == [] then [] else InsertByTime(SortByTime(rows[..|rows| - 1]), rows[|rows| - 1])
  }

  function Limit(q: Query): nat {
    if q.limit <= 0 then 1000 else q.limit
  }

  function Min(a: nat, b: nat): nat {
    if a <= b then a else b
  }

  function Answer(rows: seq<Row>, q: Query): seq<Row> {
    var sorted := SortByTime(Filter(rows, q));
    if |sorted| <= Limit(q) then sorted else sorted[..Limit(q)]
  }

  ghost predicate Ascending(rows: seq<Row>) {
    forall i, j :: 0 <= i < j < |rows| ==> rows[i].ts <= rows[j].ts
  }

  lemma {:induction false} InsertKeepsRows(sorted: seq<Row>, r: Row)
    ensures multiset(InsertByTime(sorted, r)) == multiset(sorted) + multiset{r}
  {
    if sorted != [] && sorted[|sorted| - 1].ts > r.ts {
      var n := |sorted| - 1;
      assert sorted == sorted[..n] + [sorted[n]];
      InsertKeepsRows(sorted[..n], r);
    }
  }

  /** A row of the result is the inserted one or one that was there. */
  lemma InsertedFrom(sorted: seq<Row>, r: Row, x: Row)
    requires x in InsertByTime(sorted, r)
    ensures x in sorted || x == r
  {
    InsertKeepsRows(sorted, r);
    assert x in multiset(InsertByTime(sorted, r));
    assert x in multiset(sorted) || x == r;
  }

  lemma {:induction false} InsertKeepsOrder(sorted: seq<Row>, r: Row)
    requires Ascending(sorted)
    ensures Ascending(InsertByTime(sorted, r))
  {
    if sorted != [] && sorted[|sorted| - 1].ts > r.ts {
      var n := |sorted| - 1;
      InsertKeepsOrder(sorted[..n], r);
      var front := InsertByTime(sorted[..n], r);
      forall i | 0 <= i < |front|
        ensures front[i].ts <= sorted[n].ts
      {
        InsertedFrom(sorted[..n], r, front[i]);
      }
    }
  }

  lemma {:induction false} SortSorts(rows: seq<Row>)
    ensures Ascending(SortByTime(rows)) && multiset(SortByTime(rows)) == multiset(rows)
  {
    if rows != [] {
      var n := |rows| - 1;
      assert rows == rows[..n] + [rows[n]];
      SortSorts(rows[..n]);
      InsertKeepsOrder(SortByTime(rows[..n]), rows[n]);
      InsertKeepsRows(SortByTime(rows[..n]), rows[n]);
    }
  }

  lemma {:induction false} FilterSelects(rows: seq<Row>, q: Query)
    ensures forall r :: multiset(Filter(rows, q))[r] == if Matches(r, q) then multiset(rows)[r] else 0
  {
    if rows != [] {
      var n := |rows| - 1;
      assert rows == rows[..n] + [rows[n]];
      FilterSelects(rows[..n], q);
    }
  }

  lemma FilteredMatches(rows: seq<Row>, q: Query, r: Row)
    requires r in multiset(Filter(rows, q))
    ensures r in rows && Matches(r, q)
  {
    FilterSelects(rows, q);
    assert r in multiset(rows);
  }

  /** The rows cut off by the limit are at least as young as the last one kept. */
  lemma CutIsYounger(sorted: seq<Row>, n: nat, r: Row)
    requires Ascending(sorted) && 0 < n <= |sorted| && r in multiset(sorted) - multiset(sorted[..n])
    ensures sorted[n - 1].ts <= r.ts
  {
    assert sorted == sorted[..n] + sorted[n..];
    assert r in multiset(sorted[n..]);
    var i :| 0 <= i < |sorted[n..]| && sorted[n..][i] == r;
    assert sorted[n + i] == r;
  }

  lemma AnswerIsPrefix(rows: seq<Row>, q: Query)
    ensures var all, a := Filter(rows, q), Answer(rows, q);
            var sorted := SortByTime(all);
            && Ascending(sorted) && multiset(sorted) == multiset(all) && |sorted| == |all|
            && |a| == Min(Limit(q), |all|) && |a| <= |sorted| && a == sorted[..|a|]
            && multiset(sorted) == multiset(a) + multiset(sorted[|a|..])
  {
    var all := Filter(rows, q);
    SortSorts(all);
    hide Filter, SortByTime, Ascending;
    var sorted := SortByTime(all);
    SameSize(sorted, all);
    CutSplits(sorted, Min(Limit(q), |sorted|));
  }

  lemma SameSize(a: seq<Row>, b: seq<Row>)
    requires multiset(a) == multiset(b)
    ensures |a| == |b|
  {
    assert |multiset(a)| == |a| && |multiset(b)| == |b|;
  }

  lemma CutSplits(s: seq<Row>, n: nat)
    requires n <= |s|
    ensures multiset(s) == multiset(s[..n]) + multiset(s[n..])
    ensures n == |s| ==> s[..n] == s
  {
    assert s == s[..n] + s[n..];
  }

  /** A query returns min(limit, matches) rows in ascending time; each matches and is
      returned no more often than it is stored, and every matching row that is left out
      is at least as young as the last row returned. */
  lemma AnswerIsOldestMatches(rows: seq<Row>, q: Query)
    ensures var a := Answer(rows, q);
            && |a| == Min(Limit(q), |Filter(rows, q)|)
            && Ascending(a)
            && multiset(a) <= multiset(Filter(rows, q))
            && (forall r :: r in a ==> r in rows && Matches(r, q))
            && (forall r :: r in multiset(Filter(rows, q)) - multiset(a) ==> a != [] && a[|a| - 1].ts <= r.ts)
  {
    AnswerIsPrefix(rows, q);
    hide Filter, SortByTime, Matches, Answer, Min, Limit;
    var all, a := Filter(rows, q), Answer(rows, q);
    var sorted := SortByTime(all);
    PrefixIsAscending(sorted, |a|);
    LeftOut(multiset(all), multiset(a), multiset(sorted[|a|..]));
    forall r | r in a
      ensures r in rows && Matches(r, q)
    {
      assert r in multiset(a);
      FilteredMatches(rows, q, r);
    }
    AnswerIsNotEmpty(rows, q);
    hide Ascending;
    forall r | r in multiset(all) - multiset(a)
      ensures a != [] && a[|a| - 1].ts <= r.ts
    {
      CutIsYounger(sorted, |a|, r);
    }
  }

  /** The same, row by row and in the terms of the query. */
  lemma AnswerIsComplete(rows: seq<Row>, q: Query)
    ensures var a, limit := Answer(rows, q), if q.limit <= 0 then 1000 else q.limit;
            && |a| <= limit && Ascending(a)
            && (forall r :: r in a ==> r in rows && r.plc == q.plc && r.tag == q.tag && q.from <= r.ts <= q.to)
            && (forall r :: r in rows && r.plc == q.plc && r.tag == q.tag && q.from <= r.ts <= q.to ==>
                  r in a || (|a| == limit && a[|a| - 1].ts <= r.ts))
  {
    AnswerIsOldestMatches(rows, q);
    FilterSelects(rows, q);
    hide Answer, Filter, Ascending;
    var all, a := Filter(rows, q), Answer(rows, q);
    forall r | r in rows && r.plc == q.plc && r.tag == q.tag && q.from <= r.ts <= q.to && r !in a
      ensures |a| == (if q.limit <= 0 then 1000 else q.limit) && a[|a| - 1].ts <= r.ts
    {
      assert r in multiset(rows) && multiset(all)[r] > 0 && multiset(a)[r] == 0;
      assert r in multiset(all) - multiset(a);
      if |a| == |all| {
        SameSizeSame(multiset(a), multiset(all));
      }
    }
  }

  lemma SameSizeSame(a: multiset<Row>, b: multiset<Row>)
    requires a <= b && |a| == |b|
    ensures a == b
  {
    assert b == a + (b - a) && |b - a| == 0;
  }

  lemma PrefixIsAscending(sorted: seq<Row>, n: nat)
    requires Ascending(sorted) && n <= |sorted|
    ensures Ascending(sorted[..n])
  {
  }

  lemma LeftOut(all: multiset<Row>, a: multiset<Row>, rest: multiset<Row>)
    requires all == a + rest
    ensures a <= all && all - a == rest
  {
  }

  /** Only a query that nothing matches has an empty answer. */
  lemma AnswerIsNotEmpty(rows: seq<Row>, q: Query)
    ensures Answer(rows, q) == [] ==> Filter(rows, q) == []
  {
    AnswerIsPrefix(rows, q);
    hide Filter, SortByTime, Matches, Answer;
  }

  // ----- retention -----

  const TWO63: int := 0x8000_0000_0000_0000
  const TWO64: int := 0x1_0000_0000_0000_0000

  /** The int64 a Go expression holds when its exact value is x. */
  function Wrap64(x: int): int {
    (x + TWO63) % TWO64 - TWO63
  }

  /** Nanoseconds in n days. */
  function Days(n: int): int {
    n * 86_400_000_000_000
  }

  /** -time.Duration(days) * 24 * time.Hour, then the UnixNano of now plus that. */
  function Cutoff(now: int, days: int): int {
    Wrap64(now + Wrap64(Wrap64(-days * 24) * 3_600_000_000_000))
  }

  lemma WrapIsCongruent(x: int) returns (k: int)
    ensures Wrap64(x) == x + 0x1_0000_0000_0000_0000 * k && -TWO63 <= Wrap64(x) < TWO63
    ensures -TWO63 <= x < TWO63 ==> Wrap64(x) == x
  {
    k := -((x + TWO63) / TWO64);
  }

  lemma CongruentWrapsAlike(x: int, y: int, k: int)
    requires x == y + 0x1_0000_0000_0000_0000 * k
    ensures Wrap64(x) == Wrap64(y)
  {
    var a := WrapIsCongruent(x);
    var b := WrapIsCongruent(y);
    assert Wrap64(x) - Wrap64(y) == 0x1_0000_0000_0000_0000 * (a - b + k);
  }

  /** The wrap-arounds along the way cancel: only the last one counts. */
  lemma CutoffIsOneWrap(now: int, days: int)
    ensures Cutoff(now, days) == Wrap64(now - Days(days))
  {
    hide Wrap64;
    var a := Wrap64(-days * 24);
    var i := WrapIsCongruent(-days * 24);
    var j := WrapIsCongruent(a * 3_600_000_000_000);
    assert a * 3_600_000_000_000 == -Days(days) + 0x1_0000_0000_0000_0000 * (i * 3_600_000_000_000);
    CongruentWrapsAlike(now + Wrap64(a * 3_600_000_000_000), now - Days(days), i * 3_600_000_000_000 + j);
  }

  /** The cutoff is the intended instant exactly when that instant is an int64; in
      particular for every configuration of up to 106751 days and every now after 1970. */
  lemma CutoffExactness(now: int, days: int)
    requires -TWO63 <= now < TWO63 && 0 < days < TWO63
    ensures Cutoff(now, days) == now - Days(days) <==> now - Days(days) >= -TWO63
    ensures 0 <= now && days <= 106751 ==> Cutoff(now, days) == now - Days(days) < now
  {
    CutoffIsOneWrap(now, days);
    var k := WrapIsCongruent(now - Days(days));
  }

  function Retain(rows: seq<Row>, cutoff: int): seq<Row> {
    if rows == [] then []
    else
      var n := |rows| - 1;
      Retain(rows[..n], cutoff) + (if rows[n].ts < cutoff then [] else [rows[n]])
  }

  /** Retention keeps exactly the rows at or after the cutoff, in their order. */
  lemma {:induction false} RetainKeepsYoung(rows: seq<Row>, cutoff: int)
    ensures forall r :: multiset(Retain(rows, cutoff))[r] == if r.ts >= cutoff then multiset(rows)[r] else 0
  {
    if rows != [] {
      var n := |rows| - 1;
      assert rows == rows[..n] + [rows[n]];
      RetainKeepsYoung(rows[..n], cutoff);
    }
  }

  /** Two passes are one pass with the later cutoff: idempotent and monotone in now. */
  lemma {:induction false} RetainTwice(rows: seq<Row>, c1: int, c2: int)
    ensures Retain(Retain(rows, c1), c2) == Retain(rows, if c1 <= c2 then c2 else c1)
  {
    if rows != [] {
      var n := |rows| - 1;
      RetainTwice(rows[..n], c1, c2);
      var kept := Retain(rows[..n], c1);
      assert (kept + [rows[n]])[..|kept|] == kept;
      assert kept + [] == kept;
    }
  }

  lemma {:induction false} FilterRetained(rows: seq<Row>, cutoff: int, q: Query)
    requires cutoff <= q.from
    ensures Filter(Retain(rows, cutoff), q) == Filter(rows, q)
  {
    if rows != [] {
      var n := |rows| - 1;
      FilterRetained(rows[..n], cutoff, q);
      var kept := Retain(rows[..n], cutoff);
      assert (kept + [rows[n]])[..|kept|] == kept;
      assert kept + [] == kept && Filter(rows[..n], q) + [] == Filter(rows[..n], q);
    }
  }

  /** A query whose range starts at or after the cutoff does not notice retention. */
  lemma RetentionKeepsAnswers(rows: seq<Row>, cutoff: int, q: Query)
    requires cutoff <= q.from
    ensures Answer(Retain(rows, cutoff), q) == Answer(rows, q)
  {
    FilterRetained(rows, cutoff, q);
  }

  // ----- the class -----

  class Store {
    const retentionDays: int
    var rows: seq<Row>
    var writerBusy: bool

    constructor (retentionDays: int)
      ensures this.retentionDays == retentionDays && rows == [] && !writerBusy
    {
      this.retentionDays := retentionDays;
      rows, writerBusy := [], false;
    }

    /** InsertBatch: all samples in order in one transaction, or nothing. `fault` is where
        the database fails. */
    method InsertBatch(samples: seq<Sample>, fault: Fault) returns (r: InsertResult)
      modifies this
      ensures samples == [] ==> r == Inserted && rows == old(rows)
      ensures samples != [] && old(writerBusy) ==> r == WriterBusy && rows == old(rows)
      ensures samples != [] && !old(writerBusy) ==>
                if Commits(fault, |samples|) then r == Inserted && rows == old(rows) + RowsOf(samples)
                else r == Failed && rows == old(rows)
      ensures r == Inserted ==>
                && |rows| == |old(rows)| + |samples| && old(rows) <= rows
                && forall i :: 0 <= i < |samples| ==>
                     var row := rows[|old(rows)| + i];
                     && row.plc == samples[i].plc && row.tag == samples[i].tag && row.ts == samples[i].ts
                     && row.value == samples[i].value
                     && row.quality == if samples[i].quality == "" then "good" else samples[i].quality
      ensures writerBusy == old(writerBusy)
    {
      if samples == [] {
        return Inserted;
      }
      if writerBusy {
        return WriterBusy;
      }
      writerBusy := true;
      if fault.AtBegin? || fault.AtPrepare? {
        writerBusy := false;
        return Failed;
      }
      var tx := rows;
      var i := 0;
      while i < |samples|
        invariant 0 <= i <= |samples|
        invariant tx == old(rows) + RowsOf(samples[..i])
        invariant fault.AtRow? ==> fault.k >= i
        invariant rows == old(rows) && writerBusy
      {
        if fault == AtRow(i) {
          writerBusy := false;
          return Failed;
        }
        assert samples[..i + 1] == samples[..i] + [samples[i]];
        RowsOfConcat(samples[..i], [samples[i]]);
        tx := tx + [RowOf(samples[i])];
        i := i + 1;
      }
      assert samples[..|samples|] == samples;
      writerBusy := false;
      if fault.AtCommit? {
        return Failed;
      }
      rows := tx;
      return Inserted;
    }

    /** The SELECT: matching rows by ascending time, cut at the limit. */
    method Select(q: Query) returns (result: seq<Row>)
      ensures result == Answer(rows, q)
    {
      var sorted: seq<Row> := [];
      for i := 0 to |rows|
        invariant sorted == SortByTime(Filter(rows[..i], q))
      {
        assert rows[..i + 1][..i] == rows[..i];
        if Matches(rows[i], q) {
          var f := Filter(rows[..i], q);
          assert (f + [rows[i]])[..|f|] == f;
          sorted := InsertByTime(sorted, rows[i]);
        } else {
          assert Filter(rows[..i], q) + [] == Filter(rows[..i], q);
        }
      }
      assert rows[..|rows|] == rows;
      result := if |sorted| <= Limit(q) then sorted else sorted[..Limit(q)];
    }

    /** Query: scans the selected rows into samples, in order: stored rows of this PLC and
        tag from `from` to `to`, both included, by ascending time, at most `limit` (1000 if
        that is not positive); what is left out is there only when the limit is reached,
        and is at least as young as the last sample. */
    method RunQuery(q: Query) returns (samples: seq<Sample>)
      ensures |samples| == |Answer(rows, q)|
      ensures forall i :: 0 <= i < |samples| ==> var r := Answer(rows, q)[i];
                samples[i] == Sample(r.plc, r.tag, r.ts, r.value, r.quality)
      ensures forall i :: 0 <= i < |samples| ==>
                var x := samples[i];
                && x.plc == q.plc && x.tag == q.tag && q.from <= x.ts <= q.to
                && Row(x.plc, x.tag, x.ts, x.value, x.quality) in rows
      ensures forall i, j :: 0 <= i < j < |samples| ==> samples[i].ts <= samples[j].ts
      ensures |samples| <= if q.limit <= 0 then 1000 else q.limit
      ensures forall r :: r in rows && r.plc == q.plc && r.tag == q.tag && q.from <= r.ts <= q.to ==>
                || Sample(r.plc, r.tag, r.ts, r.value, r.quality) in samples
                || (|samples| == (if q.limit <= 0 then 1000 else q.limit) && samples[|samples| - 1].ts <= r.ts)
    {
      var selected := Select(q);
      samples := [];
      for i := 0 to |selected|
        invariant |samples| == i
        invariant forall j :: 0 <= j < i ==>
                    samples[j] == Sample(selected[j].plc, selected[j].tag, selected[j].ts, selected[j].value, selected[j].quality)
      {
        var r := selected[i];
        samples := samples + [Sample(r.plc, r.tag, r.ts, r.value, r.quality)];
      }
      AnswerIsComplete(rows, q);
      hide Answer;
      forall r | r in rows && r.plc == q.plc && r.tag == q.tag && q.from <= r.ts <= q.to && r in selected
        ensures Sample(r.plc, r.tag, r.ts, r.value, r.quality) in samples
      {
        var i :| 0 <= i < |selected| && selected[i] == r;
        assert samples[i] == Sample(r.plc, r.tag, r.ts, r.value, r.quality);
      }
    }

    /** EnforceRetention; a failed DELETE changes nothing. */
    method EnforceRetention(now: int, dbFails: bool) returns (ok: bool)
      modifies this
      ensures writerBusy == old(writerBusy)
      ensures retentionDays <= 0 || dbFails ==> rows == old(rows)
      ensures retentionDays > 0 && !dbFails ==> rows == Retain(old(rows), Cutoff(now, retentionDays))
      ensures ok <==> retentionDays <= 0 || !dbFails
    {
      if retentionDays <= 0 {
        return true;
      }
      if dbFails {
        return false;
      }
      var cutoff := Cutoff(now, retentionDays);
      var kept: seq<Row> := [];
      for i := 0 to |rows|
        invariant kept == Retain(rows[..i], cutoff)
      {
        assert rows[..i + 1][..i] == rows[..i];
        if rows[i].ts >= cutoff {
          kept := kept + [rows[i]];
        } else {
          assert kept + [] == kept;
        }
      }
      assert rows[..|rows|] == rows;
      rows := kept;
      return true;
    }
  }
}
