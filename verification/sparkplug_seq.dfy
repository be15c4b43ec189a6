/** internal/sparkplug/seq.go: the Sparkplug B message sequence numbers, allocated from
    one uint64 counter that every publisher of the edge node shares. */
module SparkplugSeq {
  import opened Scalars

  const WORD := 0x1_0000_0000_0000_0000

  /** One use of the tracker; `who` names the user. */
  datatype Op<T> = Reset(who: T) | Next(who: T, number: nat)

  class SeqTracker {
    var counter: UInt64

    constructor ()
      ensures counter == 0
    {
      counter := 0;
    }

    /** The counter wraps at 2^64. */
    method Next() returns (v: UInt64)
      modifies this
      ensures v == NumberFor(old(counter)) && counter == Advance(old(counter))
    {
      counter := Advance(counter);
      v := (if counter == 0 then WORD - 1 else counter - 1) % 256;
    }

    method Reset()
      modifies this
      ensures counter == 0
    {
      counter := 0;
    }
  }

  function NumberFor(c: UInt64): UInt64 {
    c % 256
  }

  function Advance(c: UInt64): UInt64 {
    (c + 1) % WORD
  }

  /** How often Next ran since the last Reset, or since the start. */
  function SinceReset<T>(ops: seq<Op<T>>): nat {
    if ops == [] || ops[|ops| - 1].Reset? then 0 else SinceReset(ops[..|ops| - 1]) + 1
  }

  /** The uses of one tracker, in the order in which they took effect: each Next got the
      number the counter held, and c is the counter after them. */
  ghost predicate Tracked<T>(ops: seq<Op<T>>, c: UInt64) {
    if ops == [] then c == 0
    else
      var n := |ops| - 1;
      match ops[n]
      case Reset(_) => c == 0 && exists before: UInt64 :: Tracked(ops[..n], before)
      case Next(_, number) =>
        exists before: UInt64 ::
          Tracked(ops[..n], before) && number == NumberFor(before) && c == Advance(before)
  }

  lemma {:induction false} CounterIsCount<T>(ops: seq<Op<T>>, c: UInt64)
    requires Tracked(ops, c)
    ensures c == SinceReset(ops) % WORD
  {
    hide Advance, NumberFor;
    if ops != [] && ops[|ops| - 1].Next? {
      var n := |ops| - 1;
      var before: UInt64 :| Tracked(ops[..n], before) && c == Advance(before);
      CounterIsCount(ops[..n], before);
      var k := SinceReset(ops[..n]);
      WrapLater(k);
      assert SinceReset(ops) == k + 1;
    }
  }

  lemma WrapLater(k: nat)
    ensures Advance(k % WORD) == (k + 1) % WORD
  {
    var q, r := k / WORD, k % WORD;
    assert k == WORD * q + r;
    if r + 1 == WORD {
      assert k + 1 == WORD * (q + 1);
    } else {
      assert k + 1 == WORD * q + (r + 1);
    }
  }

  /** However the callers interleave, the k-th number after a Reset is (k - 1) mod 256,
      also when the 64-bit counter has wrapped: 256 divides 2^64. */
  lemma {:induction false} NumbersCountFromReset<T>(ops: seq<Op<T>>, c: UInt64, i: nat)
    requires Tracked(ops, c) && i < |ops| && ops[i].Next?
    ensures ops[i].number == SinceReset(ops[..i]) % 256
    decreases |ops|
  {
    var n := |ops| - 1;
    if i < n {
      var before: UInt64 :| Tracked(ops[..n], before);
      NumbersCountFromReset(ops[..n], before, i);
      assert ops[..n][..i] == ops[..i];
    } else {
      var before: UInt64 :| Tracked(ops[..n], before) && ops[n].number == NumberFor(before);
      CounterIsCount(ops[..n], before);
      Divides(SinceReset(ops[..n]));
    }
  }

  lemma Divides(k: nat)
    ensures k % WORD % 256 == k % 256
  {
    var q, r := k / WORD, k % WORD;
    assert k == WORD * q + r;
    var s, t := r / 256, r % 256;
    assert r == 256 * s + t;
    Remainder(k, 0x0100_0000_0000_0000 * q + s, t);
  }

  lemma Remainder(k: int, d: int, t: int)
    requires k == 256 * d + t && 0 <= t < 256
    ensures k % 256 == t
  {
  }

  ghost predicate NoReset<T>(ops: seq<Op<T>>) {
    forall op :: op in ops ==> op.Next?
  }

  lemma {:induction false} CountFrom<T>(ops: seq<Op<T>>, i: nat, j: nat)
    requires i < j <= |ops| && ops[i].Reset? && NoReset(ops[i + 1..j])
    ensures SinceReset(ops[..j]) == j - i - 1
    decreases j
  {
    if j == i + 1 {
      assert ops[..j][|ops[..j]| - 1] == ops[i];
    } else {
      var m := j - 1;
      assert ops[i + 1..j][m - i - 1] == ops[m] && ops[m] in ops[i + 1..j];
      assert ops[..j][..m] == ops[..m];
      forall op | op in ops[i + 1..m]
        ensures op.Next?
      {
        var k :| 0 <= k < m - i - 1 && ops[i + 1..m][k] == op;
        assert ops[i + 1..j][k] == op;
      }
      CountFrom(ops, i, m);
    }
  }

  /** A birth that resets the tracker at i and takes its number at j, with no other reset
      in between, only other callers' numbers: the birth carries 0 if and only if a
      multiple of 256 of them came between, none in the case the specification asks for. */
  lemma BirthNumber<T>(ops: seq<Op<T>>, c: UInt64, i: nat, j: nat)
    requires Tracked(ops, c) && i < j < |ops| && ops[i].Reset? && ops[j].Next? && NoReset(ops[i + 1..j])
    ensures ops[j].number == (j - i - 1) % 256
    ensures ops[j].number == 0 <==> (j - i - 1) % 256 == 0
  {
    NumbersCountFromReset(ops, c, j);
    CountFrom(ops, i, j);
  }

  /** When a birth's Reset and Next are adjacent it carries 0, and the k-th number
      allocated after it, by anyone, is k mod 256 until the next birth. */
  lemma AdjacentBirth<T>(ops: seq<Op<T>>, c: UInt64, i: nat, k: nat)
    requires Tracked(ops, c) && i + 1 + k < |ops|
    requires ops[i].Reset? && NoReset(ops[i + 1..i + 2 + k])
    ensures ops[i + 1].number == 0 && ops[i + 1 + k].number == k % 256
  {
    var upTo := ops[i + 1..i + 2 + k];
    assert upTo[0] == ops[i + 1] && upTo[k] == ops[i + 1 + k];
    forall op | op in ops[i + 1..i + 1 + k]
      ensures op.Next?
    {
      var m :| 0 <= m < k && ops[i + 1..i + 1 + k][m] == op;
      assert upTo[m] == op;
    }
    assert ops[i + 1..i + 1] == [];
    BirthNumber(ops, c, i, i + 1);
    BirthNumber(ops, c, i, i + 1 + k);
  }
}
