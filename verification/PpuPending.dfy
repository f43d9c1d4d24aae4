/** Bit 1 of $2002, the invented bit of a pending NMI: the one thing a program can read that tells how the
  * cycles were cut into calls.
  */
module PpuPending {
  import opened Common
  import opened PpuTypes
  import opened PpuTiles
  import opened PpuSprites
  import opened PpuReference
  import opened PpuTheorems

  /** A call that ends here leaves the NMI of the vertical blank pending; one that runs past latches it. */
  predicate Lands(q: Ppu) { q.scanLine == VBLANK_LINE && 2 <= q.dot <= 3 && q.nmis.blank }

  /** No call is for zero cycles. */
  predicate AllCalls(batches: seq<nat>) { forall k | 0 <= k < |batches| :: batches[k] >= 1 }

  /** The pending bit after a sequence of calls, each by the contract of TicksExecute. */
  ghost predicate PendingAfter(p: Ppu, pending: bool, mem: Mem, batches: seq<nat>)
    requires ValidMem(mem) && AtRest(p) && AllCalls(batches)
    decreases |batches|
  {
    if batches == [] then pending
    else
      var q := Dots(p, mem, 3 * batches[0]);
      PendingAfter(q, pending || Lands(q), mem, batches[1..])
  }

  /** Where the k-th call ends. */
  ghost function EndOf(p: Ppu, mem: Mem, batches: seq<nat>, k: nat): Ppu
    requires ValidMem(mem) && AtRest(p) && k < |batches|
  {
    Dots(p, mem, 3 * Total(batches[..k + 1]))
  }

  /** The bit is up after a sequence of calls exactly if it was before or one of the calls ends in dot 2 or 3 of
    * a vertical blank that raises an NMI.
    */
  lemma {:induction false} PendingExact(p: Ppu, pending: bool, mem: Mem, batches: seq<nat>)
    requires ValidMem(mem) && AtRest(p) && AllCalls(batches)
    ensures PendingAfter(p, pending, mem, batches) <==>
              pending || exists k: nat | k < |batches| :: Lands(EndOf(p, mem, batches, k))
    decreases |batches|
  {
    hide Dots, AtRest, ValidMem, Lands;
    if batches != [] {
      var rest := batches[1..];
      var q := Dots(p, mem, 3 * batches[0]);
      PendingExact(q, pending || Lands(q), mem, rest);
      forall k: nat | k < |batches|
        ensures EndOf(p, mem, batches, k) == if k == 0 then q else EndOf(q, mem, rest, k - 1)
      {
        EndLater(p, mem, batches, k);
      }
      if k: nat :| k < |rest| && Lands(EndOf(q, mem, rest, k)) {
        assert Lands(EndOf(p, mem, batches, k + 1));
      }
      if Lands(q) {
        assert Lands(EndOf(p, mem, batches, 0));
      }
    }
  }

  lemma EndLater(p: Ppu, mem: Mem, batches: seq<nat>, k: nat)
    requires ValidMem(mem) && AtRest(p) && k < |batches|
    ensures var q := Dots(p, mem, 3 * batches[0]);
            EndOf(p, mem, batches, k) == if k == 0 then q else EndOf(q, mem, batches[1..], k - 1)
  {
    hide Dots, AtRest, ValidMem;
    var front := batches[..k + 1];
    assert front[0] == batches[0] && front[1..] == batches[1..][..k];
    assert Total(front) == batches[0] + Total(front[1..]);
    if k == 0 {
      assert front[1..] == [];
    }
    DotsAdd(p, mem, 3 * batches[0], 3 * Total(front[1..]));
  }

  /** Two cycles at the start of a vertical blank that raises an NMI: in two calls the bit is up, in one it is not,
    * though every dot is the same.
    */
  lemma BatchingShows(p: Ppu, mem: Mem)
    requires ValidMem(mem) && AtRest(p) && p.scanLine == VBLANK_LINE && p.dot == 0
    requires p.NmiEnabled() && !p.status.readRace
    ensures Total([1, 1]) == Total([2]) == 2
    ensures PendingAfter(p, false, mem, [1, 1]) && !PendingAfter(p, false, mem, [2])
  {
    hide ValidMem, AtRest, Lands, Dot;
    var q, r := Dots(p, mem, 3), Dots(p, mem, 6);
    EarlyBlank(p, mem);
    DotsAdd(p, mem, 3, 3);
    assert [1, 1][1..] == [1] && [2][1..] == [] && [1][1..] == [];
    assert PendingAfter(q, true, mem, [1]);
  }

  /** The first six dots of such a blank: raised by the second. */
  lemma EarlyBlank(p: Ppu, mem: Mem)
    requires ValidMem(mem) && AtRest(p) && p.scanLine == VBLANK_LINE && p.dot == 0
    requires p.NmiEnabled() && !p.status.readRace
    ensures Lands(Dots(p, mem, 3)) && !Lands(Dots(p, mem, 6))
  {
    hide Dots, ValidMem, ValidPpu;
    EarlyDots(p, mem, 3);
    EarlyDots(p, mem, 6);
  }

  lemma {:induction false} EarlyDots(p: Ppu, mem: Mem, n: nat)
    requires ValidMem(mem) && AtRest(p) && p.scanLine == VBLANK_LINE && p.dot == 0 && n <= 6
    requires p.NmiEnabled() && !p.status.readRace
    ensures var q := Dots(p, mem, n);
            && q.scanLine == VBLANK_LINE && q.dot == n && (n >= 2 ==> q.nmis.blank)
            && q.reg == p.reg && (n < 2 ==> !q.status.readRace)
  {
    hide ValidMem, ValidPpu, VblankDot, Dot;
    if n > 0 {
      EarlyDots(p, mem, n - 1);
      BlankDot(Dots(p, mem, n - 1), mem);
    }
  }

  lemma BlankDot(q: Ppu, mem: Mem)
    requires ValidMem(mem) && AtRest(q) && q.scanLine == VBLANK_LINE && q.dot < 340
    ensures Dot(q, mem) == VblankDot(q, q.dot).(dot := q.dot + 1, lastDot := q.dot + 1)
    ensures var r := VblankDot(q, q.dot);
            && r.reg == q.reg && r.scanLine == q.scanLine
            && r.nmis.blank == (if q.dot == 1 then !q.status.readRace && q.NmiEnabled() else q.nmis.blank)
            && (q.dot != 1 ==> r == q)
  {
    hide ValidMem, VisibleDot, PreRenderDot;
  }
}
