/** Live mode: how many pre-dumps a run makes, and how much they send. */
module LiveLoop {
  import opened Prelude
  import opened Progress
  import opened Target
  import opened Live

  ghost predicate LoopInv(s: Run) {
    var n := |s.pages|;
    && (s.pc.Prepare? ==> s.pages == [])
    && (s.pc.Iterate? ==> s.usePre && WentOn(MAX_ITERS_COUNT, MIN_ITER_PAGES_COUNT, s.pages, n))
    && (n > 0 ==> s.usePre && WentOn(MAX_ITERS_COUNT, MIN_ITER_PAGES_COUNT, s.pages, n - 1))
    && (s.pc.Final? || s.pc.HandOver? || s.pc.AtFail? || s.pc.AtAck? || s.pc.CleanUp? ==>
          if s.usePre then n > 0 && StopsAt(MAX_ITERS_COUNT, MIN_ITER_PAGES_COUNT, s.pages, n - 1) else n == 0)
  }

  lemma LoopStep(s: Run, e: Event)
    requires LoopInv(s) && Can(s, e)
    ensures LoopInv(NextRun(s, e))
  {
    if e.Stats? && s.pc == Iterate(AtStats) {
      NoteStats(s, NextRun(s, e), e);
    } else {
      LoopQuiet(s, NextRun(s, e), e);
    }
  }

  lemma LoopQuiet(s: Run, t: Run, e: Event)
    requires LoopInv(s) && !e.Stats? && t.pages == s.pages && (s.usePre == t.usePre || e.Track?)
    requires if ByDriver(e) then !t.pc.Nowhere? && t.pc == NextPc(s, e) else t.pc == s.pc && t.usePre == s.usePre
    ensures LoopInv(t)
  {
    if ByDriver(e) {
      if s.pc.Prepare? { LoopPrepare(s, t, e); } else { LoopElsewhere(s, t, e); }
    }
  }

  lemma LoopPrepare(s: Run, t: Run, e: Event)
    requires LoopInv(s) && s.pc.Prepare? && t.pages == s.pages && (s.usePre == t.usePre || e.Track?)
    requires !t.pc.Nowhere? && t.pc == NextPc(s, e)
    ensures LoopInv(t)
  {
  }

  lemma LoopElsewhere(s: Run, t: Run, e: Event)
    requires LoopInv(s) && !s.pc.Prepare? && !e.Stats? && t.pages == s.pages && (s.usePre == t.usePre || e.Track?)
    requires !t.pc.Nowhere? && t.pc == NextPc(s, e)
    ensures LoopInv(t)
  {
  }

  lemma NoteStats(s: Run, t: Run, e: Event)
    requires LoopInv(s) && e.Stats? && s.pc == Iterate(AtStats) && PrevPages(s) != Some(0)
    requires t.pages == s.pages + [e.written] && t.pc == NextPc(s, e) && t.usePre == s.usePre
    ensures LoopInv(t)
  {
    var k := |s.pages|;
    forall i: nat | i < k
      ensures !StopsAt(MAX_ITERS_COUNT, MIN_ITER_PAGES_COUNT, t.pages, i)
    {
      assert !StopsAt(MAX_ITERS_COUNT, MIN_ITER_PAGES_COUNT, s.pages, i);
    }
    CheckIsStop(MAX_ITERS_COUNT, MIN_ITER_PAGES_COUNT, t.pages, k);
  }

  lemma {:induction false} LoopAlways(cfg: Config, mem: map<nat, int>, log: seq<Event>)
    requires Possible(cfg, mem, log)
    ensures LoopInv(After(cfg, mem, log).run)
  {
    if log != [] {
      LoopAlways(cfg, mem, log[..|log| - 1]);
      LoopStep(After(cfg, mem, log[..|log| - 1]).run, log[|log| - 1]);
    }
  }

  /** The progress check never divides by zero: its divisor is above the minimum. */
  lemma DivisorInRuns(cfg: Config, mem: map<nat, int>, log: seq<Event>)
    requires Possible(cfg, mem, log) && After(cfg, mem, log).run.pc == Iterate(AtStats)
    ensures var prev := PrevPages(After(cfg, mem, log).run);
      prev.Some? ==> prev.value > MIN_ITER_PAGES_COUNT
  {
    LoopAlways(cfg, mem, log);
    var pages := After(cfg, mem, log).run.pages;
    if pages != [] {
      DivisorPositive(MAX_ITERS_COUNT, MIN_ITER_PAGES_COUNT, pages, |pages|);
    }
  }

  ghost predicate StopsFirstAt(sent: seq<nat>, last: nat) {
    forall k: nat | k < |sent| :: StopsAt(MAX_ITERS_COUNT, MIN_ITER_PAGES_COUNT, sent, k) <==> k == last
  }

  function PreDumps(log: seq<Event>): nat {
    if log == [] then 0 else PreDumps(log[..|log| - 1]) + if log[|log| - 1].PreDump? then 1 else 0
  }

  /** The statistics of every pre-dump are read before the next one is made. */
  predicate Rounds(s: Run, dumps: nat) {
    && |s.pages| <= dumps <= |s.pages| + 1
    && (s.pc == Iterate(AtIter) || s.pc == Iterate(AtMkDir) || s.pc == Iterate(AtPreDump) ==> dumps == |s.pages|)
    && (s.pc == Iterate(AtEndIter) || s.pc == Iterate(AtFsNext) || s.pc == Iterate(AtStats) ==> dumps == |s.pages| + 1)
    && (!s.pc.Iterate? && s.pc != Stopped(false) ==> dumps == |s.pages|)
  }

  lemma RoundsPrepare(s: Run, e: Event, dumps: nat)
    requires Rounds(s, dumps) && Can(s, e) && ByDriver(e) && s.pc.Prepare?
    ensures Rounds(NextRun(s, e), dumps + if e.PreDump? then 1 else 0)
  {
  }

  lemma RoundsLoop(s: Run, e: Event, dumps: nat)
    requires Rounds(s, dumps) && Can(s, e) && ByDriver(e) && s.pc.Iterate?
    ensures Rounds(NextRun(s, e), dumps + if e.PreDump? then 1 else 0)
  {
  }

  lemma RoundsEnd(s: Run, e: Event, dumps: nat)
    requires Rounds(s, dumps) && Can(s, e) && ByDriver(e) && !s.pc.Prepare? && !s.pc.Iterate?
    ensures Rounds(NextRun(s, e), dumps + if e.PreDump? then 1 else 0)
  {
  }

  lemma RoundsStep(s: Run, e: Event, dumps: nat)
    requires Rounds(s, dumps) && Can(s, e)
    ensures Rounds(NextRun(s, e), dumps + if e.PreDump? then 1 else 0)
  {
    if ByDriver(e) {
      if s.pc.Prepare? {
        RoundsPrepare(s, e, dumps);
      } else if s.pc.Iterate? {
        RoundsLoop(s, e, dumps);
      } else {
        RoundsEnd(s, e, dumps);
      }
    }
  }

  lemma {:induction false} RoundsAlways(cfg: Config, mem: map<nat, int>, log: seq<Event>)
    requires Possible(cfg, mem, log)
    ensures Rounds(After(cfg, mem, log).run, PreDumps(log))
    ensures PreDumps(log) <= MAX_ITERS_COUNT + 1
  {
    if log != [] {
      var init, e := log[..|log| - 1], log[|log| - 1];
      var s := After(cfg, mem, init).run;
      RoundsAlways(cfg, mem, init);
      RoundsStep(s, e, PreDumps(init));
      LoopAlways(cfg, mem, init);
      if e.PreDump? && |s.pages| > MAX_ITERS_COUNT {
        assert StopsAt(MAX_ITERS_COUNT, MIN_ITER_PAGES_COUNT, s.pages, MAX_ITERS_COUNT);
        assert false;
      }
    }
  }

  /** Past the loop: the final dump and what comes after it. */
  predicate LeftLoop(pc: Pc) {
    pc.Final? || pc.HandOver? || pc.AtFail? || pc.AtAck? || pc.CleanUp?
  }

  /** No run makes more than nine pre-dumps. One that has left the loop made exactly as many as it
      read statistics, none without tracking and otherwise at least one, and stopped at the first
      that could be the last. */
  lemma PreDumpCount(cfg: Config, mem: map<nat, int>, log: seq<Event>)
    requires Possible(cfg, mem, log)
    ensures var s := After(cfg, mem, log).run;
      && PreDumps(log) <= MAX_ITERS_COUNT + 1
      && (LeftLoop(s.pc) ==> PreDumps(log) == |s.pages|)
      && (LeftLoop(s.pc) && s.usePre ==> 1 <= PreDumps(log) && StopsFirstAt(s.pages, |s.pages| - 1))
      && (LeftLoop(s.pc) && !s.usePre ==> PreDumps(log) == 0)
  {
    LoopAlways(cfg, mem, log);
    RoundsAlways(cfg, mem, log);
    var pages := After(cfg, mem, log).run.pages;
    if pages != [] {
      StopsLeast(MAX_ITERS_COUNT, MIN_ITER_PAGES_COUNT, pages);
    }
  }

  /** All pre-dumps but the last of any run together send at most a geometric sum of the first. */
  lemma PagesBound(cfg: Config, mem: map<nat, int>, log: seq<Event>)
    requires Possible(cfg, mem, log) && |After(cfg, mem, log).run.pages| > 1
    ensures var pages := After(cfg, mem, log).run.pages;
      var n := |pages| - 1;
      11 * Pow(100, n - 1) * Sum(pages[..n]) <= pages[0] * (Pow(111, n) - Pow(100, n))
  {
    LoopAlways(cfg, mem, log);
    var pages := After(cfg, mem, log).run.pages;
    var sent := pages[..|pages| - 1];
    forall k: nat | k < |sent| ensures !StopsAt(MAX_ITERS_COUNT, MIN_ITER_PAGES_COUNT, sent, k) {
      assert !StopsAt(MAX_ITERS_COUNT, MIN_ITER_PAGES_COUNT, pages, k);
    }
    GeometricBound(MAX_ITERS_COUNT, MIN_ITER_PAGES_COUNT, sent);
  }
}
