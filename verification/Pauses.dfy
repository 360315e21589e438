/** The daily limit on pauses: an operator tests it without a mutex and is counted only later, so
    several operators can pass the test before any of them is counted. */
module Pauses {
  import opened Office
  import opened Processes
  import opened Tallies
  import opened Frames
  import opened Barrier
  import opened Core
  import opened Director
  import opened Invariant
  import Books

  /** Pauses counted today and pauses still to be counted. */
  function Taken(s: State): nat { s.sh.stats.pauses + Sum(Passed, s.ops) }

  // ----- one operator

  /** The step in which an operator passes the test. */
  predicate PassesTest(o: Op, p: Op) { o.pc.OPause? && PastTest(p.pc) }

  /** Passing the test is the only way in, being counted the only way out. */
  predicate PauseLaw(cfg: Config, sh: Shared, o: Op, r: Result) {
    && r.sh.stats.pauses + One(PastTest(r.o.pc))
       == sh.stats.pauses + One(PastTest(o.pc)) + One(PassesTest(o, r.o))
    && (PassesTest(o, r.o) ==> sh.stats.pauses < cfg.maxPause)
  }

  lemma PauseRegion(cfg: Config, sh: Shared, o: Op, pid: nat, choice: bool)
    requires RegionOf(o.pc) == Pausing
    ensures PauseLaw(cfg, sh, o, PauseGo(cfg, sh, o, pid, choice))
  {
  }

  lemma RestRegion(cfg: Config, sh: Shared, o: Op)
    requires RegionOf(o.pc) == Paused && (Writing(o.pc) ==> o.tmp == sh.stats)
    ensures PauseLaw(cfg, sh, o, RestGo(sh, o))
  {
  }

  lemma OtherRegions(cfg: Config, sh: Shared, o: Op, pid: nat, choice: bool)
    requires RegionOf(o.pc) != Pausing && RegionOf(o.pc) != Paused && (Writing(o.pc) ==> o.tmp == sh.stats)
    ensures PauseLaw(cfg, sh, o, OpGo(cfg, sh, o, pid, choice))
  {
    hide PauseGo, RestGo;
  }

  lemma OpPauses(cfg: Config, sh: Shared, o: Op, pid: nat, a: Act)
    requires Writing(o.pc) ==> o.tmp == sh.stats
    ensures PauseLaw(cfg, sh, o, OpDo(cfg, sh, o, pid, a))
  {
    hide GateGo, DeskGo, CountGo, TicketGo, ServeGo, SessionGo, StatGo, PauseGo, RestGo, CloseGo;
    if a.Go? {
      hide PauseLaw;
      match RegionOf(o.pc)
      case Pausing => PauseRegion(cfg, sh, o, pid, a.choice);
      case Paused => RestRegion(cfg, sh, o);
      case _ => OtherRegions(cfg, sh, o, pid, a.choice);
    }
  }

  // ----- all operators

  predicate Passes(s: State, step: Step) {
    step.StepOp? && step.i < |s.ops| && PassesTest(s.ops[step.i], Apply(s, step).ops[step.i])
  }

  /** Only passing the test adds to the pauses taken, and only below the limit and by one. */
  lemma StepPauses(s: State, step: Step)
    requires Inv(s)
    ensures var t := Apply(s, step);
            && t.cfg == s.cfg && |t.ops| == |s.ops|
            && (if Passes(s, step) then Taken(t) == Taken(s) + 1 else Taken(t) <= Taken(s))
            && (Passes(s, step) ==> s.sh.stats.pauses < s.cfg.maxPause && Sum(Passed, s.ops) < |s.ops|)
  {
    hide Inv, Reachable;
    Parts(s);
    hide BarrierOk, CoreOk;
    match step
    case StepOp(i, a) => if i < |s.ops| { OpStepPauses(s, i, a); }
    case StepDisp(a, req) => DispStepPauses(s, a, req);
    case StepDir(arr, newUsers) =>
      DirStep(s, arr, newUsers);
      hide Apply, DirFlows, Sum;
      Books.SignalsKeepSums(Passed, s.ops, Apply(s, step).ops);
    case StepUser =>
  }

  /** The dispenser never adds a pause; its daily reset takes all of them away. */
  lemma DispStepPauses(s: State, a: Act, req: Request)
    ensures var t := Apply(s, StepDisp(a, req));
            t.cfg == s.cfg && t.ops == s.ops && t.sh.stats.pauses <= s.sh.stats.pauses
  {
    DispFrame(s, a, req);
    hide Apply, DispLocks;
    CloseCounts(s.sh.stats, s.sh.queue);
  }

  lemma OpStepPauses(s: State, i: nat, a: Act)
    requires CoreOk(s) && i < |s.ops|
    ensures var step := StepOp(i, a); var t := Apply(s, step);
            && t.cfg == s.cfg && |t.ops| == |s.ops|
            && (if Passes(s, step) then Taken(t) == Taken(s) + 1 else Taken(t) == Taken(s))
            && (Passes(s, step) ==> s.sh.stats.pauses < s.cfg.maxPause && Sum(Passed, s.ops) < |s.ops|)
  {
    hide Sum, OpDo, Apply, CoreOk;
    OpLaw(s, i, a);
    SumUpdate(Passed, s.ops, i, OpDo(s.cfg, s.sh, s.ops[i], i + 1, a).o);
    RoomForOne(s.ops, i);
  }

  lemma OpLaw(s: State, i: nat, a: Act)
    requires CoreOk(s) && i < |s.ops|
    ensures var r := OpDo(s.cfg, s.sh, s.ops[i], i + 1, a);
            PauseLaw(s.cfg, s.sh, s.ops[i], r) && Apply(s, StepOp(i, a)) == s.(sh := r.sh, ops := s.ops[i := r.o])
  {
    hide PauseLaw, OpDo, Apply, OpSpares;
    ReadyToMove(s, i);
    OpPauses(s.cfg, s.sh, s.ops[i], i + 1, a);
    OpStep(s, i, a);
  }

  lemma RoomForOne(ops: seq<Op>, i: nat)
    requires i < |ops|
    ensures ops[i].pc.OPause? ==> Sum(Passed, ops) < |ops|
  {
    SumDrop(Passed, ops, i);
    AtMostAll(Without(ops, i));
  }

  lemma {:induction false} AtMostAll(ops: seq<Op>)
    ensures Sum(Passed, ops) <= |ops|
  {
    if ops != [] {
      AtMostAll(ops[1..]);
    }
  }

  // ----- how far the limit can be exceeded

  predicate PausesOk(s: State) {
    if s.cfg.maxPause == 0 then Taken(s) == 0 else Taken(s) <= s.cfg.maxPause + |s.ops| - 1
  }

  lemma {:induction false} RunPauses(u: Setup, steps: seq<Step>)
    requires ValidSetup(u)
    ensures Inv(Run(Begin(u), steps)) && PausesOk(Run(Begin(u), steps))
  {
    hide Inv, Apply;
    BeginInv(u);
    RunKeepsInv(Begin(u), steps);
    if steps == [] {
      SumZero(Passed, Begin(u).ops);
    } else {
      RunPauses(u, steps[..|steps|-1]);
      StepPauses(Run(Begin(u), steps[..|steps|-1]), steps[|steps|-1]);
    }
  }

  /** The pauses of a day, counted and to be counted, exceed the limit by less than the number of
      operators; with a limit of 0 there are none. */
  lemma PauseBound(s: State)
    requires Reachable(s)
    ensures s.cfg.maxPause == 0 ==> Taken(s) == 0
    ensures s.cfg.maxPause > 0 ==> Taken(s) <= s.cfg.maxPause + |s.ops| - 1
  {
    hide Run, Begin, Taken;
    var u, steps :| ValidSetup(u) && s == Run(Begin(u), steps);
    RunPauses(u, steps);
  }

  // ----- when the limit holds

  /** The pauses taken, counted or not, never exceed the limit. */
  ghost predicate LimitHolds(s: State, steps: seq<Step>) {
    forall n: nat :: n <= |steps| ==> Taken(Run(s, steps[..n])) <= s.cfg.maxPause
  }

  /** Nobody passes the test when counted and uncounted pauses together have reached the limit. */
  ghost predicate TestsInTime(s: State, steps: seq<Step>) {
    forall n: nat :: n < |steps| && Passes(Run(s, steps[..n]), steps[n]) ==> Taken(Run(s, steps[..n])) < s.cfg.maxPause
  }

  /** The step after the first n. */
  lemma NextStep(u: Setup, steps: seq<Step>, n: nat)
    requires ValidSetup(u) && n < |steps|
    ensures var s, t := Run(Begin(u), steps[..n]), Run(Begin(u), steps[..n+1]);
            if Passes(s, steps[n]) then Taken(t) == Taken(s) + 1 else Taken(t) <= Taken(s)
  {
    hide Inv, Apply, Taken;
    assert steps[..n+1][..n] == steps[..n];
    BeginInv(u);
    RunKeepsInv(Begin(u), steps[..n]);
    StepPauses(Run(Begin(u), steps[..n]), steps[n]);
  }

  lemma {:induction false} InTimeHolds(u: Setup, steps: seq<Step>, n: nat)
    requires ValidSetup(u) && TestsInTime(Begin(u), steps) && n <= |steps|
    ensures Taken(Run(Begin(u), steps[..n])) <= u.cfg.maxPause
  {
    if n == 0 {
      SumZero(Passed, Begin(u).ops);
    } else {
      InTimeHolds(u, steps, n - 1);
      hide Taken, Run, Passes;
      NextStep(u, steps, n - 1);
    }
  }

  /** The limit holds throughout a run exactly when nobody passes the test once the pauses counted
      and those still to be counted have reached it. */
  lemma LimitHoldsExactly(u: Setup, steps: seq<Step>)
    requires ValidSetup(u)
    ensures LimitHolds(Begin(u), steps) <==> TestsInTime(Begin(u), steps)
  {
    hide Taken, Run, Passes;
    if TestsInTime(Begin(u), steps) {
      forall n: nat | n <= |steps| ensures Taken(Run(Begin(u), steps[..n])) <= u.cfg.maxPause {
        InTimeHolds(u, steps, n);
      }
    }
    if LimitHolds(Begin(u), steps) {
      forall n: nat | n < |steps| && Passes(Run(Begin(u), steps[..n]), steps[n])
        ensures Taken(Run(Begin(u), steps[..n])) < u.cfg.maxPause
      {
        NextStep(u, steps, n);
        assert n + 1 <= |steps|;
      }
    }
  }

  /** In this run nobody passes the test while somebody else has passed it and is not counted. */
  ghost predicate OneAtATime(s: State, steps: seq<Step>) {
    steps == []
    || (OneAtATime(s, steps[..|steps|-1])
        && (Passes(Run(s, steps[..|steps|-1]), steps[|steps|-1]) ==> Sum(Passed, Run(s, steps[..|steps|-1]).ops) == 0))
  }

  /** Then it holds at every moment. */
  lemma {:induction false} LimitHoldsOneAtATime(u: Setup, steps: seq<Step>)
    requires ValidSetup(u) && OneAtATime(Begin(u), steps)
    ensures Taken(Run(Begin(u), steps)) <= u.cfg.maxPause && Run(Begin(u), steps).cfg == u.cfg
  {
    hide Inv, Apply;
    if steps == [] {
      SumZero(Passed, Begin(u).ops);
    } else {
      var before := steps[..|steps|-1];
      LimitHoldsOneAtATime(u, before);
      BeginInv(u);
      RunKeepsInv(Begin(u), before);
      StepPauses(Run(Begin(u), before), steps[|steps|-1]);
    }
  }
}
