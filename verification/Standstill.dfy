/** When a run comes to a standstill: no process can take a step that changes anything.  Either the
    simulation has ended, or it hangs in one of two ways, each a signal noticed between the test of a
    flag and the wait that follows, or before the flag was cleared. */
module Standstill {
  import opened Office
  import opened Processes
  import opened Tallies
  import opened Frames
  import opened Barrier
  import opened Core
  import opened Days
  import opened Invariant
  import opened Runs
  import Told
  import DayEnd

  // ----- which steps wait

  /** The operator waits, or is no more. */
  predicate Waits(sh: Shared, o: Op) {
    match o.pc
    case OStart => !o.sig.usr1 && sh.sim.s0 == 0
    case OGate => !o.sig.usr1 && sh.sim.s2 > 0
    case ODesk => Of(sh.sSem, o.service) == 0
    case OTicket => Of(sh.tSem, o.service) == 0
    case ODeskLock | OPauseLock | OCloseLock => sh.mem.m0 == 0
    case OTicketLock => sh.mem.m1 == 0
    case OCountLock | OStatLock | OPauseStatLock => sh.mem.m2 == 0
    case OStopped => !o.sig.usr2 && !o.sig.pend2
    case OBarrier => sh.sim.s3 == 0
    case OError | OExit => true
    case _ => false
  }

  /** Nothing moves, or the program counter does. */
  predicate Halts(sh: Shared, o: Op, r: Result) {
    if Waits(sh, o) then r == Result(sh, o) else r.o.pc != o.pc
  }

  lemma WorkHalts(sh: Shared, o: Op, pid: nat)
    ensures RegionOf(o.pc) == Gate ==> Halts(sh, o, GateGo(sh, o))
    ensures RegionOf(o.pc) == AtDesk ==> Halts(sh, o, DeskGo(sh, o, pid))
    ensures RegionOf(o.pc) == Counting ==> Halts(sh, o, CountGo(sh, o))
    ensures RegionOf(o.pc) == AtTicket ==> Halts(sh, o, TicketGo(sh, o))
  {
    hide Reserved, ReservedId, Take, Bump;
  }

  lemma SessionHalts(sh: Shared, o: Op)
    ensures RegionOf(o.pc) == Serving ==> Halts(sh, o, ServeGo(sh, o))
    ensures RegionOf(o.pc) == Session ==> Halts(sh, o, SessionGo(sh, o))
    ensures RegionOf(o.pc) == Updating ==> Halts(sh, o, StatGo(sh, o))
  {
    hide FirstOf, Without, Provided, ZeroAsInt;
  }

  lemma RestHalts(cfg: Config, sh: Shared, o: Op, pid: nat, choice: bool)
    ensures RegionOf(o.pc) == Pausing ==> Halts(sh, o, PauseGo(cfg, sh, o, pid, choice))
    ensures RegionOf(o.pc) == Paused ==> Halts(sh, o, RestGo(sh, o))
    ensures RegionOf(o.pc) == Leaving ==> Halts(sh, o, CloseGo(sh, o, pid))
  {
    hide Released, Releases, Bump, TookPause;
  }

  lemma GoneWaits(sh: Shared, o: Op)
    ensures RegionOf(o.pc) == Gone ==> Waits(sh, o)
  {
  }

  /** An operator's program goes on exactly unless it waits: at the gates, for a permit, for a mutex
      that is taken, stopped in a pause, or at the barrier. */
  lemma GoesOnUnlessWaiting(cfg: Config, sh: Shared, o: Op, pid: nat, choice: bool)
    ensures var r := OpDo(cfg, sh, o, pid, Go(choice));
            if Waits(sh, o) then r == Result(sh, o) else r.o.pc != o.pc
  {
    hide GateGo, DeskGo, CountGo, TicketGo, ServeGo, SessionGo, StatGo, PauseGo, RestGo, CloseGo, Waits;
    GoneWaits(sh, o);
    WorkHalts(sh, o, pid);
    SessionHalts(sh, o);
    RestHalts(cfg, sh, o, pid, choice);
  }

  predicate DispWaits(s: State, req: Request) {
    var sim, mem := s.sh.sim, s.sh.mem;
    match s.disp.pc
    case EWait2 => sim.s4 < 2
    case EJoin => !s.disp.simEnd && sim.s0 == 0
    case EGate => sim.s2 > 0
    case ERead => s.sh.pipe == []
    case ERecv => !s.disp.dayEnd && req.service !in s.disp.enabled
    case ELock(_) => mem.m1 == 0
    case EWait3 => sim.s3 > 0
    case EStatLock | EFinalLock => mem.m2 == 0
    case EDone => true
    case _ => false
  }

  lemma MorningWaits(s: State, req: Request)
    ensures var e := DispMorning(s);
            match s.disp.pc
            case EStart | EWait2 | EReset | EJoin | EGate | ERead =>
              if DispWaits(s, req) then e == s else e.disp.pc != s.disp.pc
            case _ => true
  {
    hide DayReset;
  }

  lemma RequestWaits(s: State, req: Request)
    ensures s.disp.pc.ERecv? || s.disp.pc.ECheck? || s.disp.pc.ELock? ==>
              if DispWaits(s, req) then DispTake(s, req) == s else DispTake(s, req).disp.pc != s.disp.pc
    ensures s.disp.pc.EInsert? || s.disp.pc.EPost? || s.disp.pc.EUnlock? ==> DispIssue(s).disp.pc != s.disp.pc
  {
    hide Bump;
  }

  lemma NightWaits(s: State, req: Request)
    ensures match s.disp.pc
            case EWait3 | EStatLock | EStatWalk | EStatUnlock | EPost4 =>
              if DispWaits(s, req) then DispClose(s) == s else DispClose(s).disp.pc != s.disp.pc
            case EFinalLock | EFinal | EFinalUnlock | EFinalPost | EDone =>
              if DispWaits(s, req) then DispFinal(s) == s else DispFinal(s).disp.pc != s.disp.pc
            case _ => true
  {
    hide Closed, Record;
    match s.disp.pc
    case EWait3 =>
    case EStatLock =>
    case EStatWalk =>
    case EStatUnlock =>
    case EPost4 =>
    case _ =>
  }

  /** The same for the dispenser. */
  lemma DispenserGoesOn(s: State, choice: bool, req: Request)
    ensures var t := Apply(s, StepDisp(Go(choice), req));
            if DispWaits(s, req) then t == s else t.disp.pc != s.disp.pc
  {
    hide DispMorning, DispTake, DispIssue, DispClose, DispFinal;
    MorningWaits(s, req);
    RequestWaits(s, req);
    NightWaits(s, req);
  }

  predicate DirWaits(s: State, arr: seq<int>) {
    var sim := s.sh.sim;
    match s.dir.pc
    case DWait0 => sim.s0 > 0
    case DWait1 => sim.s1 > 0
    case DOpen => sim.s2 == 0
    case DWaitStats | DWaitFinal => sim.s4 == 0
    case DDecide => s.sh.stats.currentDay != s.cfg.duration && !ValidChoice(arr, |s.sh.desks|)
    case DDone => true
    case _ => false
  }

  /** And for the director, whatever services it draws. */
  lemma DirectorGoesOn(s: State, arr: seq<int>, newUsers: nat)
    ensures var t := Apply(s, StepDir(arr, newUsers));
            if DirWaits(s, arr) then t == s else t.dir.pc != s.dir.pc
  {
    hide Marked1, Marked2, Vacated, Reassigned, AssignedAll, ValidChoice;
  }

  // ----- standing still

  /** No step of anybody changes anything. */
  ghost predicate Still(s: State) { forall step: Step :: Apply(s, step) == s }

  /** No signal is on its way to the operator, and its program will not go on. */
  predicate Asleep(sh: Shared, o: Op) {
    && !o.sig.pend1 && !o.sig.pend2
    && match o.pc
       case OStart => !o.sig.usr1 && sh.sim.s0 == 0
       case ODesk => Of(sh.sSem, o.service) == 0
       case OTicket => Of(sh.tSem, o.service) == 0
       case OStopped => !o.sig.usr2
       case OError | OExit => true
       case _ => false
  }

  predicate AllAsleep(s: State) { forall i :: 0 <= i < |s.ops| ==> Asleep(s.sh, s.ops[i]) }

  /** The dispenser waits for operators that do not come. */
  predicate DayHangs(s: State) {
    s.dir.pc.DWaitStats? && s.disp.pc.EWait3? && exists i :: 0 <= i < |s.ops| && !s.ops[i].pc.OStart?
  }

  /** The director waits for the dispenser, and the dispenser for a next day. */
  predicate EndHangs(s: State) { s.dir.pc.DWaitFinal? && s.disp.pc.EWait2? && s.disp.simEnd }

  predicate Ended(s: State) { s.dir.pc.DDone? && s.disp.pc.EDone? }

  lemma OpStandsStill(s: State, i: nat)
    requires Still(s) && i < |s.ops|
    ensures var o := s.ops[i];
            Waits(s.sh, o) && !o.sig.pend1 && (o.sig.pend2 ==> s.sh.mem.m2 == 0)
  {
    var o := s.ops[i];
    assert Apply(s, StepOp(i, Go(false))) == s && Apply(s, StepOp(i, DeliverDayEnd)) == s;
    assert Apply(s, StepOp(i, DeliverSimEnd)) == s;
    GoesOnUnlessWaiting(s.cfg, s.sh, o, i + 1, false);
    hide OpGo, OpInterrupt;
  }

  lemma SignalsStandStill(s: State)
    requires Still(s)
    ensures !s.disp.pend1 && !s.disp.pend2
    ensures s.sh.sim.s1 == 0
  {
    var req := Request(1, 0, 0);
    assert Apply(s, StepDisp(DeliverDayEnd, req)) == s && Apply(s, StepDisp(DeliverSimEnd, req)) == s;
    assert Apply(s, StepUser) == s;
    hide DispGo;
  }

  /** Whoever holds a mutex goes on. */
  lemma HolderGoesOn(s: State, m: nat)
    requires Mutexes(s) && m < 3 && forall i :: 0 <= i < |s.ops| ==> Waits(s.sh, s.ops[i])
    ensures Sum(Holding(m), s.ops) == 0
  {
    forall i | 0 <= i < |s.ops| ensures Weight(Holding(m), s.ops[i]) == 0 {
      assert Waits(s.sh, s.ops[i]);
    }
    SumZero(Holding(m), s.ops);
  }

  /** So every mutex is free, and what waits does not wait for one. */
  lemma MutexesAreFree(s: State)
    requires Still(s) && Mutexes(s)
    ensures s.sh.mem == Locks(1, 1, 1)
    ensures DispWaits(s, Request(1, 0, 0))
  {
    forall i: nat | i < |s.ops| ensures Waits(s.sh, s.ops[i]) {
      OpStandsStill(s, i);
    }
    HolderGoesOn(s, 0);
    HolderGoesOn(s, 1);
    HolderGoesOn(s, 2);
    var req := Request(1, 0, 0);
    assert Apply(s, StepDisp(Go(false), req)) == s;
    DispenserGoesOn(s, false, req);
    hide Apply, Still, Waits;
  }

  lemma DirectorStands(s: State)
    requires Still(s)
    ensures s.dir.pc.DWait0? || s.dir.pc.DOpen? || s.dir.pc.DWaitStats? || s.dir.pc.DWaitFinal? || s.dir.pc.DDone?
    ensures s.dir.pc.DWait0? ==> s.sh.sim.s0 > 0
    ensures s.dir.pc.DOpen? ==> s.sh.sim.s2 == 0
    ensures s.dir.pc.DWaitStats? || s.dir.pc.DWaitFinal? ==> s.sh.sim.s4 == 0
  {
    var arr := seq(|s.sh.desks|, _ => 1);
    assert ValidChoice(arr, |s.sh.desks|);
    assert Apply(s, StepDir(arr, 0)) == s;
    DirectorGoesOn(s, arr, 0);
    SignalsStandStill(s);
    hide Apply, Still;
  }

  /** What has been shown about a standstill. */
  predicate Stands(s: State) {
    && (forall i :: 0 <= i < |s.ops| ==> Waits(s.sh, s.ops[i]) && !s.ops[i].sig.pend1 && !s.ops[i].sig.pend2)
    && !s.disp.pend1 && !s.disp.pend2 && s.sh.sim.s1 == 0 && s.sh.mem == Locks(1, 1, 1)
    && DispWaits(s, Request(1, 0, 0))
    && (s.dir.pc.DWait0? || s.dir.pc.DOpen? || s.dir.pc.DWaitStats? || s.dir.pc.DWaitFinal? || s.dir.pc.DDone?)
    && (s.dir.pc.DWait0? ==> s.sh.sim.s0 > 0) && (s.dir.pc.DOpen? ==> s.sh.sim.s2 == 0)
    && (s.dir.pc.DWaitStats? || s.dir.pc.DWaitFinal? ==> s.sh.sim.s4 == 0)
  }

  lemma StillStands(s: State)
    requires Still(s) && Mutexes(s)
    ensures Stands(s)
  {
    MutexesAreFree(s);
    SignalsStandStill(s);
    DirectorStands(s);
    forall i: nat | i < |s.ops| ensures Waits(s.sh, s.ops[i]) && !s.ops[i].sig.pend1 && !s.ops[i].sig.pend2 {
      OpStandsStill(s, i);
    }
    hide Still, Waits, DispWaits;
  }

  /** Before a day is open somebody can always join it. */
  lemma GatheringGoesOn(s: State)
    requires Stands(s) && GatheringOk(s)
    ensures PhaseOf(s.dir.pc) != Gathering
  {
    if PhaseOf(s.dir.pc) == Gathering {
      assert s.dir.pc.DWait0?;
      forall i | 0 <= i < |s.ops| ensures Weight(Starts, s.ops[i]) == 0 {
        assert AtGate(s.ops[i].pc) && Waits(s.sh, s.ops[i]);
      }
      SumZero(Starts, s.ops);
      assert false;
    }
  }

  /** On an open day only operators that are asleep hold up the dispenser. */
  lemma OpenDayStands(s: State)
    requires Stands(s) && OpenedOk(s) && PhaseOf(s.dir.pc) == Opened && s.sh.pipe == PipeOf(s)
    requires s.disp.pend2 || s.disp.dayEnd || !Issuing(s.disp.pc)
    ensures DayHangs(s) && AllAsleep(s)
  {
    assert s.dir.pc.DWaitStats? && s.disp.pc.EWait3?;
    forall i | 0 <= i < |s.ops| ensures Asleep(s.sh, s.ops[i]) {
      assert Waits(s.sh, s.ops[i]);
    }
    if forall i :: 0 <= i < |s.ops| ==> s.ops[i].pc.OStart? {
      AllStart(s.ops);
    }
  }

  /** After the last day only the dispenser can be asleep. */
  lemma EndStands(s: State)
    requires Stands(s) && EndingOk(s) && PhaseOf(s.dir.pc) == Ending
    requires Told.DispHears(s) && Told.OpsHear(s)
    ensures (Ended(s) || EndHangs(s)) && AllAsleep(s)
  {
    assert s.dir.pc.DWaitFinal? || s.dir.pc.DDone?;
    forall i | 0 <= i < |s.ops| ensures Asleep(s.sh, s.ops[i]) {
      assert Waits(s.sh, s.ops[i]) && Told.HeardEnd(s.ops[i]) && Parked(s.ops[i].pc);
    }
  }

  lemma StillMeans(s: State)
    requires Still(s) && Inv(s) && Told.DispHears(s) && Told.OpsHear(s)
    ensures s.sh.sim.s1 == 0 && !s.disp.pend1 && !s.disp.pend2 && AllAsleep(s)
    ensures Ended(s) || DayHangs(s) || EndHangs(s)
  {
    hide *;
    Parts(s);
    CoreHas(s);
    StillStands(s);
    StandsIn(s);
  }

  lemma CoreHas(s: State)
    requires CoreOk(s) && ServicesOk(s)
    ensures Mutexes(s) && s.sh.pipe == PipeOf(s)
  {
    hide Mutexes, PipeOf;
  }

  lemma StandsIn(s: State)
    requires Stands(s) && BarrierOk(s) && s.sh.pipe == PipeOf(s) && Told.DispHears(s) && Told.OpsHear(s)
    ensures s.sh.sim.s1 == 0 && !s.disp.pend1 && !s.disp.pend2 && AllAsleep(s)
    ensures Ended(s) || DayHangs(s) || EndHangs(s)
  {
    hide AllAsleep, DayHangs, EndHangs, Ended, Told.OpsHear, GatheringOk, OpenedOk, EndingOk, Waits, DispWaits, PipeOf;
    match PhaseOf(s.dir.pc)
    case Gathering => GatheringGoesOn(s);
    case Opened => OpenDayStands(s);
    case Closing => assert false;
    case Ending => EndStands(s);
  }

  lemma AsleepStands(s: State)
    requires BarrierOk(s) && s.sh.sim.s1 == 0 && !s.disp.pend1 && !s.disp.pend2 && AllAsleep(s)
    requires Ended(s) || DayHangs(s) || EndHangs(s)
    ensures Still(s)
  {
    forall step: Step ensures Apply(s, step) == s {
      match step
      case StepOp(i, a) => if i < |s.ops| { SleeperStays(s, i, a); }
      case StepDisp(a, req) => DispenserStays(s, a, req);
      case StepDir(arr, newUsers) => DirectorStays(s, arr, newUsers);
      case StepUser =>
    }
  }

  lemma SleeperStays(s: State, i: nat, a: Act)
    requires i < |s.ops| && Asleep(s.sh, s.ops[i])
    ensures Apply(s, StepOp(i, a)) == s
  {
    var o := s.ops[i];
    if a.Go? { GoesOnUnlessWaiting(s.cfg, s.sh, o, i + 1, a.choice); }
    hide OpGo;
    assert OpDo(s.cfg, s.sh, o, i + 1, a) == Result(s.sh, o);
    assert s.ops[i := o] == s.ops;
    hide OpDo;
  }

  lemma GatesSay(s: State)
    requires BarrierOk(s)
    ensures DayHangs(s) ==> s.sh.sim.s3 > 0 && s.sh.sim.s4 == 0
    ensures EndHangs(s) ==> s.sh.sim.s4 == 0
  {
    if DayHangs(s) {
      assert OpenedOk(s);
      AllStart(s.ops);
    } else if EndHangs(s) {
      assert EndingOk(s);
    }
  }

  lemma DispenserStays(s: State, a: Act, req: Request)
    requires BarrierOk(s) && !s.disp.pend1 && !s.disp.pend2 && (Ended(s) || DayHangs(s) || EndHangs(s))
    ensures Apply(s, StepDisp(a, req)) == s
  {
    GatesSay(s);
    if a.Go? { DispenserGoesOn(s, a.choice, req); }
    hide BarrierOk, DispGo;
  }

  lemma DirectorStays(s: State, arr: seq<int>, newUsers: nat)
    requires BarrierOk(s) && (Ended(s) || DayHangs(s) || EndHangs(s))
    ensures Apply(s, StepDir(arr, newUsers)) == s
  {
    GatesSay(s);
    DirectorGoesOn(s, arr, newUsers);
    hide BarrierOk, Apply;
  }

  // ----- what it means

  /** A run has come to a standstill exactly when no user has to start, no signal is on its way, every
      operator is asleep, and the simulation has ended, or the dispenser waits for an operator that is
      not done with the day, or it waits for a next day after it has noticed the end of the simulation. */
  lemma StandstillExactly(s: State)
    requires Reachable(s)
    ensures (forall step: Step :: Apply(s, step) == s)
       <==> && s.sh.sim.s1 == 0 && !s.disp.pend1 && !s.disp.pend2 && AllAsleep(s)
            && (Ended(s) || DayHangs(s) || EndHangs(s))
  {
    hide *;
    ReachableInv(s);
    Told.ReachableHears(s);
    Parts(s);
    StillOpen(s);
    if Still(s) { StillMeans(s); }
    if s.sh.sim.s1 == 0 && !s.disp.pend1 && !s.disp.pend2 && AllAsleep(s) && (Ended(s) || DayHangs(s) || EndHangs(s)) {
      AsleepStands(s);
    }
  }

  lemma StillOpen(s: State)
    ensures Still(s) <==> forall step: Step :: Apply(s, step) == s
  {
  }

  /** It waits for a permit or to be continued, and has noticed the end of the day already, or lost its
      signal when it cleared the flag at the start. */
  predicate Overslept(o: Op) {
    || ((o.pc.ODesk? || o.pc.OTicket?) && (o.sig.usr2 || o.log.missed))
    || (o.pc.OStopped? && !o.sig.usr2 && o.log.missed)
  }

  /** The only operators that can keep a day from ending are those that have left with an error and
      those that have overslept. */
  lemma HangsOnlyOnLostSignals(s: State)
    requires Reachable(s) && (forall step: Step :: Apply(s, step) == s) && s.dir.pc.DWaitStats?
    ensures exists i :: 0 <= i < |s.ops| && (s.ops[i].pc.OError? || Overslept(s.ops[i]))
    ensures forall i :: 0 <= i < |s.ops| ==> s.ops[i].pc.OStart? || s.ops[i].pc.OError? || Overslept(s.ops[i])
  {
    StandstillExactly(s);
    ReachableInv(s);
    Parts(s);
    hide Reachable, Apply, Inv;
    assert OpenedOk(s) && DayHangs(s);
    forall i | 0 <= i < |s.ops| ensures s.ops[i].pc.OStart? || s.ops[i].pc.OError? || Overslept(s.ops[i]) {
      Told.DayEndReaches(s, i);
      assert Asleep(s.sh, s.ops[i]);
    }
    hide BarrierOk, AllAsleep, Overslept, CoreOk, DaysOk;
  }

  // ----- both happen

  /** Dispenser and director open the first day, which everybody else has joined. */
  lemma DayOpens(b: State, s: State) returns (t: State)
    requires Leads(b, s) && s.dir.pc.DWait0? && s.disp.pc.EStart? && s.disp.first && !s.disp.simEnd && !s.disp.dayEnd
    requires s.sh.sim.s0 == 1 && s.sh.sim.s1 == 0 && s.sh.sim.s2 == 1 && s.sh.pipe != []
    ensures Leads(b, t)
    ensures t == s.(sh := s.sh.(sim := s.sh.sim.(s0 := 0, s2 := 0), hist := s.sh.hist.(day := s.sh.hist.day + 1),
                                pipe := s.sh.pipe[1..]),
                    disp := s.disp.(pc := ERecv, enabled := s.sh.pipe[0], days := s.disp.days + 1),
                    dir := s.dir.(pc := DDay))
  {
    hide Leads, DirReset, DirTurn, DirEnd, DispTake, DispIssue, DispClose, DispFinal;
    var r := s.(disp := s.disp.(pc := EJoin));
    DispLeads(b, s, Go(false), r);
    t := r.(sh := r.sh.(sim := r.sh.sim.(s0 := 0)), disp := r.disp.(pc := EGate, days := r.disp.days + 1));
    DispLeads(b, r, Go(false), t);
    r := t.(dir := t.dir.(pc := DWait1));
    DirLeads(b, t, r);
    t := r.(dir := r.dir.(pc := DOpen));
    DirLeads(b, r, t);
    r := t.(sh := t.sh.(sim := t.sh.sim.(s2 := 0), hist := t.sh.hist.(day := t.sh.hist.day + 1)),
            dir := t.dir.(pc := DDay));
    DirLeads(b, t, r);
    t := r.(disp := r.disp.(pc := ERead));
    DispLeads(b, r, Go(false), t);
    r := t;
    t := r.(sh := r.sh.(pipe := r.sh.pipe[1..]), disp := r.disp.(pc := ERecv, enabled := r.sh.pipe[0]));
    DispLeads(b, r, Go(false), t);
  }

  /** The director signals the end of the day, and the dispenser notices it and leaves its requests. */
  lemma DayIsOver(b: State, s: State) returns (t: State)
    requires Leads(b, s) && s.dir.pc.DDay? && |s.ops| <= 1 && s.disp.pc.ERecv?
    ensures Leads(b, t)
    ensures t == s.(ops := t.ops, disp := s.disp.(pc := EWait3, first := false, dayEnd := true, pend2 := false),
                    dir := s.dir.(pc := DWaitStats))
    ensures |t.ops| == |s.ops| && (|s.ops| == 1 ==> t.ops[0] == s.ops[0].(sig := s.ops[0].sig.(pend2 := true)))
  {
    hide Leads, DirDo, DispMorning, DispIssue, DispClose, DispFinal;
    var r := DaySignals(b, s);
    t := r.(disp := r.disp.(dayEnd := true, pend2 := false));
    DispLeads(b, r, DeliverDayEnd, t);
    r := t;
    t := r.(disp := r.disp.(pc := EWait3, first := false));
    DispLeads(b, r, Go(false), t);
  }

  lemma DaySignals(b: State, s: State) returns (t: State)
    requires Leads(b, s) && s.dir.pc.DDay? && |s.ops| <= 1
    ensures Leads(b, t)
    ensures t == s.(ops := t.ops, disp := s.disp.(pend2 := true), dir := s.dir.(pc := DWaitStats))
    ensures |t.ops| == |s.ops| && (|s.ops| == 1 ==> t.ops[0] == s.ops[0].(sig := s.ops[0].sig.(pend2 := true)))
  {
    hide Leads, DirReset, DirTurn, DirEnd;
    var r := s.(dir := s.dir.(pc := DSuspend(0)));
    DirLeads(b, s, r);
    t := r.(disp := r.disp.(pend2 := true), dir := r.dir.(pc := DSuspend(1)));
    DirLeads(b, r, t);
    if |s.ops| == 1 {
      r := t.(ops := Marked2(t.ops, 0), dir := t.dir.(pc := DSuspend(2)));
      DirLeads(b, t, r);
      t := r;
    }
    r := t.(dir := t.dir.(pc := DWaitStats));
    DirLeads(b, t, r);
    t := r;
  }

  /** One desk and one operator for service 1, no users. */
  const ONE := Setup(Config(1, 1, 1, 1), [1], [1], 0)

  lemma BeginOne()
    ensures var b := Begin(ONE);
            && b.cfg == ONE.cfg && b.ops == [NewOp(1)]
            && b.disp == Disp(EStart, true, false, false, false, false, [], 0)
            && b.dir == Dir(DPipe, true, [1], false, false)
            && b.sh == Shared(Gates(2, 0, 1, 1, 0), Locks(1, 1, 1), ZEROES, [1, 0, 0, 0, 0, 0], [], 1,
                              [Desk(1, 0, 0)], BLANK, [], 0, History(ZEROES, 0, []), Trace([], [], [], 0))
  {
    assert [1][1..] == [];
    assert AssignedAll([1]) == [1, 0, 0, 0, 0, 0];
  }

  /** An operator notices the end of the day after the last test of its flag and then waits for a ticket:
      the dispenser waits for it, the director for the dispenser, and nobody will ever go on. */
  lemma DayCanHang() returns (s: State)
    ensures Reachable(s) && s.dir.pc.DWaitStats? && s.disp.pc.EWait3?
    ensures |s.ops| == 1 && s.ops[0].pc.OTicket? && s.ops[0].sig.usr2 && !s.ops[0].log.missed
    ensures forall step: Step :: Apply(s, step) == s
  {
    hide Leads, Goes;
    BeginOne();
    var b := Begin(ONE);
    LeadsNowhere(b);
    var t := OperatorReadsFlag(b);
    s := DayIsOver(b, t);
    var o := s.ops[0].(sig := s.ops[0].sig.(usr2 := true, pend2 := false));
    s := OpLeads(b, s, 0, DeliverDayEnd, s.sh, o);
    BeginIsReachable(ONE);
    StaysReachable(b, s);
    StandstillExactly(s);
    assert s.ops[0] == o && Asleep(s.sh, o);
  }

  /** The operator has its desk and is about to wait for a ticket. */
  lemma OperatorReadsFlag(b: State) returns (t: State)
    requires b == Begin(ONE) && Leads(b, b)
    ensures Leads(b, t) && t.dir.pc.DDay? && t.disp.pc.ERecv? && !t.disp.pend1 && t.sh.sim.s1 == 0
    ensures |t.ops| == 1 && t.ops[0].pc.OTicket? && t.ops[0].sig == Signals(false, false, false, false)
    ensures !t.ops[0].log.missed && t.ops[0].service == 1 && Of(t.sh.tSem, 1) == 0
  {
    hide Leads, Goes;
    BeginOne();
    var s := b.(sh := b.sh.(pipe := [[1]]), dir := b.dir.(pc := DWait0));
    assert [] + [[1]] == [[1]];
    DirLeads(b, b, s);
    var o := NewOp(1);
    s := OpLeads(b, s, 0, Go(false), s.sh.(sim := s.sh.sim.(s0 := 1)), o.(pc := OGate, log := o.log.(days := 1)));
    s := DayOpens(b, s);
    s := OpLeads(b, s, 0, Go(false), s.sh, s.ops[0].(pc := OReady));
    assert FirstFree(s.sh.desks, 1) == 0;
    var q := ToDesk(s.cfg, 1, s.sh, s.ops[0]);
    GoesLeads(s, 0, q);
    t := s.(sh := q.sh, ops := s.ops[0 := q.o]);
    LeadsFurther(b, s, t);
    t := OpLeads(b, t, 0, Go(false), t.sh, t.ops[0].(pc := OTicket));
  }

  /** No desks, no operators, no users; one day. */
  const NOBODY := Setup(Config(1, 1, 1, 1), [], [], 0)

  lemma BeginNobody()
    ensures var b := Begin(NOBODY);
            && b.cfg == NOBODY.cfg && b.ops == []
            && b.disp == Disp(EStart, true, false, false, false, false, [], 0)
            && b.dir == Dir(DPipe, true, [], false, false)
            && b.sh == Shared(Gates(1, 0, 1, 0, 0), Locks(1, 1, 1), ZEROES, ZEROES, [], 1,
                              [], BLANK, [], 0, History(ZEROES, 0, []), Trace([], [], [], 0))
  {
    assert AssignedAll([]) == ZEROES;
  }

  /** The dispenser closes the day. */
  lemma DayIsClosed(b: State, s: State) returns (t: State)
    requires Leads(b, s) && s.disp.pc.EWait3? && !s.disp.simEnd && !s.disp.first && s.sh.sim.s3 == 0
    requires s.sh.mem.m2 == 1 && s.sh.queue == []
    ensures Leads(b, t)
    ensures t == s.(sh := s.sh.(stats := t.sh.stats, hist := t.sh.hist, trace := t.sh.trace,
                                sim := s.sh.sim.(s4 := s.sh.sim.s4 + 1)),
                    disp := s.disp.(pc := EWait2, dayEnd := false))
    ensures t.sh.stats.currentDay == s.sh.stats.currentDay + 1
  {
    hide Leads, Record, DispTake, DispIssue, DispFinal;
    var r := s.(disp := s.disp.(pc := EStatLock));
    DispLeads(b, s, Go(false), r);
    t := r.(sh := r.sh.(mem := r.sh.mem.(m2 := 0)), disp := r.disp.(pc := EStatWalk));
    DispLeads(b, r, Go(false), t);
    r := t.(sh := t.sh.(stats := Closed(t.sh.stats, []), hist := t.sh.hist.(closed := t.sh.hist.closed + [Record(t)]),
                        trace := Summed(t.sh.trace, DayClosed([]))),
            disp := t.disp.(pc := EStatUnlock));
    DispLeads(b, t, Go(false), r);
    t := r.(sh := r.sh.(mem := r.sh.mem.(m2 := 1)), disp := r.disp.(pc := EPost4));
    DispLeads(b, r, Go(false), t);
    r := t.(sh := t.sh.(sim := t.sh.sim.(s4 := t.sh.sim.s4 + 1)), disp := t.disp.(pc := EStart, dayEnd := false));
    DispLeads(b, t, Go(false), r);
    t := r.(disp := r.disp.(pc := EWait2, dayEnd := false));
    DispLeads(b, r, Go(false), t);
  }

  /** resetSem, in either of its two places, without operators and users. */
  lemma Resets(b: State, s: State, last: bool) returns (t: State)
    requires Leads(b, s) && s.dir.pc == DReset2(last) && s.ops == [] && s.sh.users == 0
    ensures Leads(b, t)
    ensures t == s.(sh := s.sh.(sim := Gates(1, 0, 1, 0, 0), tSem := ZEROES, trace := s.sh.trace.(passed := 0)),
                    dir := s.dir.(pc := if last then DEndSim(0) else DClear))
  {
    hide Leads, DirDay, DirTurn, DirEnd;
    t := s.(sh := s.sh.(sim := s.sh.sim.(s2 := 1)), dir := s.dir.(pc := DReset0(last)));
    DirLeads(b, s, t);
    var r := t.(sh := t.sh.(sim := t.sh.sim.(s0 := 1)), dir := t.dir.(pc := DReset1(last)));
    DirLeads(b, t, r);
    hide DirReset, DirDo;
    t := ResetsOn(b, r, last);
  }

  lemma ResetsOn(b: State, s: State, last: bool) returns (t: State)
    requires Leads(b, s) && s.dir.pc == DReset1(last) && s.ops == [] && s.sh.users == 0
    ensures Leads(b, t)
    ensures t == s.(sh := s.sh.(sim := s.sh.sim.(s1 := 0, s3 := 0, s4 := 0), tSem := ZEROES,
                                trace := s.sh.trace.(passed := 0)),
                    dir := s.dir.(pc := if last then DEndSim(0) else DClear))
  {
    hide Leads, DirDay, DirTurn, DirEnd;
    var r := s.(sh := s.sh.(sim := s.sh.sim.(s1 := 0), trace := s.sh.trace.(passed := 0)),
                dir := s.dir.(pc := DReset3(last)));
    DirLeads(b, s, r);
    t := r.(sh := r.sh.(sim := r.sh.sim.(s3 := 0)), dir := r.dir.(pc := DReset4(last)));
    DirLeads(b, r, t);
    r := t.(sh := t.sh.(sim := t.sh.sim.(s4 := 0)), dir := t.dir.(pc := DResetT(last)));
    DirLeads(b, t, r);
    t := r.(sh := r.sh.(tSem := ZEROES), dir := r.dir.(pc := if last then DEndSim(0) else DClear));
    DirLeads(b, r, t);
  }

  /** The director takes up the statistics of the last day and decides to stop. */
  lemma Decides(b: State, s: State) returns (t: State)
    requires Leads(b, s) && s.dir.pc == DClear && s.ops == [] && s.sh.stats.currentDay == s.cfg.duration
    ensures Leads(b, t)
    ensures t == s.(sh := t.sh, dir := t.dir) && t.sh.sim == s.sh.sim && t.sh.users == s.sh.users
    ensures t.dir.pc == DReset2(true)
  {
    hide Leads, DirDay, DirReset, DirEnd, Vacated, Called;
    t := DirTurn(s, [], 0);
    DirLeads(b, s, t);
    var r := t.(dir := t.dir.(pc := DDecide));
    DirLeads(b, t, r);
    hide DirTurn, DirDo;
    t := Stops(b, r);
  }

  lemma Stops(b: State, s: State) returns (t: State)
    requires Leads(b, s) && s.dir.pc == DDecide && s.sh.stats.currentDay == s.cfg.duration
    ensures Leads(b, t) && t == s.(dir := t.dir) && t.dir.pc == DReset2(true)
  {
    hide Leads, DirDay, DirReset, DirEnd, Reassigned;
    var r := s.(dir := s.dir.(pc := DExplode, timeout := true));
    DirLeads(b, s, r);
    t := r.(dir := r.dir.(pc := DReset2(true), explode := r.sh.stats.notServedDay >= r.cfg.threshold));
    DirLeads(b, r, t);
  }

  lemma SendsEnd(b: State, s: State) returns (t: State)
    requires Leads(b, s) && s.dir.pc == DEndSim(0) && s.ops == []
    ensures Leads(b, t)
    ensures t == s.(disp := s.disp.(pend1 := true), dir := s.dir.(pc := DWaitFinal))
  {
    hide Leads, DirDay, DirReset, DirTurn;
    var r := s.(disp := s.disp.(pend1 := true), dir := s.dir.(pc := DEndSim(1)));
    DirLeads(b, s, r);
    t := r.(dir := r.dir.(pc := DWaitFinal));
    DirLeads(b, r, t);
  }

  lemma LastDay(b: State, s: State) returns (t: State)
    requires Leads(b, s) && s.dir.pc.DWaitStats? && s.ops == [] && s.sh.users == 0
    requires s.sh.sim.s4 == 1 && s.sh.sim.s1 == 0 && s.sh.stats.currentDay == s.cfg.duration
    ensures Leads(b, t)
    ensures t.cfg == s.cfg && t.ops == [] && t.disp == s.disp.(pend1 := true) && t.dir.pc.DWaitFinal?
    ensures t.sh.sim == Gates(1, 0, 1, 0, 0)
  {
    hide Leads, DirReset, DirTurn, DirEnd;
    var r := s.(sh := s.sh.(sim := s.sh.sim.(s4 := 0)), dir := s.dir.(pc := DReset2(false), first := false));
    DirLeads(b, s, r);
    hide DirDo;
    t := Resets(b, r, false);
    r := Decides(b, t);
    t := Resets(b, r, true);
    t := SendsEnd(b, t);
  }

  /** The dispenser notices the end of the simulation after the last test of its flag and then waits for
      the next day: the director waits for its last statistics, and nobody will ever go on. */
  lemma EndCanHang() returns (s: State)
    ensures Reachable(s) && s.dir.pc.DWaitFinal? && s.disp.pc.EWait2? && s.disp.simEnd
    ensures forall step: Step :: Apply(s, step) == s
  {
    hide Leads;
    BeginNobody();
    var b := Begin(NOBODY);
    LeadsNowhere(b);
    var t := b.(sh := b.sh.(pipe := [[]]), dir := b.dir.(pc := DWait0));
    assert [] + [b.dir.arr] == [[]];
    DirLeads(b, b, t);
    t := DayOpens(b, t);
    t := DayIsOver(b, t);
    t := DayIsClosed(b, t);
    t := LastDay(b, t);
    s := t.(disp := t.disp.(simEnd := true, pend1 := false));
    DispLeads(b, t, DeliverSimEnd, s);
    BeginIsReachable(NOBODY);
    StaysReachable(b, s);
    StandstillExactly(s);
  }
}
