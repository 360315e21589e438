/** What holds across days: the totals agree, tickets are only for services on offer, nobody is
    a day ahead or behind, and the run ends with the right day. */
module Days {
  import opened Office
  import opened Processes
  import opened Tallies
  import opened Frames
  import opened Barrier
  import opened Core
  import opened Director
  import opened Books

  // ----- totals

  predicate TotalsAgree(c: Counters) {
    && c.dailyAll == Total(c.daily)
    && c.providedAll == Total(c.provided) && c.usersAll == Total(c.provided)
    && c.notProvidedAll == Total(c.notProvided)
  }

  lemma ProvidedKeepsTotals(c: Counters, s: Service)
    requires TotalsAgree(c)
    ensures TotalsAgree(Provided(c, s))
  {
  }

  lemma {:induction false} WalkKeepsTotals(c: Counters, q: seq<Ticket>)
    requires TotalsAgree(c)
    ensures TotalsAgree(Walked(c, q))
    decreases |q|
  {
    if q != [] {
      TotalBump(c.notProvided, q[0].service);
      WalkKeepsTotals(c.(notProvided := Bump(c.notProvided, q[0].service),
                         notProvidedAll := c.notProvidedAll + 1, notServedDay := c.notServedDay + 1), q[1..]);
    }
  }

  lemma CloseKeepsTotals(c: Counters, q: seq<Ticket>)
    requires TotalsAgree(c)
    ensures TotalsAgree(Closed(c, q))
  {
    WalkKeepsTotals(c.(activeAll := c.activeAll + c.active, pausesAll := c.pausesAll + c.pauses), q);
    hide Walked, Total;
  }

  lemma OpKeepsTotals(s: State, i: nat, a: Act)
    requires TotalsAgree(s.sh.stats) && CoreOk(s) && i < |s.ops|
    ensures TotalsAgree(Apply(s, StepOp(i, a)).sh.stats)
  {
    ReadyToMove(s, i);
    OpData(s.cfg, s.sh, s.ops[i], i + 1, a);
    ProvidedKeepsTotals(s.sh.stats, s.ops[i].service);
    hide OpDo, CoreOk, Provided, Total, OwnerLaw, Ready;
  }

  lemma DispKeepsTotals(s: State, t: State)
    requires TotalsAgree(s.sh.stats) && DispWrites(s, t)
    ensures TotalsAgree(t.sh.stats)
  {
    CloseKeepsTotals(s.sh.stats, s.sh.queue);
    hide Closed, Record;
  }

  // ----- services on offer

  predicate AllOffered(q: seq<Ticket>, arr: seq<int>) {
    forall j :: 0 <= j < |q| ==> q[j].service in arr
  }

  predicate RequestOffered(pc: DispPc, arr: seq<int>) {
    match pc
    case ECheck(r) => r.service in arr
    case ELock(r) => r.service in arr
    case EInsert(r) => r.service in arr
    case _ => true
  }

  predicate Reading(pc: DispPc) {
    match pc
    case ERecv | ECheck(_) | ELock(_) | EInsert(_) | EPost(_) | EUnlock => true
    case _ => false
  }

  /** The director's assignment of the day is in the pipe from its write to the dispenser's read. */
  function PipeOf(s: State): seq<seq<int>> {
    match PhaseOf(s.dir.pc)
    case Opened => if s.disp.pc.EGate? || s.disp.pc.ERead? then [s.dir.arr] else []
    case Gathering => if s.dir.pc.DPost2? || Posted(s.dir.pc) then [s.dir.arr] else []
    case _ => []
  }

  predicate ServicesOk(s: State) {
    && AllOffered(s.sh.queue, s.dir.arr)
    && s.sh.pipe == PipeOf(s)
    && (Reading(s.disp.pc) ==> s.disp.enabled == s.dir.arr && RequestOffered(s.disp.pc, s.dir.arr))
  }

  lemma OpKeepsServices(s: State, i: nat, a: Act)
    requires ServicesOk(s) && CoreOk(s) && i < |s.ops|
    ensures ServicesOk(Apply(s, StepOp(i, a)))
  {
    ReadyToMove(s, i);
    OpData(s.cfg, s.sh, s.ops[i], i + 1, a);
    var r := OpDo(s.cfg, s.sh, s.ops[i], i + 1, a);
    hide OpDo, CoreOk, Provided;
    assert Apply(s, StepOp(i, a)) == s.(sh := r.sh, ops := s.ops[i := r.o]);
  }

  /** A ticket enters the queue only for a service read from the pipe this morning, and the
      dispenser reads the array the director wrote for this very day. */
  lemma DispKeepsServices(s: State, t: State)
    requires ServicesOk(s) && BarrierOk(s) && BarrierOk(t) && DispWrites(s, t) && DispFlows(s, t)
    ensures ServicesOk(t)
  {
    PipeStaysRead(s, t);
    hide BarrierOk, Bump, Closed, Record, DayReset, PipeOf;
  }

  lemma PipeStaysRead(s: State, t: State)
    requires s.sh.pipe == PipeOf(s) && BarrierOk(s) && BarrierOk(t) && t.dir == s.dir && DispFlows(s, t)
    ensures t.sh.pipe == PipeOf(t)
    ensures s.disp.pc.ERead? && t.disp.pc.ERecv? ==> t.disp.enabled == s.dir.arr
  {
  }

  /** What the director's steps do to the pipe and to the day's assignment. */
  lemma DirServices(s: State, arr: seq<int>, newUsers: nat)
    requires s.sh.pipe == PipeOf(s) && BarrierOk(s)
    ensures var t := Apply(s, StepDir(arr, newUsers));
            && t.sh.pipe == PipeOf(t) && t.disp.pc == s.disp.pc && t.disp.enabled == s.disp.enabled
            && (t.dir.arr == s.dir.arr || s.dir.pc.DDecide?)
            && (t.sh.queue == s.sh.queue || t.sh.queue == [])
  {
    hide BarrierOk, DirDay, DirReset, DirTurn, DirEnd;
    match s.dir.pc
    case DPipe | DPost2 | DWait0 | DWait1 | DOpen | DDay | DSuspend(_) | DWaitStats => DayServices(s);
    case DReset2(_) | DReset0(_) | DReset1(_) | DReset3(_) | DReset4(_) | DResetT(_) => ResetServices(s);
    case DClear | DUsers | DDecide | DApply | DExplode => TurnServices(s, arr, newUsers);
    case DEndSim(_) | DWaitFinal | DDone => EndServices(s);
  }

  predicate SameReading(s: State, t: State) {
    && t.sh.pipe == PipeOf(t) && t.disp.pc == s.disp.pc && t.disp.enabled == s.disp.enabled
    && t.sh.queue == s.sh.queue && t.dir.arr == s.dir.arr
  }

  lemma DayServices(s: State)
    requires s.sh.pipe == PipeOf(s) && BarrierOk(s)
    requires s.dir.pc.DPipe? || s.dir.pc.DPost2? || Posted(s.dir.pc) || PhaseOf(s.dir.pc) == Opened
    ensures SameReading(s, DirDay(s))
  {
    hide Sum;
    match s.dir.pc
    case DPipe =>
    case DPost2 =>
    case DWait0 =>
    case DWait1 =>
    case DOpen => assert GatheringOk(s);
    case DDay =>
    case DSuspend(_) =>
    case DWaitStats => assert OpenedOk(s);
    case _ =>
  }

  lemma ResetServices(s: State)
    requires s.sh.pipe == PipeOf(s)
    ensures SameReading(s, DirReset(s)) || DirReset(s) == s
  {
    match s.dir.pc
    case DReset2(l) =>
    case DReset0(l) =>
    case DReset1(l) =>
    case DReset3(l) =>
    case DReset4(l) =>
    case DResetT(l) =>
    case _ =>
  }

  lemma EndServices(s: State)
    requires s.sh.pipe == PipeOf(s) && PhaseOf(s.dir.pc) == Ending
    ensures SameReading(s, DirEnd(s))
  {
  }

  lemma TurnServices(s: State, arr: seq<int>, newUsers: nat)
    requires s.sh.pipe == PipeOf(s)
    ensures var t := DirTurn(s, arr, newUsers);
            && t.sh.pipe == PipeOf(t) && t.disp == s.disp
            && (t.dir.arr == s.dir.arr || s.dir.pc.DDecide?)
            && (t.sh.queue == s.sh.queue || t.sh.queue == [])
  {
    match s.dir.pc
    case DClear =>
    case DUsers =>
    case DDecide =>
    case DApply =>
    case DExplode =>
    case _ =>
  }

  lemma DirKeepsServices(s: State, arr: seq<int>, newUsers: nat)
    requires ServicesOk(s) && BarrierOk(s) && NightBooks(s)
    ensures ServicesOk(Apply(s, StepDir(arr, newUsers)))
  {
    var t := Apply(s, StepDir(arr, newUsers));
    DirServices(s, arr, newUsers);
    if s.dir.pc.DDecide? {
      assert GatheringOk(s);
    }
    hide Apply, BarrierOk, PipeOf, GatheringOk;
  }

  // ----- nobody is a day ahead or behind

  /** Days joined, against the number of days opened. */
  predicate InStep(o: Op, day: nat, open: bool) {
    if open then o.log.days == day
    else match o.pc
      case OStart => o.log.days == day
      case OGate => o.log.days == day + 1
      case _ => day <= o.log.days <= day + 1
  }

  predicate DaysOk(s: State) {
    var day := s.sh.hist.day;
    && (forall i :: 0 <= i < |s.ops| ==> InStep(s.ops[i], day, DayLives(s.dir.pc)))
    && s.disp.days == day + One(s.disp.pc.EGate? && !DayLives(s.dir.pc))
  }

  lemma OpKeepsDays(s: State, i: nat, a: Act)
    requires DaysOk(s) && BarrierOk(s) && CoreOk(s) && i < |s.ops|
    ensures DaysOk(Apply(s, StepOp(i, a)))
  {
    var r := OpDo(s.cfg, s.sh, s.ops[i], i + 1, a);
    OpSync(s.cfg, s.sh, s.ops[i], i + 1, a);
    OpStep(s, i, a);
    hide OpDo, CoreOk, Sum, Apply;
    if !DayLives(s.dir.pc) {
      assert Parked(s.ops[i].pc);
    } else {
      assert s.sh.sim.s0 == 0;
    }
    assert InStep(r.o, s.sh.hist.day, DayLives(s.dir.pc)) by {
      assert InStep(s.ops[i], s.sh.hist.day, DayLives(s.dir.pc));
    }
    hide InStep, BarrierOk;
  }

  lemma DispKeepsDays(s: State, t: State)
    requires DaysOk(s) && BarrierOk(s) && BarrierOk(t) && DispFlows(s, t) && DispWrites(s, t)
    ensures DaysOk(t)
  {
  }

  /** Opening the gate makes the day everybody has joined the current one; refilling simSem[0]
      finds everybody back at the start. */
  lemma DirKeepsDays(s: State, t: State)
    requires DaysOk(s) && BarrierOk(s) && DirFlows(s, t) && DirSpares(s, t)
    ensures DaysOk(t)
  {
    if s.dir.pc.DOpen? {
      assert GatheringOk(s);
      SumZero(Starts, s.ops);
    } else if PhaseOf(s.dir.pc) == Closing {
      assert ClosingOk(s);
      AllStart(s.ops);
    }
    hide Sum, BarrierOk;
    assert SameDay(s, t) by {
      DirPhases(s.dir.pc, t.dir.pc);
    }
    hide DirFlows;
    forall i | 0 <= i < |t.ops| ensures InStep(t.ops[i], t.sh.hist.day, DayLives(t.dir.pc)) {
      assert InStep(s.ops[i], s.sh.hist.day, DayLives(s.dir.pc));
      assert t.ops[i].pc == s.ops[i].pc && t.ops[i].log == s.ops[i].log;
    }
    hide InStep;
  }

  /** The day changes only when the gate opens, and the part of the day only then and when
      simSem[0] is refilled. */
  predicate SameDay(s: State, t: State) {
    if s.dir.pc.DOpen? && t.dir.pc != s.dir.pc then DayLives(t.dir.pc) && t.sh.hist.day == s.sh.hist.day + 1
    else t.sh.hist.day == s.sh.hist.day
         && (DayLives(t.dir.pc) == DayLives(s.dir.pc)
             || (PhaseOf(s.dir.pc) == Closing && PhaseOf(t.dir.pc) == Gathering))
  }
}
