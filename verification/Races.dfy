/** Who touches the ticket queue, the desks and the statistics at which program point, and exactly
    when two processes are at conflicting accesses. */
module Races {
  import opened Office
  import opened Processes
  import opened Tallies
  import opened Frames
  import opened Barrier
  import opened Core
  import opened Director
  import opened Invariant
  import opened Theorems

  datatype Datum = QueueData | DeskData | StatData

  datatype Process = AnOperator(i: nat) | TheDispenser | TheDirector

  // ----- the accesses

  predicate OpWrites(pc: OpPc, d: Datum) {
    match d
    case QueueData => pc.OServe?
    case DeskData => pc.OReserve? || pc.OPauseFree? || pc.OCloseFree?
    case StatData => Writing(pc)
  }

  /** OPause is the test of daily_pause, which takes no mutex. */
  predicate OpUses(pc: OpPc, d: Datum) {
    || OpWrites(pc, d)
    || (d.StatData? && (pc.OCountRead? || pc.OStatRead? || pc.OPauseRead? || pc.OPause?))
  }

  predicate DispWritesTo(pc: DispPc, d: Datum) {
    match d
    case QueueData => pc.EInsert?
    case DeskData => false
    case StatData => pc.EReset? || pc.EStatWalk? || pc.EFinal?
  }

  predicate DispUses(pc: DispPc, d: Datum) {
    DispWritesTo(pc, d) || pc.EStatWalk?
  }

  predicate DirWrites(pc: DirPc, d: Datum) {
    match d
    case QueueData => pc.DClear?
    case DeskData => pc.DClear? || pc.DDecide?
    case StatData => false
  }

  /** The last two points read the statistics for printing. */
  predicate DirUses(pc: DirPc, d: Datum) {
    || DirWrites(pc, d)
    || (d.StatData? && (pc.DDecide? || pc.DExplode? || pc == DReset2(false) || pc.DDone?))
  }

  predicate Uses(s: State, p: Process, d: Datum) {
    match p
    case AnOperator(i) => i < |s.ops| && OpUses(s.ops[i].pc, d)
    case TheDispenser => DispUses(s.disp.pc, d)
    case TheDirector => DirUses(s.dir.pc, d)
  }

  predicate Writes(s: State, p: Process, d: Datum) {
    match p
    case AnOperator(i) => i < |s.ops| && OpWrites(s.ops[i].pc, d)
    case TheDispenser => DispWritesTo(s.disp.pc, d)
    case TheDirector => DirWrites(s.dir.pc, d)
  }

  // ----- the lists miss no access

  /** sh with one datum taken from x. */
  function Put(sh: Shared, d: Datum, x: Shared): Shared {
    match d
    case QueueData => sh.(queue := x.queue)
    case DeskData => sh.(desks := x.desks)
    case StatData => sh.(stats := x.stats)
  }

  /** r and q are outcomes of the same step without and with the datum replaced. */
  predicate Unaffected(r: Result, q: Result, d: Datum, x: Shared) {
    q == Result(Put(r.sh, d, x), r.o)
  }

  lemma GateIgnores(sh: Shared, o: Op, d: Datum, x: Shared)
    requires RegionOf(o.pc) == Gate && !OpUses(o.pc, d)
    ensures Unaffected(GateGo(sh, o), GateGo(Put(sh, d, x), o), d, x)
  {
  }

  lemma DeskIgnores(sh: Shared, o: Op, pid: nat, d: Datum, x: Shared)
    requires RegionOf(o.pc) == AtDesk && !OpUses(o.pc, d)
    ensures Unaffected(DeskGo(sh, o, pid), DeskGo(Put(sh, d, x), o, pid), d, x)
  {
  }

  lemma CountIgnores(sh: Shared, o: Op, d: Datum, x: Shared)
    requires RegionOf(o.pc) == Counting && !OpUses(o.pc, d)
    ensures Unaffected(CountGo(sh, o), CountGo(Put(sh, d, x), o), d, x)
  {
  }

  lemma TicketIgnores(sh: Shared, o: Op, d: Datum, x: Shared)
    requires RegionOf(o.pc) == AtTicket && !OpUses(o.pc, d)
    ensures Unaffected(TicketGo(sh, o), TicketGo(Put(sh, d, x), o), d, x)
  {
  }

  lemma ServeIgnores(sh: Shared, o: Op, d: Datum, x: Shared)
    requires RegionOf(o.pc) == Serving && !OpUses(o.pc, d)
    ensures Unaffected(ServeGo(sh, o), ServeGo(Put(sh, d, x), o), d, x)
  {
  }

  lemma SessionIgnores(sh: Shared, o: Op, d: Datum, x: Shared)
    requires RegionOf(o.pc) == Session && !OpUses(o.pc, d)
    ensures Unaffected(SessionGo(sh, o), SessionGo(Put(sh, d, x), o), d, x)
  {
  }

  lemma StatIgnores(sh: Shared, o: Op, d: Datum, x: Shared)
    requires RegionOf(o.pc) == Updating && !OpUses(o.pc, d)
    ensures Unaffected(StatGo(sh, o), StatGo(Put(sh, d, x), o), d, x)
  {
  }

  lemma PauseIgnores(cfg: Config, sh: Shared, o: Op, pid: nat, choice: bool, d: Datum, x: Shared)
    requires RegionOf(o.pc) == Pausing && !OpUses(o.pc, d)
    ensures Unaffected(PauseGo(cfg, sh, o, pid, choice), PauseGo(cfg, Put(sh, d, x), o, pid, choice), d, x)
  {
  }

  lemma RestIgnores(sh: Shared, o: Op, d: Datum, x: Shared)
    requires RegionOf(o.pc) == Paused && !OpUses(o.pc, d)
    ensures Unaffected(RestGo(sh, o), RestGo(Put(sh, d, x), o), d, x)
  {
  }

  lemma CloseIgnores(sh: Shared, o: Op, pid: nat, d: Datum, x: Shared)
    requires RegionOf(o.pc) == Leaving && !OpUses(o.pc, d)
    ensures Unaffected(CloseGo(sh, o, pid), CloseGo(Put(sh, d, x), o, pid), d, x)
  {
  }

  /** The outcome of an operator's step depends on nothing it is not listed to use. */
  lemma OpIgnores(cfg: Config, sh: Shared, o: Op, pid: nat, a: Act, d: Datum, x: Shared)
    requires !OpUses(o.pc, d)
    ensures Unaffected(OpDo(cfg, sh, o, pid, a), OpDo(cfg, Put(sh, d, x), o, pid, a), d, x)
  {
    hide GateGo, DeskGo, CountGo, TicketGo, ServeGo, SessionGo, StatGo, PauseGo, RestGo, CloseGo;
    if a.Go? {
      match RegionOf(o.pc)
      case Gate => GateIgnores(sh, o, d, x);
      case AtDesk => DeskIgnores(sh, o, pid, d, x);
      case Counting => CountIgnores(sh, o, d, x);
      case AtTicket => TicketIgnores(sh, o, d, x);
      case Serving => ServeIgnores(sh, o, d, x);
      case Session => SessionIgnores(sh, o, d, x);
      case Updating => StatIgnores(sh, o, d, x);
      case Pausing => PauseIgnores(cfg, sh, o, pid, a.choice, d, x);
      case Paused => RestIgnores(sh, o, d, x);
      case Leaving => CloseIgnores(sh, o, pid, d, x);
      case Gone =>
    }
  }

  function With(s: State, d: Datum, x: Shared): State { s.(sh := Put(s.sh, d, x)) }

  lemma MorningIgnores(s: State, d: Datum, x: Shared)
    requires !DispUses(s.disp.pc, d)
    ensures DispMorning(With(s, d, x)) == With(DispMorning(s), d, x)
  {
    hide DayReset;
    if s.disp.pc.EReset? {
      assert !d.StatData?;
    } else {
      var sh := Put(s.sh, d, x);
      assert sh.sim == s.sh.sim && sh.pipe == s.sh.pipe;
    }
  }

  lemma TakeIgnores(s: State, req: Request, d: Datum, x: Shared)
    requires !DispUses(s.disp.pc, d)
    ensures DispTake(With(s, d, x), req) == With(DispTake(s, req), d, x)
  {
  }

  lemma IssueIgnores(s: State, d: Datum, x: Shared)
    requires !DispUses(s.disp.pc, d)
    ensures DispIssue(With(s, d, x)) == With(DispIssue(s), d, x)
  {
    hide Bump;
  }

  lemma CloseIgnoresData(s: State, d: Datum, x: Shared)
    requires !DispUses(s.disp.pc, d)
    ensures DispClose(With(s, d, x)) == With(DispClose(s), d, x)
  {
    hide Closed, Record;
  }

  lemma FinalIgnores(s: State, d: Datum, x: Shared)
    requires !DispUses(s.disp.pc, d)
    ensures DispFinal(With(s, d, x)) == With(DispFinal(s), d, x)
  {
  }

  /** The same for the dispenser. */
  lemma DispIgnores(s: State, a: Act, req: Request, d: Datum, x: Shared)
    requires !DispUses(s.disp.pc, d)
    ensures DispDo(With(s, d, x), a, req) == With(DispDo(s, a, req), d, x)
  {
    hide DispMorning, DispTake, DispIssue, DispClose, DispFinal;
    if a.Go? {
      match s.disp.pc
      case EStart | EWait2 | EReset | EJoin | EGate | ERead => MorningIgnores(s, d, x);
      case ERecv | ECheck(_) | ELock(_) => TakeIgnores(s, req, d, x);
      case EInsert(_) | EPost(_) | EUnlock => IssueIgnores(s, d, x);
      case EWait3 | EStatLock | EStatWalk | EStatUnlock | EPost4 => CloseIgnoresData(s, d, x);
      case EFinalLock | EFinal | EFinalUnlock | EFinalPost | EDone => FinalIgnores(s, d, x);
    }
  }

  lemma DayIgnores(s: State, d: Datum, x: Shared)
    ensures DirDay(With(s, d, x)) == With(DirDay(s), d, x)
  {
    hide Marked2;
    match s.dir.pc
    case DPipe =>
    case DPost2 =>
    case DSuspend(_) =>
    case DWaitStats =>
    case _ =>
  }

  lemma ResetIgnores(s: State, d: Datum, x: Shared)
    ensures DirReset(With(s, d, x)) == With(DirReset(s), d, x)
  {
  }

  lemma TurnIgnores(s: State, arr: seq<int>, newUsers: nat, d: Datum, x: Shared)
    requires !DirUses(s.dir.pc, d)
    ensures DirTurn(With(s, d, x), arr, newUsers) == With(DirTurn(s, arr, newUsers), d, x)
  {
  }

  lemma EndIgnores(s: State, d: Datum, x: Shared)
    ensures DirEnd(With(s, d, x)) == With(DirEnd(s), d, x)
  {
  }

  /** And for the director. */
  lemma DirIgnores(s: State, arr: seq<int>, newUsers: nat, d: Datum, x: Shared)
    requires !DirUses(s.dir.pc, d)
    ensures DirDo(With(s, d, x), arr, newUsers) == With(DirDo(s, arr, newUsers), d, x)
  {
    hide DirDay, DirReset, DirTurn, DirEnd;
    match s.dir.pc
    case DPipe | DPost2 | DWait0 | DWait1 | DOpen | DDay | DSuspend(_) | DWaitStats => DayIgnores(s, d, x);
    case DReset2(_) | DReset0(_) | DReset1(_) | DReset3(_) | DReset4(_) | DResetT(_) => ResetIgnores(s, d, x);
    case DClear | DUsers | DDecide | DApply | DExplode => TurnIgnores(s, arr, newUsers, d, x);
    case DEndSim(_) | DWaitFinal | DDone => EndIgnores(s, d, x);
  }

  // ----- only the listed writers write

  lemma OpWriters(cfg: Config, sh: Shared, o: Op, pid: nat, a: Act, d: Datum)
    requires Ready(sh, o, pid) && !OpWrites(o.pc, d)
    ensures OpDo(cfg, sh, o, pid, a).sh == Put(OpDo(cfg, sh, o, pid, a).sh, d, sh)
  {
    if OpUses(o.pc, d) {
      OpData(cfg, sh, o, pid, a);
    } else {
      OpIgnores(cfg, sh, o, pid, a, d, sh);
      assert Put(sh, d, sh) == sh;
    }
    hide OpDo, Ready;
  }

  lemma DispWriters(s: State, t: State, d: Datum)
    requires DispWrites(s, t) && !DispWritesTo(s.disp.pc, d)
    ensures t.sh == Put(t.sh, d, s.sh)
  {
  }

  lemma DirWriters(s: State, t: State, arr: seq<int>, newUsers: nat, d: Datum)
    requires t == DirDo(s, arr, newUsers) && !DirWrites(s.dir.pc, d)
    ensures t.sh == Put(t.sh, d, s.sh)
  {
    if DirUses(s.dir.pc, d) {
      DirStep(s, arr, newUsers);
    } else {
      DirIgnores(s, arr, newUsers, d, s.sh);
      assert With(s, d, s.sh) == s;
    }
    hide DirDo;
  }

  predicate Changes(s: State, step: Step, d: Datum) { Apply(s, step).sh != Put(Apply(s, step).sh, d, s.sh) }

  lemma OpChanges(s: State, i: nat, a: Act, d: Datum)
    requires CoreOk(s) && Changes(s, StepOp(i, a), d)
    ensures Writes(s, AnOperator(i), d)
  {
    if i < |s.ops| && !OpWrites(s.ops[i].pc, d) {
      ReadyToMove(s, i);
      hide OpDo, Ready, CoreOk;
      OpWriters(s.cfg, s.sh, s.ops[i], i + 1, a, d);
    }
  }

  lemma DispChanges(s: State, a: Act, req: Request, d: Datum)
    requires Changes(s, StepDisp(a, req), d)
    ensures Writes(s, TheDispenser, d)
  {
    DispFrame(s, a, req);
    hide Apply;
    if !DispWritesTo(s.disp.pc, d) { DispWriters(s, Apply(s, StepDisp(a, req)), d); }
  }

  lemma DirChanges(s: State, arr: seq<int>, newUsers: nat, d: Datum)
    requires Changes(s, StepDir(arr, newUsers), d)
    ensures Writes(s, TheDirector, d)
  {
    hide DirDo;
    if !DirWrites(s.dir.pc, d) { DirWriters(s, Apply(s, StepDir(arr, newUsers)), arr, newUsers, d); }
  }

  /** A datum is changed only by a process at a program point that is listed to write it. */
  lemma WritersAreListed(s: State, step: Step, d: Datum)
    requires Reachable(s) && Changes(s, step, d)
    ensures match step
            case StepOp(i, _) => Writes(s, AnOperator(i), d)
            case StepDisp(_, _) => Writes(s, TheDispenser, d)
            case StepDir(_, _) => Writes(s, TheDirector, d)
            case StepUser => false
  {
    hide Reachable, CoreOk;
    Facts(s);
    hide Changes;
    match step
    case StepOp(i, a) => OpChanges(s, i, a, d);
    case StepDisp(a, req) => DispChanges(s, a, req, d);
    case StepDir(arr, newUsers) => DirChanges(s, arr, newUsers, d);
    case StepUser => UserChanges(s, d);
  }

  lemma UserChanges(s: State, d: Datum)
    ensures !Changes(s, StepUser, d)
  {
  }

  // ----- conflicts

  /** Two processes are at accesses of the same datum and one of them writes it. */
  predicate Conflict(s: State, p: Process, q: Process, d: Datum) {
    p != q && Uses(s, p, d) && Uses(s, q, d) && (Writes(s, p, d) || Writes(s, q, d))
  }

  /** p tests the pause limit while q updates the statistics. */
  predicate Peeks(s: State, p: Process, q: Process) {
    && p.AnOperator? && q.AnOperator? && p.i < |s.ops| && q.i < |s.ops|
    && s.ops[p.i].pc.OPause? && Writing(s.ops[q.i].pc)
  }

  lemma OperatorsConflict(s: State, i: nat, j: nat, d: Datum)
    requires Mutexes(s) && i < |s.ops| && j < |s.ops| && i != j
    ensures var p, q := AnOperator(i), AnOperator(j);
            Conflict(s, p, q, d) <==> d.StatData? && (Peeks(s, p, q) || Peeks(s, q, p))
  {
    MutexExcludes(s, i, j);
    hide Mutexes;
  }

  lemma OperatorExcludesDispenser(s: State, i: nat, d: Datum)
    requires BarrierOk(s) && Mutexes(s) && i < |s.ops| && OpUses(s.ops[i].pc, d)
    ensures !DispUses(s.disp.pc, d)
  {
    MutexExcludesDispenser(s, i);
    WorksInDay(s, i);
    AllStart(s.ops);
    assert OpenedOk(s);
    hide Mutexes, Sum;
  }

  lemma OperatorExcludesDirector(s: State, i: nat, d: Datum)
    requires BarrierOk(s) && i < |s.ops| && OpUses(s.ops[i].pc, d)
    ensures !DirUses(s.dir.pc, d)
  {
    WorksInDay(s, i);
  }

  lemma DispenserExcludesDirector(s: State, d: Datum)
    requires BarrierOk(s)
    ensures !(DispUses(s.disp.pc, d) && DirUses(s.dir.pc, d))
  {
    hide Sum;
    match PhaseOf(s.dir.pc)
    case Gathering => assert GatheringOk(s);
    case Opened =>
    case Closing => assert ClosingOk(s);
    case Ending => assert EndingOk(s);
  }

  /** Two processes conflict exactly when one is an operator that tests the pause limit and the
      other an operator that updates the statistics; although the daily reset, the walk, the
      clearing and the reassignment of services take no mutex of the data either. */
  lemma ConflictsExactly(s: State, p: Process, q: Process, d: Datum)
    requires Reachable(s)
    ensures Conflict(s, p, q, d) <==> p != q && d.StatData? && (Peeks(s, p, q) || Peeks(s, q, p))
  {
    hide Reachable;
    Facts(s);
    assert Mutexes(s);
    hide CoreOk;
    if p.AnOperator? && q.AnOperator? {
      if p.i < |s.ops| && q.i < |s.ops| && p != q { OperatorsConflict(s, p.i, q.i, d); }
    } else if p != q && Uses(s, p, d) {
      if p.AnOperator? {
        OperatorExcludesDispenser(s, p.i, d);
        OperatorExcludesDirector(s, p.i, d);
      } else if q.AnOperator? {
        if Uses(s, q, d) { OthersExclude(s, q, d); }
      } else {
        DispenserExcludesDirector(s, d);
      }
    }
  }

  lemma OthersExclude(s: State, q: Process, d: Datum)
    requires BarrierOk(s) && Mutexes(s) && q.AnOperator? && Uses(s, q, d)
    ensures !DispUses(s.disp.pc, d) && !DirUses(s.dir.pc, d)
  {
    OperatorExcludesDispenser(s, q.i, d);
    OperatorExcludesDirector(s, q.i, d);
  }
}
