/** What the steps of an operator leave alone, and what they do to the gates of the day, to the
    statistics and to the ownership of desks. */
module Frames {
  import opened Office
  import opened Processes
  import opened Tallies

  /** Gates: only a join takes from s0 and only the close takes from s3; the start gate is
      passed only while s2 is 0; an operator leaves the program only after SIGUSR1. */
  predicate GateLaw(sh: Shared, o: Op, r: Result) {
    && r.sh.sim.s1 == sh.sim.s1 && r.sh.sim.s2 == sh.sim.s2 && r.sh.sim.s4 == sh.sim.s4
    && sh.sim.s0 - r.sh.sim.s0 == One(o.pc.OStart? && r.o.pc.OGate?)
    && sh.sim.s3 - r.sh.sim.s3 == One(o.pc.OBarrier? && r.o.pc.OStart?)
    && r.o.log.days - o.log.days == One(o.pc.OStart? && r.o.pc.OGate?)
    && (o.pc.OStart? ==> r.o.pc.OStart? || r.o.pc.OGate? || (r.o.pc.OExit? && o.sig.usr1))
    && (o.pc.OGate? ==>
          r.o.pc.OGate? || (r.o.pc.OReady? && sh.sim.s2 == 0) || (r.o.pc.OExit? && o.sig.usr1))
    && (o.pc.OExit? ==> r.o.pc.OExit?)
    && (!Parked(o.pc) ==> !Parked(r.o.pc) || (o.pc.OBarrier? && r.o.pc.OStart?))
  }

  /** What no operator ever touches, and the only ways it changes the queue and the statistics. */
  predicate FrameLaw(sh: Shared, o: Op, r: Result) {
    && r.sh.pipe == sh.pipe && r.sh.users == sh.users && r.sh.hist == sh.hist && r.sh.nextId == sh.nextId
    && r.o.service == o.service
    && (r.sh.queue == sh.queue
        || (o.pc.OServe? && FirstOf(sh.queue, o.service) < |sh.queue|
            && r.sh.queue == Without(sh.queue, FirstOf(sh.queue, o.service))))
    && (r.sh.stats == sh.stats
        || (o.pc.OCountWrite? && r.sh.stats == sh.stats.(active := sh.stats.active + 1))
        || (o.pc.OStatWrite? && r.sh.stats == Provided(sh.stats, o.service))
        || (o.pc.OPauseWrite? && r.sh.stats == TookPause(sh.stats)))
    && (Writing(r.o.pc) ==> r.sh.stats == sh.stats && (r.o.tmp == sh.stats || (Writing(o.pc) && r.o.tmp == o.tmp)))
  }

  /** Desks change hands only at a reservation and at the two releases. */
  predicate OwnerLaw(sh: Shared, o: Op, pid: nat, r: Result) {
    || (r.sh.desks == sh.desks && r.o.log.own == o.log.own && (o.log.own ==> r.o.desk == o.desk))
    || (!o.log.own && r.sh.desks == Reserved(sh.desks, o.service, pid)
        && r.o.desk == ReservedId(sh.desks, o.service) && (r.o.log.own <==> r.o.desk != 0))
    || (!r.o.log.own && r.sh.desks == Released(sh.desks, o.desk, pid) && r.o.desk == o.desk)
  }

  // ----- gates, mutexes and the end signal

  predicate SyncLaw(sh: Shared, o: Op, r: Result) {
    && GateLaw(sh, o, r) && MutexLaw(sh, o, r)
    && (!o.sig.usr1 && !o.sig.pend1 ==> !r.o.sig.usr1 && !r.o.sig.pend1)
  }

  lemma GateSync(sh: Shared, o: Op)
    requires RegionOf(o.pc) == Gate
    ensures SyncLaw(sh, o, GateGo(sh, o))
  {
  }

  lemma DeskSync(sh: Shared, o: Op, pid: nat)
    requires RegionOf(o.pc) == AtDesk
    ensures SyncLaw(sh, o, DeskGo(sh, o, pid))
  {
  }

  lemma CountSync(sh: Shared, o: Op)
    requires RegionOf(o.pc) == Counting
    ensures SyncLaw(sh, o, CountGo(sh, o))
  {
  }

  lemma TicketSync(sh: Shared, o: Op)
    requires RegionOf(o.pc) == AtTicket
    ensures SyncLaw(sh, o, TicketGo(sh, o))
  {
  }

  lemma ServeSync(sh: Shared, o: Op)
    requires RegionOf(o.pc) == Serving
    ensures SyncLaw(sh, o, ServeGo(sh, o))
  {
  }

  lemma SessionSync(sh: Shared, o: Op)
    requires RegionOf(o.pc) == Session
    ensures SyncLaw(sh, o, SessionGo(sh, o))
  {
  }

  lemma StatSync(sh: Shared, o: Op)
    requires RegionOf(o.pc) == Updating
    ensures SyncLaw(sh, o, StatGo(sh, o))
  {
  }

  lemma PauseSync(cfg: Config, sh: Shared, o: Op, pid: nat, choice: bool)
    requires RegionOf(o.pc) == Pausing
    ensures SyncLaw(sh, o, PauseGo(cfg, sh, o, pid, choice))
  {
  }

  lemma RestSync(sh: Shared, o: Op)
    requires RegionOf(o.pc) == Paused
    ensures SyncLaw(sh, o, RestGo(sh, o))
  {
  }

  lemma CloseSync(sh: Shared, o: Op, pid: nat)
    requires RegionOf(o.pc) == Leaving
    ensures SyncLaw(sh, o, CloseGo(sh, o, pid))
  {
  }

  lemma SignalSync(sh: Shared, o: Op, r: Result)
    requires r.sh == sh && r.o == o.(pc := r.o.pc, sig := r.o.sig) && MutexOf(r.o.pc) == MutexOf(o.pc)
    requires r.o.pc == o.pc || (!Parked(o.pc) && !Parked(r.o.pc))
    requires !o.sig.pend1 && !o.sig.usr1 ==> !r.o.sig.usr1 && !r.o.sig.pend1
    ensures SyncLaw(sh, o, r)
  {
  }

  /** SIGUSR1 reaches an operator's flag only through a pending signal. */
  lemma OpSync(cfg: Config, sh: Shared, o: Op, pid: nat, a: Act)
    ensures SyncLaw(sh, o, OpDo(cfg, sh, o, pid, a))
  {
    hide SyncLaw;
    hide GateGo, DeskGo, CountGo, TicketGo, ServeGo, SessionGo, StatGo, PauseGo, RestGo, CloseGo;
    if a.Go? {
      match RegionOf(o.pc)
      case Gate => GateSync(sh, o);
      case AtDesk => DeskSync(sh, o, pid);
      case Counting => CountSync(sh, o);
      case AtTicket => TicketSync(sh, o);
      case Serving => ServeSync(sh, o);
      case Session => SessionSync(sh, o);
      case Updating => StatSync(sh, o);
      case Pausing => PauseSync(cfg, sh, o, pid, a.choice);
      case Paused => RestSync(sh, o);
      case Leaving => CloseSync(sh, o, pid);
      case Gone => SignalSync(sh, o, Result(sh, o));
    } else {
      SignalSync(sh, o, OpDo(cfg, sh, o, pid, a));
    }
  }

  // ----- queue, statistics and desks

  lemma GateData(pid: nat, sh: Shared, o: Op)
    requires RegionOf(o.pc) == Gate && OpOk(o)
    ensures var r := GateGo(sh, o); FrameLaw(sh, o, r) && OwnerLaw(sh, o, pid, r)
  {
  }

  lemma DeskData(sh: Shared, o: Op, pid: nat)
    requires RegionOf(o.pc) == AtDesk && OpOk(o)
    ensures var r := DeskGo(sh, o, pid); FrameLaw(sh, o, r) && OwnerLaw(sh, o, pid, r)
  {
  }

  lemma CountData(pid: nat, sh: Shared, o: Op)
    requires RegionOf(o.pc) == Counting && OpOk(o)
    requires Writing(o.pc) ==> o.tmp == sh.stats
    ensures var r := CountGo(sh, o); FrameLaw(sh, o, r) && OwnerLaw(sh, o, pid, r)
  {
  }

  lemma TicketData(pid: nat, sh: Shared, o: Op)
    requires RegionOf(o.pc) == AtTicket && OpOk(o)
    ensures var r := TicketGo(sh, o); FrameLaw(sh, o, r) && OwnerLaw(sh, o, pid, r)
  {
  }

  lemma ServeData(pid: nat, sh: Shared, o: Op)
    requires RegionOf(o.pc) == Serving && OpOk(o)
    ensures var r := ServeGo(sh, o); FrameLaw(sh, o, r) && OwnerLaw(sh, o, pid, r)
  {
  }

  lemma SessionData(pid: nat, sh: Shared, o: Op)
    requires RegionOf(o.pc) == Session && OpOk(o)
    ensures var r := SessionGo(sh, o); FrameLaw(sh, o, r) && OwnerLaw(sh, o, pid, r)
  {
  }

  lemma StatData(pid: nat, sh: Shared, o: Op)
    requires RegionOf(o.pc) == Updating && OpOk(o)
    requires Writing(o.pc) ==> o.tmp == sh.stats
    ensures var r := StatGo(sh, o); FrameLaw(sh, o, r) && OwnerLaw(sh, o, pid, r)
  {
  }

  lemma PauseData(cfg: Config, sh: Shared, o: Op, pid: nat, choice: bool)
    requires RegionOf(o.pc) == Pausing && OpOk(o)
    ensures var r := PauseGo(cfg, sh, o, pid, choice); FrameLaw(sh, o, r) && OwnerLaw(sh, o, pid, r)
  {
  }

  lemma RestData(pid: nat, sh: Shared, o: Op)
    requires RegionOf(o.pc) == Paused && OpOk(o)
    requires Writing(o.pc) ==> o.tmp == sh.stats
    ensures var r := RestGo(sh, o); FrameLaw(sh, o, r) && OwnerLaw(sh, o, pid, r)
  {
  }

  lemma CloseData(sh: Shared, o: Op, pid: nat)
    requires RegionOf(o.pc) == Leaving && OpOk(o)
    ensures var r := CloseGo(sh, o, pid); FrameLaw(sh, o, r) && OwnerLaw(sh, o, pid, r)
  {
  }

  lemma SignalData(sh: Shared, o: Op, pid: nat, r: Result)
    requires r.sh == sh && r.o == o.(pc := r.o.pc, sig := r.o.sig)
    requires r.o.pc == o.pc || (!Writing(o.pc) && !Writing(r.o.pc))
    ensures FrameLaw(sh, o, r) && OwnerLaw(sh, o, pid, r)
  {
  }

  lemma OpData(cfg: Config, sh: Shared, o: Op, pid: nat, a: Act)
    requires OpOk(o) && (Writing(o.pc) ==> o.tmp == sh.stats)
    ensures var r := OpDo(cfg, sh, o, pid, a); FrameLaw(sh, o, r) && OwnerLaw(sh, o, pid, r)
  {
    hide FrameLaw, OwnerLaw, OpOk;
    hide GateGo, DeskGo, CountGo, TicketGo, ServeGo, SessionGo, StatGo, PauseGo, RestGo, CloseGo;
    if a.Go? {
      match RegionOf(o.pc)
      case Gate => GateData(pid, sh, o);
      case AtDesk => DeskData(sh, o, pid);
      case Counting => CountData(pid, sh, o);
      case AtTicket => TicketData(pid, sh, o);
      case Serving => ServeData(pid, sh, o);
      case Session => SessionData(pid, sh, o);
      case Updating => StatData(pid, sh, o);
      case Pausing => PauseData(cfg, sh, o, pid, a.choice);
      case Paused => RestData(pid, sh, o);
      case Leaving => CloseData(sh, o, pid);
      case Gone => SignalData(sh, o, pid, Result(sh, o));
    } else {
      SignalData(sh, o, pid, OpDo(cfg, sh, o, pid, a));
    }
  }

  // ----- the dispenser

  /** The mutex the dispenser holds, 3 for none. */
  function DispMutex(pc: DispPc): nat {
    match pc
    case EInsert(_) | EPost(_) | EUnlock => 1
    case EStatWalk | EStatUnlock | EFinal | EFinalUnlock => 2
    case _ => 3
  }

  /** The mutexes a dispenser step takes and gives back. */
  predicate DispLocks(s: State, t: State) {
    && t.sh.mem.m0 == s.sh.mem.m0
    && t.sh.mem.m1 + One(DispMutex(t.disp.pc) == 1) == s.sh.mem.m1 + One(DispMutex(s.disp.pc) == 1)
    && t.sh.mem.m2 + One(DispMutex(t.disp.pc) == 2) == s.sh.mem.m2 + One(DispMutex(s.disp.pc) == 2)
  }

  /** The only ways the dispenser changes tickets, statistics and the pipe. */
  predicate DispWrites(s: State, t: State) {
    && t.cfg == s.cfg && t.ops == s.ops && t.dir == s.dir
    && t.sh.desks == s.sh.desks && t.sh.sSem == s.sh.sSem && t.sh.users == s.sh.users
    && t.sh.hist.day == s.sh.hist.day
    && (if s.disp.pc.EInsert? && t.disp.pc != s.disp.pc && |s.sh.queue| < s.cfg.cap then
          && t.disp.pc == EPost(s.disp.pc.r.service)
          && t.sh.queue == s.sh.queue + [Ticket(s.sh.nextId, s.disp.pc.r.service, s.disp.pc.r.user, s.disp.pc.r.time)]
          && t.sh.nextId == s.sh.nextId + 1
          && t.sh.hist.issued == Bump(s.sh.hist.issued, s.disp.pc.r.service)
        else
          && t.sh.queue == s.sh.queue && t.sh.nextId == s.sh.nextId && t.sh.hist.issued == s.sh.hist.issued
          && (t.disp.pc.EPost? ==> t.disp.pc == s.disp.pc))
    && (if s.disp.pc.EPost? && t.disp.pc != s.disp.pc then t.sh.tSem == Bump(s.sh.tSem, s.disp.pc.s)
        else t.sh.tSem == s.sh.tSem)
    && (if s.disp.pc.EReset? && t.disp.pc != s.disp.pc then t.sh.stats == DayReset(s.sh.stats)
        else if s.disp.pc.EStatWalk? && t.disp.pc != s.disp.pc then
          t.sh.stats == Closed(s.sh.stats, s.sh.queue)
        else t.sh.stats == s.sh.stats)
    && t.sh.hist.closed == (if s.disp.pc.EStatWalk? && t.disp.pc != s.disp.pc
                            then s.sh.hist.closed + [Record(s)] else s.sh.hist.closed)
  }

  lemma DispMorningLocks(s: State)
    ensures DispLocks(s, DispMorning(s))
  {
  }

  lemma DispMorningWrites(s: State)
    ensures DispWrites(s, DispMorning(s))
  {
    hide Bump, Closed, Record, DayReset;
    var t := DispMorning(s);
    assert t == s.(sh := t.sh, disp := t.disp);
    assert t.sh == s.sh.(sim := t.sh.sim, pipe := t.sh.pipe, stats := t.sh.stats, trace := t.sh.trace);
    assert t.sh.stats == if s.disp.pc.EReset? then DayReset(s.sh.stats) else s.sh.stats;
    assert !t.disp.pc.EPost? || t.disp.pc == s.disp.pc;
    assert s.disp.pc.EReset? ==> t.disp.pc.EJoin?;
    assert s.disp.pc.EInsert? || s.disp.pc.EPost? || s.disp.pc.EStatWalk? ==> t == s;
    hide DispMorning;
  }

  lemma DispTakeLocks(s: State, req: Request)
    ensures DispLocks(s, DispTake(s, req))
  {
  }

  lemma DispTakeWrites(s: State, req: Request)
    ensures DispWrites(s, DispTake(s, req))
  {
  }

  lemma DispIssueLocks(s: State)
    ensures DispLocks(s, DispIssue(s))
  {
  }

  lemma DispIssueWrites(s: State)
    ensures DispWrites(s, DispIssue(s))
  {
  }

  lemma DispCloseLocks(s: State)
    ensures DispLocks(s, DispClose(s))
  {
  }

  lemma DispCloseWrites(s: State)
    ensures DispWrites(s, DispClose(s))
  {
    hide Bump, Closed, Record, DayReset;
    match s.disp.pc
    case EWait3 =>
    case EStatLock =>
    case EStatWalk =>
    case EStatUnlock =>
    case EPost4 =>
    case _ =>
  }

  lemma DispFinalLocks(s: State)
    ensures DispLocks(s, DispFinal(s))
  {
  }

  lemma DispFinalWrites(s: State)
    ensures DispWrites(s, DispFinal(s))
  {
    hide Bump, Closed, Record, DayReset;
    match s.disp.pc
    case EFinalLock =>
    case EFinal =>
    case EFinalUnlock =>
    case EFinalPost =>
    case _ =>
  }

  lemma DispFrame(s: State, a: Act, req: Request)
    ensures var t := Apply(s, StepDisp(a, req)); DispLocks(s, t) && DispWrites(s, t)
  {
    hide DispLocks, DispWrites, DispMorning, DispTake, DispIssue, DispClose, DispFinal;
    if a.Go? {
      match s.disp.pc
      case EStart | EWait2 | EReset | EJoin | EGate | ERead => DispMorningLocks(s); DispMorningWrites(s);
      case ERecv | ECheck(_) | ELock(_) => DispTakeLocks(s, req); DispTakeWrites(s, req);
      case EInsert(_) | EPost(_) | EUnlock => DispIssueLocks(s); DispIssueWrites(s);
      case EWait3 | EStatLock | EStatWalk | EStatUnlock | EPost4 => DispCloseLocks(s); DispCloseWrites(s);
      case EFinalLock | EFinal | EFinalUnlock | EFinalPost | EDone => DispFinalLocks(s); DispFinalWrites(s);
    } else {
      DispSignalFrame(s, a, req);
    }
  }

  lemma DispSignalFrame(s: State, a: Act, req: Request)
    requires !a.Go?
    ensures var t := DispDo(s, a, req); t.sh == s.sh && DispLocks(s, t) && DispWrites(s, t)
  {
  }

  // ----- the dispenser's control flow

  predicate Flow(p: DispPc, q: DispPc) {
    match p
    case EStart => q.EFinalLock? || q.EJoin? || q.EWait2?
    case EWait2 => q.EReset? || q.EFinalLock?
    case EReset => q.EJoin?
    case EJoin => q.EGate? || q.EFinalLock?
    case EGate => q.ERead? || q.EFinalLock?
    case ERead => q.ERecv? || q.EFinalLock?
    case ERecv => q.ECheck? || q.EWait3?
    case ECheck(r) => q == ELock(r) || q.ERecv?
    case ELock(r) => q == EInsert(r) || q.ERecv?
    case EInsert(r) => q == EPost(r.service) || q.EUnlock?
    case EPost(_) => q.EUnlock?
    case EUnlock => q.ERecv?
    case EWait3 => q.EStatLock?
    case EStatLock => q.EStatWalk?
    case EStatWalk => q.EStatUnlock?
    case EStatUnlock => q.EPost4?
    case EPost4 => q.EStart?
    case EFinalLock => q.EFinal?
    case EFinal => q.EFinalUnlock?
    case EFinalUnlock => q.EFinalPost?
    case EFinalPost => q.EDone?
    case EDone => false
  }

  /** Control flow, the morning's choice of path, the days joined, and the way of the day's
      assignment from the pipe to the array requests are checked against. */
  predicate DispFlows(s: State, t: State) {
    var d, e := s.disp, t.disp;
    && (e.pc == d.pc || Flow(d.pc, e.pc))
    && (d.pc.EStart? && e.pc.EJoin? ==> d.first)
    && ((d.pc.EStart? || d.pc.ERead?) && e.pc.EFinalLock? ==> d.simEnd)
    && (d.pc.ERecv? && e.pc.ECheck? ==> e.pc.r.service in d.enabled)
    && (e.first <==> d.first && !(d.pc.ERecv? && e.pc.EWait3?))
    && e.days == d.days + One(d.pc.EJoin? && e.pc.EGate?)
    && (if d.pc.ERead? && !e.pc.ERead? then
          s.sh.pipe != [] && e.enabled == s.sh.pipe[0] && t.sh.pipe == s.sh.pipe[1..]
        else e.enabled == d.enabled && t.sh.pipe == s.sh.pipe)
  }

  predicate Branching(pc: DispPc) { pc.EStart? || pc.EJoin? || pc.ERead? || pc.ERecv? }

  /** Where nothing but the program counter matters. */
  lemma PlainFlow(s: State, t: State)
    requires t.sh.pipe == s.sh.pipe && t.disp.first == s.disp.first && t.disp.days == s.disp.days
    requires t.disp.enabled == s.disp.enabled
    requires t.disp.pc == s.disp.pc || (!Branching(s.disp.pc) && Flow(s.disp.pc, t.disp.pc))
    ensures DispFlows(s, t)
  {
  }

  lemma StartFlows(s: State)
    requires s.disp.pc.EStart?
    ensures DispFlows(s, DispMorning(s))
  {
  }

  lemma JoinFlows(s: State)
    requires s.disp.pc.EJoin?
    ensures DispFlows(s, DispMorning(s))
  {
  }

  lemma ReadFlows(s: State)
    requires s.disp.pc.ERead?
    ensures DispFlows(s, DispMorning(s))
  {
  }

  lemma DispMorningFlows(s: State)
    ensures DispFlows(s, DispMorning(s))
  {
    hide DispFlows, DayReset;
    var t := DispMorning(s);
    match s.disp.pc
    case EStart => StartFlows(s);
    case EWait2 => PlainFlow(s, t);
    case EReset => PlainFlow(s, t);
    case EJoin => JoinFlows(s);
    case EGate => PlainFlow(s, t);
    case ERead => ReadFlows(s);
    case _ => PlainFlow(s, t);
  }

  lemma DispTakeFlows(s: State, req: Request)
    ensures DispFlows(s, DispTake(s, req))
  {
  }

  lemma InsertFlows(s: State)
    requires s.disp.pc.EInsert?
    ensures DispFlows(s, DispIssue(s))
  {
  }

  lemma DispIssueFlows(s: State)
    ensures DispFlows(s, DispIssue(s))
  {
    hide DispFlows, Bump;
    var t := DispIssue(s);
    match s.disp.pc
    case EInsert(_) => InsertFlows(s);
    case EPost(_) => PlainFlow(s, t);
    case EUnlock => PlainFlow(s, t);
    case _ => PlainFlow(s, t);
  }

  lemma DispCloseFlows(s: State)
    ensures DispFlows(s, DispClose(s))
  {
    hide DispFlows, Closed, Record;
    var t := DispClose(s);
    match s.disp.pc
    case EWait3 => PlainFlow(s, t);
    case EStatLock => PlainFlow(s, t);
    case EStatWalk => PlainFlow(s, t);
    case EStatUnlock => PlainFlow(s, t);
    case EPost4 => PlainFlow(s, t);
    case _ => PlainFlow(s, t);
  }

  lemma DispFinalFlows(s: State)
    ensures DispFlows(s, DispFinal(s))
  {
  }

  lemma DispSignalFlows(s: State, a: Act, req: Request)
    requires !a.Go?
    ensures DispFlows(s, DispDo(s, a, req))
  {
    hide DispGo;
  }

  lemma DispFlow(s: State, a: Act, req: Request)
    ensures DispFlows(s, Apply(s, StepDisp(a, req)))
  {
    hide DispMorning, DispTake, DispIssue, DispClose, DispFinal;
    if a.Go? {
      hide DispFlows;
      match s.disp.pc
      case EStart | EWait2 | EReset | EJoin | EGate | ERead => DispMorningFlows(s);
      case ERecv | ECheck(_) | ELock(_) => DispTakeFlows(s, req);
      case EInsert(_) | EPost(_) | EUnlock => DispIssueFlows(s);
      case EWait3 | EStatLock | EStatWalk | EStatUnlock | EPost4 => DispCloseFlows(s);
      case EFinalLock | EFinal | EFinalUnlock | EFinalPost | EDone => DispFinalFlows(s);
    } else {
      hide DispFlows;
      DispSignalFlows(s, a, req);
    }
  }
}
