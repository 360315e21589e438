/** The director, the dispenser and the operators as processes with a program counter.

    Every function below performs at most one action on shared memory or on a semaphore.  An
    action whose guard is false (a semop that would block) leaves the state as it is, so a run
    is any sequence of steps and "for every interleaving" is "for every sequence".

    The bodies of the mutex-protected operations on the ticket list and on the desk table are
    the functions of module Office that the classes refine; updates of the statistics are
    split into a read and a write, so that a missing lock would lose updates. */
module Processes {
  import opened Office
  import QueueRuns

  datatype Config = Config(cap: nat, duration: int, threshold: int, maxPause: nat)

  datatype Request = Request(service: Service, user: int, time: int)

  // ----- operators

  datatype OpPc =
    // src/operatori.c:104-125 and the top of the day loop
    | OStart | OGate | OReady
    // desk acquisition, 300-324
    | ODesk | ODeskLock | OReserve | OReserveUnlock | OReturnDesk
    // counting the active operator, 325-346
    | OCountLock | OCountRead | OCountWrite | OCountUnlock
    // ticket permit and ticket, 348-402
    | OTop | OTicket | OTicketFlag | OTicketLock | OReturnTicket | OServe | OServeUnlock | OServed
    // handshake and statistics, 403-452 and 167-188
    | OCall | OAck | OFine | OStatLock | OStatRead | OStatWrite | OStatUnlock | OServedFlag
    // pause, 197-219
    | OPause | OPauseLock | OPauseFree | OPausePost | OPauseUnlock
    | OPauseStatLock | OPauseRead | OPauseWrite | OPauseStatUnlock | OStopped
    // close of the day, 455-473
    | OCloseLock | OCloseFree | OClosePost | OCloseUnlock | OBarrier
    // exits: with an error, or at the end of the simulation
    | OError | OExit

  /** What became of the last permit taken: still a permit, or the ticket it was spent on. */
  datatype Held = Nothing | Permit | Slip

  /** usr2/usr1 are the flags set by the signal handlers, pend2/pend1 signals sent but not yet
      delivered. */
  datatype Signals = Signals(usr2: bool, usr1: bool, pend2: bool, pend1: bool)

  /** Records of what happened, on which no step of any process depends: a desk permit taken
      and not yet used, the ticket permit or ticket held, a desk reserved without having been
      counted as active, the desk in `desk` owned, the number of days joined, and whether today's
      signal was lost when the flag was cleared at the start. */
  datatype Log = Log(permit: bool, held: Held, uncounted: bool, own: bool, days: nat, missed: bool)

  /** posting is the semaphore freeSportello is about to raise, 0 for none. */
  datatype Op = Op(pc: OpPc, service: Service, desk: nat, ticket: nat, tmp: Counters,
                   posting: int, sig: Signals, log: Log)

  // ----- the dispenser

  datatype DispPc =
    | EStart | EWait2 | EReset | EJoin | EGate | ERead
    | ERecv | ECheck(r: Request) | ELock(r: Request) | EInsert(r: Request) | EPost(s: Service) | EUnlock
    | EWait3 | EStatLock | EStatWalk | EStatUnlock | EPost4
    | EFinalLock | EFinal | EFinalUnlock | EFinalPost | EDone

  datatype Disp = Disp(pc: DispPc, first: bool, dayEnd: bool, simEnd: bool, pend2: bool, pend1: bool,
                       enabled: seq<int>, days: nat)

  // ----- the director; `last` marks the second call of resetSem, after the loop

  datatype DirPc =
    | DPipe | DPost2 | DWait0 | DWait1 | DOpen | DDay | DSuspend(k: nat) | DWaitStats
    | DReset2(last: bool) | DReset0(last: bool) | DReset1(last: bool) | DReset3(last: bool)
    | DReset4(last: bool) | DResetT(last: bool)
    | DClear | DUsers | DDecide | DApply | DExplode
    | DEndSim(k: nat) | DWaitFinal | DDone

  datatype Dir = Dir(pc: DirPc, first: bool, arr: seq<int>, timeout: bool, explode: bool)

  // ----- shared state

  /** What was observed when a day was closed; no step depends on it. */
  datatype DayRecord = DayRecord(left: nat, active: nat, interrupted: nat, row: seq<real>, issued: nat, served: nat,
                                 abandoned: PerService, pauses: nat, taken: seq<nat>)

  datatype Gates = Gates(s0: nat, s1: nat, s2: nat, s3: nat, s4: nat)

  datatype Locks = Locks(m0: nat, m1: nat, m2: nat)

  /** Tickets issued today, days started, days closed: records only. */
  datatype History = History(issued: PerService, day: nat, closed: seq<DayRecord>)

  /** One action on the statistics. */
  datatype SumEvent =
    | Activated | PauseTaken | Served(service: Service) | DailyReset | DayClosed(left: seq<Ticket>) | Finals

  /** The calls made on the ticket list and the actions on the statistics, in order; the desks
      reserved today; the users that have started since the users' semaphore was reset: records only. */
  datatype Trace = Trace(calls: seq<QueueRuns.Command>, sums: seq<SumEvent>, taken: seq<nat>, passed: nat)

  datatype Shared = Shared(
    sim: Gates, mem: Locks, tSem: PerService, sSem: PerService,
    queue: seq<Ticket>, nextId: nat, desks: seq<Desk>, stats: Counters,
    pipe: seq<seq<int>>, users: nat, hist: History, trace: Trace)

  function Called(t: Trace, c: QueueRuns.Command): Trace { t.(calls := t.calls + [c]) }

  function Booked(t: Trace, id: nat): Trace { if id != 0 then t.(taken := t.taken + [id]) else t }

  function Summed(t: Trace, e: SumEvent): Trace { t.(sums := t.sums + [e]) }

  datatype State = State(cfg: Config, sh: Shared, ops: seq<Op>, disp: Disp, dir: Dir)

  /** Go follows the program; choice is the random decision to pause.  Interrupt is a blocking
      call that fails because a pending signal is delivered, allowed where the program handles
      the failure.  The Deliver actions set a flag between two calls. */
  datatype Act = Go(choice: bool) | Interrupt | DeliverDayEnd | DeliverSimEnd

  datatype Result = Result(sh: Shared, o: Op)

  // ----- operator steps, by region of the program

  function GateGo(sh: Shared, o: Op): Result {
    match o.pc
    case OStart =>
      if o.sig.usr1 then Result(sh, o.(pc := OExit))
      else if sh.sim.s0 > 0 then
        Result(sh.(sim := sh.sim.(s0 := sh.sim.s0 - 1)),
               o.(pc := OGate,
                  log := o.log.(held := Nothing, uncounted := false, days := o.log.days + 1, missed := false)))
      else Result(sh, o)
    case OGate =>
      if o.sig.usr1 then Result(sh, o.(pc := OExit))
      else if sh.sim.s2 == 0 then Result(sh, o.(pc := OReady))
      else Result(sh, o)
    case OReady =>
      Result(sh, o.(pc := ODesk, desk := 0, sig := o.sig.(usr2 := false),
                    log := o.log.(missed := o.log.missed || o.sig.usr2)))
    case _ => Result(sh, o)
  }

  function DeskGo(sh: Shared, o: Op, pid: nat): Result {
    match o.pc
    case ODesk =>
      if Of(sh.sSem, o.service) > 0 then
        Result(sh.(sSem := Take(sh.sSem, o.service)), o.(pc := ODeskLock, log := o.log.(permit := true)))
      else Result(sh, o)
    case ODeskLock =>
      if sh.mem.m0 > 0 then Result(sh.(mem := sh.mem.(m0 := sh.mem.m0 - 1)), o.(pc := OReserve)) else Result(sh, o)
    case OReserve =>
      var id := ReservedId(sh.desks, o.service);
      Result(sh.(desks := Reserved(sh.desks, o.service, pid), trace := Booked(sh.trace, id)),
             o.(pc := OReserveUnlock, desk := id,
                 log := o.log.(permit := id == 0, own := id != 0, uncounted := id != 0)))
    case OReserveUnlock =>
      Result(sh.(mem := sh.mem.(m0 := sh.mem.m0 + 1)),
             o.(pc := if o.desk != 0 then OCountLock else if o.sig.usr2 then OReturnDesk else OError))
    case OReturnDesk =>
      Result(sh.(sSem := Bump(sh.sSem, o.service)), o.(pc := OCloseLock, log := o.log.(permit := false)))
    case _ => Result(sh, o)
  }

  function CountGo(sh: Shared, o: Op): Result {
    match o.pc
    case OCountLock =>
      if sh.mem.m2 > 0 then Result(sh.(mem := sh.mem.(m2 := sh.mem.m2 - 1)), o.(pc := OCountRead)) else Result(sh, o)
    case OCountRead => Result(sh, o.(pc := OCountWrite, tmp := sh.stats))
    case OCountWrite =>
      Result(sh.(stats := sh.stats.(active := o.tmp.active + 1), trace := Summed(sh.trace, Activated)),
             o.(pc := OCountUnlock, log := o.log.(uncounted := false)))
    case OCountUnlock => Result(sh.(mem := sh.mem.(m2 := sh.mem.m2 + 1)), o.(pc := OTop))
    case _ => Result(sh, o)
  }

  function TicketGo(sh: Shared, o: Op): Result {
    match o.pc
    case OTop => Result(sh, o.(pc := if o.sig.usr2 then OCloseLock else OTicket))
    case OTicket =>
      if Of(sh.tSem, o.service) > 0 then
        Result(sh.(tSem := Take(sh.tSem, o.service)), o.(pc := OTicketFlag, log := o.log.(held := Permit)))
      else Result(sh, o)
    case OTicketFlag => Result(sh, o.(pc := if o.sig.usr2 then OCloseLock else OTicketLock))
    case OTicketLock =>
      if sh.mem.m1 > 0 then Result(sh.(mem := sh.mem.(m1 := sh.mem.m1 - 1)), o.(pc := OServe)) else Result(sh, o)
    case OReturnTicket =>
      Result(sh.(tSem := Bump(sh.tSem, o.service)), o.(pc := OCloseLock, log := o.log.(held := Nothing)))
    case _ => Result(sh, o)
  }

  function ServeGo(sh: Shared, o: Op): Result {
    match o.pc
    case OServe =>
      var k := FirstOf(sh.queue, o.service);
      var trace := Called(sh.trace, QueueRuns.Serve(o.service));
      if k < |sh.queue| then
        Result(sh.(queue := Without(sh.queue, k), trace := trace),
               o.(pc := OServeUnlock, ticket := sh.queue[k].id, log := o.log.(held := Slip)))
      else Result(sh.(trace := trace), o.(pc := OServeUnlock, ticket := 0))
    case OServeUnlock => Result(sh.(mem := sh.mem.(m1 := sh.mem.m1 + 1)), o.(pc := OServed))
    case OServed =>
      if ZeroAsInt(o.ticket) then Result(sh, o.(pc := OError))
      else if o.sig.usr2 then Result(sh, o.(pc := OCloseLock, sig := o.sig.(usr2 := false)))
      else Result(sh, o.(pc := OCall))
    case _ => Result(sh, o)
  }

  function SessionGo(sh: Shared, o: Op): Result {
    match o.pc
    case OCall => Result(sh, o.(pc := OAck))
    case OAck => Result(sh, o.(pc := OFine))
    case OFine => Result(sh, o.(pc := OStatLock))
    case OServedFlag =>
      if o.sig.usr2 then Result(sh, o.(pc := OCloseLock, sig := o.sig.(usr2 := false)))
      else Result(sh, o.(pc := OPause))
    case _ => Result(sh, o)
  }

  function StatGo(sh: Shared, o: Op): Result {
    match o.pc
    case OStatLock =>
      if sh.mem.m2 > 0 then Result(sh.(mem := sh.mem.(m2 := sh.mem.m2 - 1)), o.(pc := OStatRead)) else Result(sh, o)
    case OStatRead => Result(sh, o.(pc := OStatWrite, tmp := sh.stats))
    case OStatWrite =>
      var w := Provided(o.tmp, o.service);
      Result(sh.(stats := sh.stats.(daily := w.daily, provided := w.provided, dailyAll := w.dailyAll,
                                    providedAll := w.providedAll, usersAll := w.usersAll),
                trace := Summed(sh.trace, Served(o.service))),
             o.(pc := OStatUnlock, log := o.log.(held := Nothing)))
    case OStatUnlock => Result(sh.(mem := sh.mem.(m2 := sh.mem.m2 + 1)), o.(pc := OServedFlag))
    case _ => Result(sh, o)
  }

  /** freeSportello up to the semaphore operation. */
  function Release(sh: Shared, o: Op, pid: nat, next: OpPc): Result {
    Result(sh.(desks := Released(sh.desks, o.desk, pid)),
           o.(pc := next, log := o.log.(own := false),
              posting := if Releases(sh.desks, o.desk, pid) then sh.desks[o.desk-1].service else 0))
  }

  /** The semaphore operation of freeSportello. */
  function Post(sh: Shared, o: Op, next: OpPc): Result {
    Result(if 1 <= o.posting <= SERVICES then sh.(sSem := Bump(sh.sSem, o.posting)) else sh,
           o.(pc := next, posting := 0))
  }

  function PauseGo(cfg: Config, sh: Shared, o: Op, pid: nat, choice: bool): Result {
    match o.pc
    case OPause =>
      Result(sh, o.(pc := if choice && sh.stats.pauses < cfg.maxPause then OPauseLock else OTop))
    case OPauseLock =>
      if sh.mem.m0 > 0 then Result(sh.(mem := sh.mem.(m0 := sh.mem.m0 - 1)), o.(pc := OPauseFree)) else Result(sh, o)
    case OPauseFree => Release(sh, o, pid, OPausePost)
    case OPausePost => Post(sh, o, OPauseUnlock)
    case OPauseUnlock => Result(sh.(mem := sh.mem.(m0 := sh.mem.m0 + 1)), o.(pc := OPauseStatLock))
    case _ => Result(sh, o)
  }

  function RestGo(sh: Shared, o: Op): Result {
    match o.pc
    case OPauseStatLock =>
      if sh.mem.m2 > 0 then Result(sh.(mem := sh.mem.(m2 := sh.mem.m2 - 1)), o.(pc := OPauseRead)) else Result(sh, o)
    case OPauseRead => Result(sh, o.(pc := OPauseWrite, tmp := sh.stats))
    case OPauseWrite =>
      var w := TookPause(o.tmp);
      Result(sh.(stats := sh.stats.(pauses := w.pauses, pausesAll := w.pausesAll),
                trace := Summed(sh.trace, PauseTaken)),
             o.(pc := OPauseStatUnlock))
    case OPauseStatUnlock => Result(sh.(mem := sh.mem.(m2 := sh.mem.m2 + 1)), o.(pc := OStopped))
    case OStopped => // SIGCONT is only ever sent right after SIGUSR2
      if o.sig.usr2 || o.sig.pend2 then Result(sh, o.(pc := OTop, sig := o.sig.(usr2 := true, pend2 := false)))
      else Result(sh, o)
    case _ => Result(sh, o)
  }

  function CloseGo(sh: Shared, o: Op, pid: nat): Result {
    match o.pc
    case OCloseLock =>
      if sh.mem.m0 > 0 then Result(sh.(mem := sh.mem.(m0 := sh.mem.m0 - 1)), o.(pc := OCloseFree)) else Result(sh, o)
    case OCloseFree => Release(sh, o, pid, OClosePost)
    case OClosePost => Post(sh, o, OCloseUnlock)
    case OCloseUnlock => Result(sh.(mem := sh.mem.(m0 := sh.mem.m0 + 1)), o.(pc := OBarrier))
    case OBarrier =>
      if sh.sim.s3 > 0 then Result(sh.(sim := sh.sim.(s3 := sh.sim.s3 - 1)), o.(pc := OStart)) else Result(sh, o)
    case _ => Result(sh, o)
  }

  datatype Region =
    | Gate | AtDesk | Counting | AtTicket | Serving | Session | Updating | Pausing | Paused | Leaving | Gone

  function RegionOf(pc: OpPc): Region {
    match pc
    case OStart | OGate | OReady => Gate
    case ODesk | ODeskLock | OReserve | OReserveUnlock | OReturnDesk => AtDesk
    case OCountLock | OCountRead | OCountWrite | OCountUnlock => Counting
    case OTop | OTicket | OTicketFlag | OTicketLock | OReturnTicket => AtTicket
    case OServe | OServeUnlock | OServed => Serving
    case OCall | OAck | OFine | OServedFlag => Session
    case OStatLock | OStatRead | OStatWrite | OStatUnlock => Updating
    case OPause | OPauseLock | OPauseFree | OPausePost | OPauseUnlock => Pausing
    case OPauseStatLock | OPauseRead | OPauseWrite | OPauseStatUnlock | OStopped => Paused
    case OCloseLock | OCloseFree | OClosePost | OCloseUnlock | OBarrier => Leaving
    case OError | OExit => Gone
  }

  function OpGo(cfg: Config, sh: Shared, o: Op, pid: nat, choice: bool): Result {
    match RegionOf(o.pc)
    case Gate => GateGo(sh, o)
    case AtDesk => DeskGo(sh, o, pid)
    case Counting => CountGo(sh, o)
    case AtTicket => TicketGo(sh, o)
    case Serving => ServeGo(sh, o)
    case Session => SessionGo(sh, o)
    case Updating => StatGo(sh, o)
    case Pausing => PauseGo(cfg, sh, o, pid, choice)
    case Paused => RestGo(sh, o)
    case Leaving => CloseGo(sh, o, pid)
    case Gone => Result(sh, o)
  }

  /** Where a failing blocking call takes the operator. */
  function OpInterrupt(o: Op): Op {
    if !o.sig.pend2 then o
    else
      match o.pc
      case ODesk => o.(pc := OCloseLock, sig := o.sig.(usr2 := true, pend2 := false))
      case ODeskLock => o.(pc := OReturnDesk, sig := o.sig.(usr2 := true, pend2 := false))
      case OCountLock => o.(pc := OCloseLock, sig := o.sig.(usr2 := true, pend2 := false))
      case OTicket => o.(pc := OCloseLock, sig := o.sig.(usr2 := true, pend2 := false))
      case OTicketLock => o.(pc := OReturnTicket, sig := o.sig.(usr2 := true, pend2 := false))
      case OCall => o.(pc := OCloseLock, sig := o.sig.(usr2 := false, pend2 := false))
      case _ => o
  }

  /** SIGUSR2 is blocked from the call's acknowledgement to the update of the statistics. */
  predicate Masked(pc: OpPc) {
    pc.OAck? || pc.OFine? || pc.OStatLock? || pc.OStatRead? || pc.OStatWrite? || pc.OStatUnlock?
  }

  function OpDo(cfg: Config, sh: Shared, o: Op, pid: nat, a: Act): Result {
    match a
    case Go(choice) => OpGo(cfg, sh, o, pid, choice)
    case Interrupt => Result(sh, OpInterrupt(o))
    case DeliverDayEnd =>
      Result(sh, if o.sig.pend2 && !Masked(o.pc) then o.(sig := o.sig.(usr2 := true, pend2 := false)) else o)
    case DeliverSimEnd => Result(sh, if o.sig.pend1 then o.(sig := o.sig.(usr1 := true, pend1 := false)) else o)
  }

  // ----- tallies over the operators

  datatype Kind =
    | Starts                  // operators that have not joined, or have finished, the day
    | Holding(m: nat)         // inside the critical section of mutex m
    | Permits(s: Service)     // a ticket permit unspent, or abandoned at close
    | Slips(s: Service)       // a ticket removed but not counted, or abandoned at close
    | DeskUse(s: Service)     // a desk permit unspent, or a desk freed but not yet posted
    | Uncounted               // a desk reserved but the operator not counted as active
    | Workers(s: Service)     // operators of a service
    | Passed                  // past the test of the pause limit, pause not yet counted

  /** The mutex a program counter holds, 3 for none. */
  function MutexOf(pc: OpPc): nat {
    match pc
    case OReserve | OReserveUnlock | OPauseFree | OPausePost | OPauseUnlock
         | OCloseFree | OClosePost | OCloseUnlock => 0
    case OServe | OServeUnlock => 1
    case OCountRead | OCountWrite | OCountUnlock | OStatRead | OStatWrite | OStatUnlock
         | OPauseRead | OPauseWrite | OPauseStatUnlock => 2
    case _ => 3
  }

  predicate PastTest(pc: OpPc) {
    match pc
    case OPauseLock | OPauseFree | OPausePost | OPauseUnlock | OPauseStatLock | OPauseRead | OPauseWrite => true
    case _ => false
  }

  function Weight(k: Kind, o: Op): nat {
    match k
    case Starts => One(o.pc.OStart?)
    case Holding(m) => One(m < 3 && MutexOf(o.pc) == m)
    case Permits(s) => One(o.service == s && o.log.held == Permit)
    case Slips(s) => One(o.service == s && o.log.held == Slip)
    case DeskUse(s) => One(o.service == s && o.log.permit) + One(o.posting == s)
    case Uncounted => One(o.log.uncounted)
    case Workers(s) => One(o.service == s)
    case Passed => One(PastTest(o.pc))
  }

  function Sum(k: Kind, ops: seq<Op>): nat {
    if ops == [] then 0 else Weight(k, ops[0]) + Sum(k, ops[1..])
  }

  // ----- dispenser steps

  function PermitsHeld(ops: seq<Op>): PerService {
    [Sum(Permits(1), ops), Sum(Permits(2), ops), Sum(Permits(3), ops),
     Sum(Permits(4), ops), Sum(Permits(5), ops), Sum(Permits(6), ops)]
  }

  function Record(s: State): DayRecord {
    DayRecord(|s.sh.queue|, s.sh.stats.active, Sum(Uncounted, s.ops), RatioRow(s.sh.desks, s.sh.stats.active),
              Total(s.sh.hist.issued), s.sh.stats.dailyAll, PermitsHeld(s.ops), s.sh.stats.pauses, s.sh.trace.taken)
  }

  /** The start of a day, up to reading the enabled services. */
  function DispMorning(s: State): State {
    var sh, d := s.sh, s.disp;
    match d.pc
    case EStart =>
      s.(disp := d.(pc := if d.simEnd then EFinalLock else if d.first then EJoin else EWait2, dayEnd := false))
    case EWait2 =>
      if sh.sim.s4 >= 2 then s.(sh := sh.(sim := sh.sim.(s4 := sh.sim.s4 - 2)), disp := d.(pc := EReset)) else s
    case EReset =>
      s.(sh := sh.(stats := DayReset(sh.stats), trace := Summed(sh.trace, DailyReset)), disp := d.(pc := EJoin))
    case EJoin =>
      if d.simEnd then s.(disp := d.(pc := EFinalLock))
      else if sh.sim.s0 > 0 then
        s.(sh := sh.(sim := sh.sim.(s0 := sh.sim.s0 - 1)), disp := d.(pc := EGate, days := d.days + 1))
      else s
    case EGate => if sh.sim.s2 == 0 then s.(disp := d.(pc := ERead)) else s
    case ERead =>
      if sh.pipe != [] then
        s.(sh := sh.(pipe := sh.pipe[1..]),
           disp := d.(pc := if d.simEnd then EFinalLock else ERecv, enabled := sh.pipe[0]))
      else s
    case _ => s
  }

  /** Taking a request, up to the lock of the ticket list. */
  function DispTake(s: State, req: Request): State {
    var sh, d := s.sh, s.disp;
    match d.pc
    case ERecv =>
      if d.dayEnd then s.(disp := d.(pc := EWait3, first := false))
      else if req.service in d.enabled then s.(disp := d.(pc := ECheck(req)))
      else s // the request is refused
    case ECheck(r) => s.(disp := d.(pc := if d.dayEnd then ERecv else ELock(r)))
    case ELock(r) =>
      if sh.mem.m1 > 0 then s.(sh := sh.(mem := sh.mem.(m1 := sh.mem.m1 - 1)), disp := d.(pc := EInsert(r)))
      else s
    case _ => s
  }

  /** insertTicket and the release of its lock. */
  function DispIssue(s: State): State {
    var sh, d := s.sh, s.disp;
    match d.pc
    case EInsert(r) =>
      var trace := Called(sh.trace, QueueRuns.Insert(r.service, r.user, r.time));
      if |sh.queue| < s.cfg.cap then
        s.(sh := sh.(queue := sh.queue + [Ticket(sh.nextId, r.service, r.user, r.time)],
                     nextId := sh.nextId + 1,
                     hist := sh.hist.(issued := Bump(sh.hist.issued, r.service)), trace := trace),
           disp := d.(pc := EPost(r.service)))
      else s.(sh := sh.(trace := trace), disp := d.(pc := EUnlock))
    case EPost(t) => s.(sh := sh.(tSem := Bump(sh.tSem, t)), disp := d.(pc := EUnlock))
    case EUnlock => s.(sh := sh.(mem := sh.mem.(m1 := sh.mem.m1 + 1)), disp := d.(pc := ERecv))
    case _ => s
  }

  /** Closing the day once the last operator has finished it. */
  function DispClose(s: State): State {
    var sh, d := s.sh, s.disp;
    match d.pc
    case EWait3 => if sh.sim.s3 == 0 then s.(disp := d.(pc := EStatLock)) else s
    case EStatLock =>
      if sh.mem.m2 > 0 then s.(sh := sh.(mem := sh.mem.(m2 := sh.mem.m2 - 1)), disp := d.(pc := EStatWalk)) else s
    case EStatWalk =>
      s.(sh := sh.(stats := Closed(sh.stats, sh.queue),
                   hist := sh.hist.(closed := sh.hist.closed + [Record(s)]),
                   trace := Summed(sh.trace, DayClosed(sh.queue))),
         disp := d.(pc := EStatUnlock))
    case EStatUnlock => s.(sh := sh.(mem := sh.mem.(m2 := sh.mem.m2 + 1)), disp := d.(pc := EPost4))
    case EPost4 => s.(sh := sh.(sim := sh.sim.(s4 := sh.sim.s4 + 1)), disp := d.(pc := EStart, dayEnd := false))
    case _ => s
  }

  /** After the loop. */
  function DispFinal(s: State): State {
    var sh, d := s.sh, s.disp;
    match d.pc
    case EFinalLock =>
      if sh.mem.m2 > 0 then s.(sh := sh.(mem := sh.mem.(m2 := sh.mem.m2 - 1)), disp := d.(pc := EFinal)) else s
    case EFinal => s.(sh := sh.(trace := Summed(sh.trace, Finals)), disp := d.(pc := EFinalUnlock))
    case EFinalUnlock => s.(sh := sh.(mem := sh.mem.(m2 := sh.mem.m2 + 1)), disp := d.(pc := EFinalPost))
    case EFinalPost => s.(sh := sh.(sim := sh.sim.(s4 := sh.sim.s4 + 1)), disp := d.(pc := EDone))
    case _ => s
  }

  function DispGo(s: State, req: Request): State {
    match s.disp.pc
    case EStart | EWait2 | EReset | EJoin | EGate | ERead => DispMorning(s)
    case ERecv | ECheck(_) | ELock(_) => DispTake(s, req)
    case EInsert(_) | EPost(_) | EUnlock => DispIssue(s)
    case EWait3 | EStatLock | EStatWalk | EStatUnlock | EPost4 => DispClose(s)
    case EFinalLock | EFinal | EFinalUnlock | EFinalPost | EDone => DispFinal(s)
  }

  function DispDo(s: State, a: Act, req: Request): State {
    var d := s.disp;
    match a
    case Go(_) => DispGo(s, req)
    case Interrupt =>
      if d.pend1 && (d.pc.EWait2? || d.pc.EJoin? || d.pc.EGate?) then
        s.(disp := d.(pc := EFinalLock, simEnd := true, pend1 := false))
      else if d.pend2 && d.pc.ELock? then
        s.(disp := d.(pc := ERecv, dayEnd := true, pend2 := false))
      else s
    case DeliverDayEnd => if d.pend2 then s.(disp := d.(dayEnd := true, pend2 := false)) else s
    case DeliverSimEnd => if d.pend1 then s.(disp := d.(simEnd := true, pend1 := false)) else s
  }

  // ----- director steps

  predicate ValidChoice(arr: seq<int>, seats: nat) {
    |arr| == seats && forall k :: 0 <= k < |arr| ==> 1 <= arr[k] <= SERVICES
  }

  function Marked2(ops: seq<Op>, i: nat): (r: seq<Op>)
    requires i < |ops|
  {
    ops[i := ops[i].(sig := ops[i].sig.(pend2 := true))]
  }

  function Marked1(ops: seq<Op>, i: nat): (r: seq<Op>)
    requires i < |ops|
  {
    ops[i := ops[i].(sig := ops[i].sig.(pend1 := true))]
  }

  /** From the start of a day to the end of the wait for the day's statistics. */
  function DirDay(s: State): State {
    var sh, d, n := s.sh, s.dir, |s.ops|;
    match d.pc
    case DPipe =>
      s.(sh := sh.(pipe := sh.pipe + [d.arr]), dir := d.(pc := if d.first then DWait0 else DPost2))
    case DPost2 => s.(sh := sh.(sim := sh.sim.(s4 := sh.sim.s4 + 2)), dir := d.(pc := DWait0))
    case DWait0 => if sh.sim.s0 == 0 then s.(dir := d.(pc := DWait1)) else s
    case DWait1 => if sh.sim.s1 == 0 then s.(dir := d.(pc := DOpen)) else s
    case DOpen =>
      if sh.sim.s2 > 0 then
        s.(sh := sh.(sim := sh.sim.(s2 := sh.sim.s2 - 1), hist := sh.hist.(day := sh.hist.day + 1)),
           dir := d.(pc := DDay))
      else s
    case DDay => s.(dir := d.(pc := DSuspend(0)))
    case DSuspend(k) =>
      if k == 0 then s.(disp := s.disp.(pend2 := true), dir := d.(pc := DSuspend(1)))
      else if k <= n then s.(ops := Marked2(s.ops, k - 1), dir := d.(pc := DSuspend(k + 1)))
      else s.(dir := d.(pc := DWaitStats))
    case DWaitStats =>
      if sh.sim.s4 > 0 then
        s.(sh := sh.(sim := sh.sim.(s4 := sh.sim.s4 - 1)), dir := d.(pc := DReset2(false), first := false))
      else s
    case _ => s
  }

  /** resetSem: the start gate is raised before the start semaphore is refilled. */
  function DirReset(s: State): State {
    var sh, d, n := s.sh, s.dir, |s.ops|;
    match d.pc
    case DReset2(l) => s.(sh := sh.(sim := sh.sim.(s2 := 1)), dir := d.(pc := DReset0(l)))
    case DReset0(l) => s.(sh := sh.(sim := sh.sim.(s0 := n + 1)), dir := d.(pc := DReset1(l)))
    case DReset1(l) =>
      s.(sh := sh.(sim := sh.sim.(s1 := sh.users), trace := sh.trace.(passed := 0)), dir := d.(pc := DReset3(l)))
    case DReset3(l) => s.(sh := sh.(sim := sh.sim.(s3 := n)), dir := d.(pc := DReset4(l)))
    case DReset4(l) => s.(sh := sh.(sim := sh.sim.(s4 := 0)), dir := d.(pc := DResetT(l)))
    case DResetT(l) => s.(sh := sh.(tSem := ZEROES), dir := d.(pc := if l then DEndSim(0) else DClear))
    case _ => s
  }

  /** Clearing the queue, new users and the decision to go on. */
  function DirTurn(s: State, arr: seq<int>, newUsers: nat): State {
    var sh, d := s.sh, s.dir;
    match d.pc
    case DClear =>
      s.(sh := sh.(queue := [], desks := Vacated(sh.desks), hist := sh.hist.(issued := ZEROES),
                   trace := Called(sh.trace, QueueRuns.Clear).(taken := [])),
         dir := d.(pc := DUsers))
    case DUsers =>
      s.(sh := sh.(sim := sh.sim.(s1 := sh.sim.s1 + newUsers), users := sh.users + newUsers), dir := d.(pc := DDecide))
    case DDecide =>
      if sh.stats.currentDay == s.cfg.duration then s.(dir := d.(pc := DExplode, timeout := true))
      else if ValidChoice(arr, |sh.desks|) then
        s.(sh := sh.(desks := Reassigned(sh.desks, arr)), dir := d.(pc := DApply, arr := arr))
      else s
    case DApply => s.(sh := sh.(sSem := AssignedAll(d.arr)), dir := d.(pc := DExplode))
    case DExplode =>
      var explode := sh.stats.notServedDay >= s.cfg.threshold;
      s.(dir := d.(pc := if d.timeout || explode then DReset2(true) else DPipe, explode := explode))
    case _ => s
  }

  /** endSim and the wait for the dispenser's last statistics. */
  function DirEnd(s: State): State {
    var sh, d, n := s.sh, s.dir, |s.ops|;
    match d.pc
    case DEndSim(k) =>
      if k == 0 then s.(disp := s.disp.(pend1 := true), dir := d.(pc := DEndSim(1)))
      else if k <= n then s.(ops := Marked1(s.ops, k - 1), dir := d.(pc := DEndSim(k + 1)))
      else s.(dir := d.(pc := DWaitFinal))
    case DWaitFinal =>
      if sh.sim.s4 > 0 then s.(sh := sh.(sim := sh.sim.(s4 := sh.sim.s4 - 1)), dir := d.(pc := DDone)) else s
    case _ => s
  }

  function DirDo(s: State, arr: seq<int>, newUsers: nat): State {
    match s.dir.pc
    case DPipe | DPost2 | DWait0 | DWait1 | DOpen | DDay | DSuspend(_) | DWaitStats => DirDay(s)
    case DReset2(_) | DReset0(_) | DReset1(_) | DReset3(_) | DReset4(_) | DResetT(_) => DirReset(s)
    case DClear | DUsers | DDecide | DApply | DExplode => DirTurn(s, arr, newUsers)
    case DEndSim(_) | DWaitFinal | DDone => DirEnd(s)
  }

  // ----- runs

  datatype Step =
    | StepOp(i: nat, a: Act)
    | StepDisp(a: Act, req: Request)
    | StepDir(arr: seq<int>, newUsers: nat)
    | StepUser

  function Apply(s: State, step: Step): State {
    match step
    case StepOp(i, a) =>
      if i < |s.ops| then
        var r := OpDo(s.cfg, s.sh, s.ops[i], i + 1, a);
        s.(sh := r.sh, ops := s.ops[i := r.o])
      else s
    case StepDisp(a, req) => DispDo(s, a, req)
    case StepDir(arr, newUsers) => DirDo(s, arr, newUsers)
    case StepUser =>
      if s.sh.sim.s1 > 0 then
        s.(sh := s.sh.(sim := s.sh.sim.(s1 := s.sh.sim.s1 - 1), trace := s.sh.trace.(passed := s.sh.trace.passed + 1)))
      else s
  }

  function Run(s: State, steps: seq<Step>): State {
    if steps == [] then s else Apply(Run(s, steps[..|steps|-1]), steps[|steps|-1])
  }

  function NewOp(s: Service): Op {
    Op(OStart, s, 0, 0, BLANK, 0, Signals(false, false, false, false), Log(false, Nothing, false, false, 0, false))
  }

  /** After init_sem and the first service_choose and service_apply; children are running. */
  function Start(cfg: Config, services: seq<Service>, arr: seq<int>, users: nat): State {
    var n := |services|;
    State(cfg,
      Shared(Gates(n + 1, users, 1, n, 0), Locks(1, 1, 1), ZEROES, AssignedAll(arr), [], 1,
             seq(|arr|, k requires 0 <= k < |arr| => Desk(arr[k], 0, 0)),
             BLANK, [], users, History(ZEROES, 0, []), Trace([], [], [], 0)),
      seq(n, i requires 0 <= i < n => NewOp(services[i])),
      Disp(EStart, true, false, false, false, false, [], 0),
      Dir(DPipe, true, arr, false, false))
  }
}
