/** How processes wind down once they have noticed the end of the day: within a bounded number of their
    own steps, taking no new work; and what an interrupted call leaves behind. */
module Winding {
  import opened Office
  import opened Processes
  import opened Barrier

  // ----- operators

  /** The operator has noticed the end of the day, or is already on its way out. */
  predicate Leaves(o: Op) {
    match RegionOf(o.pc)
    case Leaving => true
    case Gate | Gone => false
    case _ => o.sig.usr2 || o.pc.OReturnDesk? || o.pc.OReturnTicket?
  }

  /** An upper bound on the steps up to the end of its day. */
  function StepsLeft(pc: OpPc): nat {
    match pc
    case OStart | OGate | OReady | OError | OExit => 0
    case OBarrier => 1
    case OCloseUnlock => 2
    case OClosePost => 3
    case OCloseFree => 4
    case OCloseLock => 5
    case OReturnDesk | OReturnTicket | OTop | OTicketFlag | OServed | OServedFlag => 6
    case OTicket | OServeUnlock | OStatUnlock | OStopped | OCountUnlock => 7
    case OServe | OStatWrite | OPauseStatUnlock | OCountWrite => 8
    case OTicketLock | OStatRead | OPauseWrite | OCountRead => 9
    case OStatLock | OPauseRead | OCountLock => 10
    case OFine | OPauseStatLock | OReserveUnlock => 11
    case OAck | OPauseUnlock | OReserve => 12
    case OCall | OPausePost | ODeskLock => 13
    case OPauseFree | ODesk => 14
    case OPauseLock => 15
    case OPause => 16
  }

  /** It stays where it is or comes closer to its way out. */
  predicate Winds(o: Op, p: Op) {
    || p == o
    || (StepsLeft(p.pc) < StepsLeft(o.pc) && (Leaves(p) || p.pc.OStart? || p.pc.OError?) && !p.pc.OCall?)
  }

  lemma WorkWinds(sh: Shared, o: Op, pid: nat)
    requires Leaves(o)
    ensures Winds(o, DeskGo(sh, o, pid).o) && Winds(o, CountGo(sh, o).o) && Winds(o, TicketGo(sh, o).o)
  {
    hide ReservedId, Reserved, Take, Bump;
  }

  lemma SessionWinds(sh: Shared, o: Op)
    requires Leaves(o)
    ensures Winds(o, ServeGo(sh, o).o) && Winds(o, SessionGo(sh, o).o) && Winds(o, StatGo(sh, o).o)
  {
    hide FirstOf, Without, Provided, ZeroAsInt;
  }

  lemma RestWinds(cfg: Config, sh: Shared, o: Op, pid: nat, choice: bool)
    requires Leaves(o)
    ensures Winds(o, PauseGo(cfg, sh, o, pid, choice).o) && Winds(o, RestGo(sh, o).o)
  {
    hide Released, Releases, Bump, TookPause;
  }

  lemma CloseWinds(sh: Shared, o: Op, pid: nat)
    requires Leaves(o)
    ensures Winds(o, CloseGo(sh, o, pid).o)
  {
    hide Released, Releases, Bump;
  }

  lemma GoWinds(cfg: Config, sh: Shared, o: Op, pid: nat, choice: bool)
    requires Leaves(o)
    ensures Winds(o, OpGo(cfg, sh, o, pid, choice).o)
  {
    hide GateGo, DeskGo, CountGo, TicketGo, ServeGo, SessionGo, StatGo, PauseGo, RestGo, CloseGo, Winds;
    WorkWinds(sh, o, pid);
    SessionWinds(sh, o);
    RestWinds(cfg, sh, o, pid, choice);
    CloseWinds(sh, o, pid);
  }

  lemma SignalWinds(o: Op, a: Act, sh: Shared, cfg: Config, pid: nat)
    requires Leaves(o) && !a.Go?
    ensures var p := OpDo(cfg, sh, o, pid, a).o;
            && Leaves(p) && (p.pc == o.pc || StepsLeft(p.pc) < StepsLeft(o.pc)) && (p.pc == o.pc || !p.pc.OCall?)
  {
  }

  /** An operator that has noticed the end of the day, or is on its way out, waits or comes closer to
      its barrier with each of its steps, is there within 16 of them, and calls no user any more. */
  lemma OperatorWinds(s: State, i: nat, a: Act)
    requires i < |s.ops| && Leaves(s.ops[i])
    ensures var o, p := s.ops[i], Apply(s, StepOp(i, a)).ops[i];
            && (p.pc == o.pc || StepsLeft(p.pc) < StepsLeft(o.pc) <= 16) && (Leaves(p) || p.pc.OStart? || p.pc.OError?)
            && (!o.pc.OCall? ==> !p.pc.OCall?)
  {
    hide OpGo, OpInterrupt;
    if a.Go? {
      GoWinds(s.cfg, s.sh, s.ops[i], i + 1, a.choice);
    } else {
      SignalWinds(s.ops[i], a, s.sh, s.cfg, i + 1);
      hide OpDo;
    }
  }

  // ----- the dispenser

  predicate Requesting(pc: DispPc) {
    match pc
    case ERecv | ECheck(_) | ELock(_) | EInsert(_) | EPost(_) | EUnlock => true
    case _ => false
  }

  function RequestsLeft(pc: DispPc): nat {
    match pc
    case ERecv => 1
    case ECheck(_) | EUnlock => 2
    case EPost(_) => 3
    case EInsert(_) => 4
    case ELock(_) => 5
    case _ => 0
  }

  /** A dispenser that has noticed the end of the day finishes the ticket it is at within five of its
      own steps, takes no other request, and then waits for the operators. */
  lemma DispenserWinds(s: State, a: Act, req: Request)
    requires s.disp.dayEnd && Requesting(s.disp.pc)
    ensures var d, e := s.disp, Apply(s, StepDisp(a, req)).disp;
            && e.dayEnd && (e.pc == d.pc || RequestsLeft(e.pc) < RequestsLeft(d.pc) <= 5)
            && (Requesting(e.pc) || e.pc.EWait3?)
            && (d.pc.ERecv? && a.Go? ==> e.pc.EWait3?)
  {
    hide DispMorning, DispTake, DispIssue, DispClose, DispFinal;
    TakeWinds(s, req);
    IssueWinds(s);
  }

  lemma TakeWinds(s: State, req: Request)
    requires s.disp.dayEnd
    ensures var d, e := s.disp, DispTake(s, req).disp;
            && e.dayEnd && (d.pc.ERecv? ==> e.pc.EWait3?) && (d.pc.ECheck? ==> e.pc.ERecv?)
            && (d.pc.ELock? ==> e.pc.ELock? || e.pc.EInsert?)
            && (e.pc == d.pc || RequestsLeft(e.pc) < RequestsLeft(d.pc))
  {
  }

  lemma IssueWinds(s: State)
    requires s.disp.dayEnd
    ensures var d, e := s.disp, DispIssue(s).disp;
            && e.dayEnd && (d.pc.EInsert? ==> e.pc.EPost? || e.pc.EUnlock?) && (d.pc.EPost? ==> e.pc.EUnlock?)
            && (d.pc.EUnlock? ==> e.pc.ERecv?) && (e.pc == d.pc || RequestsLeft(e.pc) < RequestsLeft(d.pc))
  {
    hide Bump;
  }

  // ----- interrupted calls

  /** What two steps of operator i do: the failing call and the one after it. */
  function Twice(s: State, i: nat, choice: bool): State { Apply(Apply(s, StepOp(i, Interrupt)), StepOp(i, Go(choice))) }

  /** A blocking call that fails takes nothing, and what was taken before it is given back: a ticket
      permit when the mutex of the queue is not obtained, a desk permit when that of the desks is not. */
  lemma InterruptedTakesAreUndone(s: State, i: nat, choice: bool)
    requires i < |s.ops| && s.ops[i].sig.pend2
    ensures var o, t := s.ops[i], Apply(s, StepOp(i, Interrupt));
            var u := Twice(s, i, choice);
            && t.sh == s.sh
            && (o.pc.ODesk? || o.pc.OTicket? || o.pc.OCountLock? || o.pc.OCall? ==>
                  t.ops[i] == o.(pc := OCloseLock, sig := o.sig.(usr2 := !o.pc.OCall?, pend2 := false)))
            && (o.pc.OTicketLock? ==>
                  && u.sh == s.sh.(tSem := u.sh.tSem) && Of(u.sh.tSem, o.service) == Of(s.sh.tSem, o.service) + 1
                  && (forall v: Service :: v != o.service ==> Of(u.sh.tSem, v) == Of(s.sh.tSem, v))
                  && u.ops[i].pc.OCloseLock? && u.ops[i].log == o.log.(held := Nothing))
            && (o.pc.ODeskLock? ==>
                  && u.sh == s.sh.(sSem := u.sh.sSem) && Of(u.sh.sSem, o.service) == Of(s.sh.sSem, o.service) + 1
                  && (forall v: Service :: v != o.service ==> Of(u.sh.sSem, v) == Of(s.sh.sSem, v))
                  && u.ops[i].pc.OCloseLock? && u.ops[i].log == o.log.(permit := false))
  {
  }

  /** What an operator does after an attempt to reserve: with a desk it goes on to be counted; without one,
      which a permit rules out, it gives the permit back when its flag is up and gives up otherwise.
      Either way the mutex of the desks is free again, and nothing else has changed. */
  lemma AfterReserving(s: State, i: nat, choice: bool)
    requires i < |s.ops| && s.ops[i].pc.OReserveUnlock?
    ensures var o, u := s.ops[i], Apply(s, StepOp(i, Go(choice)));
            && u == s.(sh := u.sh, ops := s.ops[i := o.(pc := u.ops[i].pc)])
            && u.sh == s.sh.(mem := s.sh.mem.(m0 := s.sh.mem.m0 + 1))
            && (u.ops[i].pc.OCountLock? <==> o.desk != 0)
            && (u.ops[i].pc.OReturnDesk? <==> o.desk == 0 && o.sig.usr2)
            && (u.ops[i].pc.OError? <==> o.desk == 0 && !o.sig.usr2)
  {
  }

  /** What an operator does with a ticket in its hand and after it, in this order and with nothing else
      changed: it errs on an identifier that reads as 0, leaves when its flag is up, and otherwise calls
      the user, waits for it, serves it and goes to the statistics; afterwards it leaves when its flag
      is up, or decides about a pause.  The flag it has acted on is down again. */
  lemma SessionOrder(s: State, i: nat, choice: bool)
    requires i < |s.ops| && s.ops[i].pc in {OServed, OCall, OAck, OFine, OServedFlag, OPause}
    ensures var o, t := s.ops[i], Apply(s, StepOp(i, Go(choice)));
            var p := t.ops[i];
            && t == s.(ops := s.ops[i := o.(pc := p.pc, sig := p.sig)])
            && match o.pc
               case OServed =>
                 if ZeroAsInt(o.ticket) then p.pc.OError? && p.sig == o.sig
                 else if o.sig.usr2 then p.pc.OCloseLock? && p.sig == o.sig.(usr2 := false)
                 else p.pc.OCall? && p.sig == o.sig
               case OCall => p.pc.OAck? && p.sig == o.sig
               case OAck => p.pc.OFine? && p.sig == o.sig
               case OFine => p.pc.OStatLock? && p.sig == o.sig
               case OServedFlag =>
                 if o.sig.usr2 then p.pc.OCloseLock? && p.sig == o.sig.(usr2 := false)
                 else p.pc.OPause? && p.sig == o.sig
               case _ =>
                 && p.sig == o.sig
                 && if choice && s.sh.stats.pauses < s.cfg.maxPause then p.pc.OPauseLock? else p.pc.OTop?
  {
  }

  /** The order of the operator's program: what may come after each point. */
  predicate Follows(p: OpPc, q: OpPc) {
    match p
    case OStart => q.OGate? || q.OExit?
    case OGate => q.OReady? || q.OExit?
    case OReady => q.ODesk?
    case ODesk => q.ODeskLock?
    case ODeskLock => q.OReserve?
    case OReserve => q.OReserveUnlock?
    case OReserveUnlock => q.OCountLock? || q.OReturnDesk? || q.OError?
    case OCountLock => q.OCountRead?
    case OCountRead => q.OCountWrite?
    case OCountWrite => q.OCountUnlock?
    case OTop => q.OCloseLock? || q.OTicket?
    case OTicket => q.OTicketFlag?
    case OTicketFlag => q.OCloseLock? || q.OTicketLock?
    case OTicketLock => q.OServe?
    case OServe => q.OServeUnlock?
    case OServeUnlock => q.OServed?
    case OServed => q.OError? || q.OCloseLock? || q.OCall?
    case OCall => q.OAck?
    case OAck => q.OFine?
    case OFine => q.OStatLock?
    case OStatLock => q.OStatRead?
    case OStatRead => q.OStatWrite?
    case OStatWrite => q.OStatUnlock?
    case OStatUnlock => q.OServedFlag?
    case OServedFlag => q.OCloseLock? || q.OPause?
    case OPause => q.OPauseLock? || q.OTop?
    case OPauseLock => q.OPauseFree?
    case OPauseFree => q.OPausePost?
    case OPausePost => q.OPauseUnlock?
    case OPauseUnlock => q.OPauseStatLock?
    case OPauseStatLock => q.OPauseRead?
    case OPauseRead => q.OPauseWrite?
    case OPauseWrite => q.OPauseStatUnlock?
    case OPauseStatUnlock => q.OStopped?
    case OStopped | OCountUnlock => q.OTop?
    case OReturnDesk | OReturnTicket => q.OCloseLock?
    case OCloseLock => q.OCloseFree?
    case OCloseFree => q.OClosePost?
    case OClosePost => q.OCloseUnlock?
    case OCloseUnlock => q.OBarrier?
    case OBarrier => q.OStart?
    case OError | OExit => false
  }

  lemma GoFollows(cfg: Config, sh: Shared, o: Op, pid: nat, choice: bool)
    ensures var q := OpGo(cfg, sh, o, pid, choice).o.pc; q == o.pc || Follows(o.pc, q)
  {
    hide Reserved, ReservedId, FirstOf, Without, Take, Bump, Released, Releases, Provided, TookPause, ZeroAsInt;
  }

  /** An operator goes through its program in this order, and one that is continued after its pause has
      noticed the end of the day. */
  lemma ProgramOrder(s: State, i: nat, choice: bool)
    requires i < |s.ops|
    ensures var o, p := s.ops[i], Apply(s, StepOp(i, Go(choice))).ops[i];
            && (p.pc == o.pc || Follows(o.pc, p.pc))
            && (o.pc.OStopped? && p.pc != o.pc ==>
                  (o.sig.usr2 || o.sig.pend2) && p == o.(pc := OTop, sig := o.sig.(usr2 := true, pend2 := false)))
  {
    GoFollows(s.cfg, s.sh, s.ops[i], i + 1, choice);
    if !s.ops[i].pc.OStopped? { hide OpGo; }
  }

  /** A delivered signal is noticed by everybody who does not block it, and stays pending otherwise. */
  lemma SignalsAreNoticed(s: State, i: nat)
    requires i < |s.ops|
    ensures var o := s.ops[i];
            var p, q := Apply(s, StepOp(i, DeliverDayEnd)).ops[i], Apply(s, StepOp(i, DeliverSimEnd)).ops[i];
            && (o.sig.pend1 ==> q == o.(sig := o.sig.(usr1 := true, pend1 := false)))
            && (o.sig.pend2 && !(RegionOf(o.pc) == Updating || o.pc.OAck? || o.pc.OFine?) ==>
                  p == o.(sig := o.sig.(usr2 := true, pend2 := false)))
            && (o.sig.pend2 && (RegionOf(o.pc) == Updating || o.pc.OAck? || o.pc.OFine?) ==> p == o)
  {
  }

  /** The dispenser blocks nothing.  The end of the day makes it give up a request for which it waits
      for the mutex of the queue; the end of the simulation ends any of its waits at the start of a day. */
  lemma DispenserNotices(s: State, req: Request)
    ensures var d := s.disp;
            && (d.pend2 ==> Apply(s, StepDisp(DeliverDayEnd, req)) == s.(disp := d.(dayEnd := true, pend2 := false)))
            && (d.pend1 ==> Apply(s, StepDisp(DeliverSimEnd, req)) == s.(disp := d.(simEnd := true, pend1 := false)))
            && (d.pend2 && d.pc.ELock? ==>
                  Apply(s, StepDisp(Interrupt, req)) == s.(disp := d.(pc := ERecv, dayEnd := true, pend2 := false)))
            && (d.pend1 && (d.pc.EWait2? || d.pc.EJoin? || d.pc.EGate?) ==>
                  Apply(s, StepDisp(Interrupt, req))
                  == s.(disp := d.(pc := EFinalLock, simEnd := true, pend1 := false)))
  {
  }

  /** Where the dispenser decides, and on what: on the end of the simulation at the start of a day, before
      it joins and after it has read the services; on the end of the day before and after it has received a
      request, on the request itself, and on the room in the queue.  A day begins and ends with its flag
      down. */
  lemma DispenserDecides(s: State, choice: bool, req: Request)
    ensures var d, t := s.disp, Apply(s, StepDisp(Go(choice), req)).disp; var e := t.pc;
            match d.pc
            case EStart =>
              !t.dayEnd && e == if d.simEnd then EFinalLock else if d.first then EJoin else EWait2
            case EPost4 => !t.dayEnd && e == EStart
            case EJoin => if d.simEnd then e == EFinalLock else e == EJoin || e == EGate
            case ERead => e == if s.sh.pipe == [] then ERead else if d.simEnd then EFinalLock else ERecv
            case ERecv => e == if d.dayEnd then EWait3 else if req.service in d.enabled then ECheck(req) else ERecv
            case ECheck(r) => e == if d.dayEnd then ERecv else ELock(r)
            case ELock(r) => e == ELock(r) || e == EInsert(r)
            case EInsert(r) => e == if |s.sh.queue| < s.cfg.cap then EPost(r.service) else EUnlock
            case _ => true
  {
    hide DispFinal, Bump, Closed, Record;
  }
}
