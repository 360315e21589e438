/** Runs that show what can really happen: a day with two operators at work, the identifier that
    reads as 0, the pause limit exceeded, and the unprotected test of that limit beside an update. */
module Witnesses {
  import opened Office
  import opened Processes
  import opened Invariant
  import opened Theorems
  import opened Races
  import opened Runs

  /** Two desks and two operators for service 1, no users, at most one pause a day. */
  const TWO := Setup(Config(2, 1, 1, 1), [1, 1], [1, 1], 0)

  /** The day is open, the queue empty, nobody in a critical section, and the operators have
      their desks. */
  predicate AtWork(s: State, n: nat) {
    && s.cfg == TWO.cfg && |s.ops| == 2 && s.sh.nextId == n && s.sh.queue == [] && s.sh.stats.pauses == 0
    && s.sh.mem == Locks(1, 1, 1) && s.disp.pc.ERecv? && !s.disp.dayEnd && 1 in s.disp.enabled
    && forall i :: 0 <= i < 2 ==> Ready1(s.ops[i], i + 1)
  }

  predicate Ready1(o: Op, desk: nat) { o.service == 1 && !o.sig.usr2 && o.log.own && o.desk == desk }

  // ----- the start of the day

  const NEW := NewOp(1)
  const JOINED := NEW.(pc := OGate, log := NEW.log.(days := 1))
  const READY := JOINED.(pc := OReady)

  lemma BeginState()
    ensures var b := Begin(TWO);
            && b.cfg == TWO.cfg && b.ops == [NEW, NEW]
            && b.disp == Disp(EStart, true, false, false, false, false, [], 0)
            && b.dir == Dir(DPipe, true, [1, 1], false, false)
            && b.sh == Shared(Gates(3, 0, 1, 2, 0), Locks(1, 1, 1), ZEROES, [2, 0, 0, 0, 0, 0], [], 1,
                              [Desk(1, 0, 0), Desk(1, 0, 0)], BLANK, [], 0, History(ZEROES, 0, []),
                              Trace([], [], [], 0))
  {
    assert [1, 1][1..] == [1] && [1][1..] == [];
    assert Assigned([1], 1) == 1;
    assert AssignedAll([1, 1]) == [2, 0, 0, 0, 0, 0];
  }

  /** The operators and the dispenser join the day. */
  lemma Joins() returns (s: State)
    ensures Leads(Begin(TWO), s)
    ensures var b := Begin(TWO);
            s == b.(sh := b.sh.(pipe := [[1, 1]], sim := Gates(0, 0, 1, 2, 0)), ops := [JOINED, JOINED],
                    disp := b.disp.(pc := EGate, days := 1), dir := b.dir.(pc := DWait0))
  {
    hide Leads;
    BeginState();
    var b := Begin(TWO);
    hide Begin;
    LeadsNowhere(b);
    s := b.(sh := b.sh.(pipe := [[1, 1]]), dir := b.dir.(pc := DWait0));
    assert [] + [[1, 1]] == [[1, 1]];
    DirLeads(b, b, s);
    s := OpLeads(b, s, 0, Go(false), s.sh.(sim := Gates(2, 0, 1, 2, 0)), JOINED);
    s := OpLeads(b, s, 1, Go(false), s.sh.(sim := Gates(1, 0, 1, 2, 0)), JOINED);
    assert s.ops == [JOINED, JOINED];
    var t := s.(disp := s.disp.(pc := EJoin));
    DispLeads(b, s, Go(false), t);
    s := t.(sh := t.sh.(sim := Gates(0, 0, 1, 2, 0)), disp := t.disp.(pc := EGate, days := 1));
    DispLeads(b, t, Go(false), s);
  }

  /** Everybody has joined and the gate is open. */
  lemma Opens() returns (s: State)
    ensures Leads(Begin(TWO), s)
    ensures s.cfg == TWO.cfg && s.disp == Disp(ERecv, true, false, false, false, false, [1, 1], 1)
    ensures s.ops == [READY, READY]
    ensures s.sh.mem == Locks(1, 1, 1) && s.sh.queue == [] && s.sh.nextId == 1 && s.sh.stats == BLANK
    ensures s.sh.sSem == [2, 0, 0, 0, 0, 0] && s.sh.desks == [Desk(1, 0, 0), Desk(1, 0, 0)]
  {
    hide Leads;
    var b := Begin(TWO);
    var t := Joins();
    BeginState();
    hide Begin;
    s := t.(dir := t.dir.(pc := DWait1));
    DirLeads(b, t, s);
    t := s.(dir := s.dir.(pc := DOpen));
    DirLeads(b, s, t);
    s := t.(sh := t.sh.(sim := Gates(0, 0, 0, 2, 0), hist := t.sh.hist.(day := 1)), dir := t.dir.(pc := DDay));
    DirLeads(b, t, s);
    s := OpLeads(b, s, 0, Go(false), s.sh, READY);
    s := OpLeads(b, s, 1, Go(false), s.sh, READY);
    assert s.ops == [READY, READY];
    s := Reads(b, s);
  }

  /** The dispenser passes the open gate and reads the services of the day. */
  lemma Reads(b: State, s: State) returns (t: State)
    requires Leads(b, s) && s.disp.pc.EGate? && s.sh.sim.s2 == 0 && s.sh.pipe != [] && !s.disp.simEnd
    ensures Leads(b, t)
    ensures t == s.(sh := s.sh.(pipe := s.sh.pipe[1..]), disp := s.disp.(pc := ERecv, enabled := s.sh.pipe[0]))
  {
    hide Leads;
    var r := s.(disp := s.disp.(pc := ERead));
    DispLeads(b, s, Go(false), r);
    t := s.(sh := s.sh.(pipe := s.sh.pipe[1..]), disp := s.disp.(pc := ERecv, enabled := s.sh.pipe[0]));
    DispLeads(b, r, Go(false), t);
  }

  lemma Begins() returns (s: State)
    ensures Leads(Begin(TWO), s) && AtWork(s, 1) && s.ops[0].pc.OTop? && s.ops[1].pc.OTop?
  {
    hide Leads, Goes;
    s := Opens();
    var free := Desk(1, 0, 0);
    assert FirstFree(s.sh.desks, 1) == 0;
    var q := ToDesk(s.cfg, 1, s.sh, s.ops[0]);
    GoesLeads(s, 0, q);
    var s1 := s.(sh := q.sh, ops := s.ops[0 := q.o]);
    LeadsFurther(Begin(TWO), s, s1);
    var taken := s1.sh.desks;
    assert taken == [Desk(1, 1, 1), free];
    assert taken[1..] == [free] && FirstFree([free], 1) == 0 && FirstFree(taken, 1) == 1;
    var p := ToDesk(s.cfg, 2, s1.sh, s1.ops[1]);
    GoesLeads(s1, 1, p);
    s := s1.(sh := p.sh, ops := s1.ops[1 := p.o]);
    LeadsFurther(Begin(TWO), s1, s);
  }

  // ----- one ticket

  /** A ticket is issued and operator i has it in hand. */
  lemma TicketInHand(b: State, s: State, i: nat, n: nat) returns (t: State)
    requires Leads(b, s) && AtWork(s, n) && i < 2 && s.ops[i].pc.OTop?
    ensures Leads(b, t) && AtWork(t, n + 1)
    ensures t.ops[i] == s.ops[i].(pc := OServed, ticket := n, log := s.ops[i].log.(held := Slip))
    ensures t.ops[1-i] == s.ops[1-i]
  {
    hide Leads, Goes;
    var r := IssuesTicket(b, s, ASK);
    assert r.sh.queue == [Ticket(n, 1, 0, 0)] && FirstOf(r.sh.queue, 1) == 0;
    var q := TakesTicket(r.cfg, i + 1, r.sh, r.ops[i]);
    GoesLeads(r, i, q);
    t := r.(sh := q.sh, ops := r.ops[i := q.o]);
    LeadsFurther(b, r, t);
  }

  /** A ticket is issued and served, and operator i is about to decide about a pause. */
  lemma ServesOne(b: State, s: State, i: nat, n: nat) returns (t: State)
    requires Leads(b, s) && AtWork(s, n) && i < 2 && s.ops[i].pc.OTop? && !ZeroAsInt(n)
    ensures Leads(b, t) && AtWork(t, n + 1) && t.ops[i].pc.OPause? && t.ops[1-i] == s.ops[1-i]
  {
    hide Leads, Goes;
    var r := TicketInHand(b, s, i, n);
    GoesNowhere(r.cfg, i + 1, Result(r.sh, r.ops[i]));
    var q := CompletesService(r.cfg, i + 1, Result(r.sh, r.ops[i]), Result(r.sh, r.ops[i]));
    GoesLeads(r, i, q);
    t := r.(sh := q.sh, ops := r.ops[i := q.o]);
    LeadsFurther(b, r, t);
  }

  lemma NoPause(b: State, s: State, i: nat, n: nat) returns (t: State)
    requires Leads(b, s) && AtWork(s, n) && i < |s.ops| && s.ops[i].pc.OPause?
    ensures Leads(b, t) && AtWork(t, n) && |t.ops| == |s.ops|
    ensures t.ops[i].pc.OTop? && forall j :: 0 <= j < |s.ops| && j != i ==> t.ops[j] == s.ops[j]
  {
    hide Leads;
    t := OpLeads(b, s, i, Go(false), s.sh, s.ops[i].(pc := OTop));
  }

  // ----- the identifier that reads as 0

  /** For every n up to 2^32 a run issues and serves the tickets before n and brings the operator
      back to the top of its loop, at its desk, with an empty queue. */
  lemma {:induction false} CountsUpTo(n: nat) returns (s: State)
    requires 1 <= n <= TWO32
    ensures Leads(Begin(TWO), s) && AtWork(s, n) && s.ops[0].pc.OTop? && s.ops[1].pc.OTop?
    decreases n
  {
    hide Leads, AtWork;
    if n == 1 {
      s := Begins();
    } else {
      var p := CountsUpTo(n - 1);
      SmallNotZero(n - 1);
      var r := ServesOne(Begin(TWO), p, 0, n - 1);
      WorkForce(r, n);
      s := NoPause(Begin(TWO), r, 0, n);
    }
  }

  /** The error exit is really taken: with ticket number 2^32. */
  lemma ErrorExitHappens()
    ensures exists s :: Reachable(s) && |s.ops| == 2 && s.ops[0].pc.OServed? && s.ops[0].ticket == TWO32
                        && Apply(s, StepOp(0, Go(false))).ops[0].pc.OError?
  {
    hide Leads, Reachable, AtWork;
    var p := CountsUpTo(TWO32);
    var s := TicketInHand(Begin(TWO), p, 0, TWO32);
    assert |s.ops| == 2 by { assert AtWork(s, TWO32 + 1); WorkForce(s, TWO32 + 1); }
    BeginReachable();
    StaysReachable(Begin(TWO), s);
    ZeroRead(s);
    assert Reachable(s);
  }

  lemma WorkForce(s: State, n: nat)
    requires AtWork(s, n)
    ensures |s.ops| == 2
  {
  }

  lemma ZeroRead(s: State)
    requires 0 < |s.ops| && s.ops[0].pc.OServed? && s.ops[0].ticket == TWO32
    ensures Apply(s, StepOp(0, Go(false))).ops[0].pc.OError?
  {
    assert ZeroAsInt(TWO32);
  }

  lemma BeginReachable()
    ensures Reachable(Begin(TWO))
  {
    assert ValidSetup(TWO);
    assert Run(Begin(TWO), []) == Begin(TWO);
  }

  // ----- pauses

  /** Both operators have served a ticket and are at the test of the pause limit. */
  lemma BothTest() returns (s: State)
    ensures Leads(Begin(TWO), s) && AtWork(s, 3) && s.ops[0].pc.OPause? && s.ops[1].pc.OPause?
  {
    hide Leads;
    var r := Begins();
    SmallNotZero(1);
    SmallNotZero(2);
    r := ServesOne(Begin(TWO), r, 0, 1);
    s := ServesOne(Begin(TWO), r, 1, 2);
  }

  lemma PassesNow(b: State, s: State, i: nat) returns (t: State)
    requires Leads(b, s) && i < |s.ops| && s.ops[i].pc.OPause? && s.sh.stats.pauses < s.cfg.maxPause
    ensures Leads(b, t) && t == s.(ops := s.ops[i := s.ops[i].(pc := OPauseLock)])
  {
    hide Leads;
    LeadsOn(b, s, StepOp(i, Go(true)));
    t := s.(ops := s.ops[i := s.ops[i].(pc := OPauseLock)]);
  }

  /** The unprotected test really stands beside an update: operator 0 is at the test of the pause
      limit while operator 1 counts its pause. */
  lemma TestMeetsUpdate()
    ensures exists s :: Reachable(s) && Conflict(s, AnOperator(0), AnOperator(1), StatData)
  {
    hide Leads, Reachable, Goes;
    var s := BothTest();
    var r := PassesNow(Begin(TWO), s, 1);
    var q := GivesUpDesk(r.cfg, 2, r.sh, r.ops[1]);
    GoesLeads(r, 1, q);
    var t := r.(sh := q.sh, ops := r.ops[1 := q.o]);
    LeadsFurther(Begin(TWO), r, t);
    BeginReachable();
    StaysReachable(Begin(TWO), t);
    assert Conflict(t, AnOperator(0), AnOperator(1), StatData);
  }

  /** An operator past the test counts its pause. */
  lemma Pauses(b: State, s: State, i: nat) returns (t: State)
    requires Leads(b, s) && i < |s.ops| && s.ops[i].pc.OPauseLock? && s.sh.mem == Locks(1, 1, 1)
    ensures Leads(b, t) && t.cfg == s.cfg && t.sh.mem == s.sh.mem && t.sh.stats.pauses == s.sh.stats.pauses + 1
    ensures |t.ops| == |s.ops| && forall j :: 0 <= j < |s.ops| && j != i ==> t.ops[j] == s.ops[j]
  {
    hide Leads, Goes;
    var q := GivesUpDesk(s.cfg, i + 1, s.sh, s.ops[i]);
    GoesLeads(s, i, q);
    var r := s.(sh := q.sh, ops := s.ops[i := q.o]);
    LeadsFurther(b, s, r);
    var p := CountsPause(r.cfg, i + 1, r.sh, r.ops[i]);
    GoesLeads(r, i, p);
    t := r.(sh := p.sh, ops := r.ops[i := p.o]);
    LeadsFurther(b, r, t);
  }

  /** The pause limit is really exceeded, by as much as the bound allows: two pauses with a limit
      of one and two operators. */
  lemma LimitIsExceeded()
    ensures exists s :: Reachable(s) && |s.ops| == 2 && s.cfg.maxPause == 1 && s.sh.stats.pauses == 2
  {
    hide Leads, Reachable;
    var s := BothTest();
    s := PassesNow(Begin(TWO), s, 0);
    s := PassesNow(Begin(TWO), s, 1);
    s := Pauses(Begin(TWO), s, 0);
    s := Pauses(Begin(TWO), s, 1);
    BeginReachable();
    StaysReachable(Begin(TWO), s);
    assert Reachable(s);
  }
}
