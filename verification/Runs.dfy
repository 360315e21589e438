/** Building runs: what one process can do on its own, put together step by step. */
module Runs {
  import opened Office
  import opened Processes
  import opened Invariant

  // ----- from state to state

  /** Some run leads from s to t. */
  ghost predicate Leads(s: State, t: State) { exists steps: seq<Step> :: Run(s, steps) == t }

  lemma {:induction false} RunConcat(s: State, a: seq<Step>, b: seq<Step>)
    ensures Run(s, a + b) == Run(Run(s, a), b)
  {
    hide Apply;
    if b == [] {
      assert a + b == a;
    } else {
      var before := b[..|b|-1];
      assert (a + b)[..|a + b|-1] == a + before && (a + b)[|a + b|-1] == b[|b|-1];
      RunConcat(s, a, before);
    }
  }

  lemma LeadsNowhere(s: State)
    ensures Leads(s, s)
  {
    assert Run(s, []) == s;
  }

  /** One more step. */
  lemma LeadsOn(s: State, t: State, step: Step)
    requires Leads(s, t)
    ensures Leads(s, Apply(t, step))
  {
    hide Apply;
    var steps :| Run(s, steps) == t;
    var more := steps + [step];
    assert more[..|more|-1] == steps;
    assert Run(s, more) == Apply(t, step);
  }

  lemma LeadsFurther(s: State, t: State, r: State)
    requires Leads(s, t) && Leads(t, r)
    ensures Leads(s, r)
  {
    hide Run;
    var a :| Run(s, a) == t;
    var b :| Run(t, b) == r;
    RunConcat(s, a, b);
    assert Run(s, a + b) == r;
  }

  lemma StaysReachable(s: State, t: State)
    requires Reachable(s) && Leads(s, t)
    ensures Reachable(t)
  {
    hide Run, Begin, ValidSetup;
    var u, a :| ValidSetup(u) && s == Run(Begin(u), a);
    var b :| Run(s, b) == t;
    RunConcat(Begin(u), a, b);
    assert t == Run(Begin(u), a + b);
  }

  lemma BeginIsReachable(u: Setup)
    requires ValidSetup(u)
    ensures Reachable(Begin(u))
  {
    assert Run(Begin(u), []) == Begin(u);
  }

  // ----- single steps

  const ASK := Request(1, 0, 0)

  /** Operator i takes a step that leads to o and leaves the shared state as sh. */
  lemma OpLeads(b: State, s: State, i: nat, a: Act, sh: Shared, o: Op) returns (t: State)
    requires Leads(b, s) && i < |s.ops| && OpDo(s.cfg, s.sh, s.ops[i], i + 1, a) == Result(sh, o)
    ensures Leads(b, t) && t == s.(sh := sh, ops := s.ops[i := o])
  {
    hide Leads, OpDo;
    LeadsOn(b, s, StepOp(i, a));
    t := s.(sh := sh, ops := s.ops[i := o]);
    assert Apply(s, StepOp(i, a)) == t;
  }

  lemma DirLeads(b: State, s: State, t: State)
    requires Leads(b, s) && DirDo(s, [], 0) == t
    ensures Leads(b, t)
  {
    LeadsOn(b, s, StepDir([], 0));
  }

  lemma DispLeads(b: State, s: State, a: Act, t: State)
    requires Leads(b, s) && DispDo(s, a, ASK) == t
    ensures Leads(b, t)
  {
    LeadsOn(b, s, StepDisp(a, ASK));
  }

  // ----- one operator

  /** The operator's program runs on, with the given random decisions. */
  function Walk(cfg: Config, pid: nat, r: Result, choices: seq<bool>): Result {
    if choices == [] then r
    else
      var q := Walk(cfg, pid, r, choices[..|choices|-1]);
      OpDo(cfg, q.sh, q.o, pid, Go(choices[|choices|-1]))
  }

  ghost predicate Goes(cfg: Config, pid: nat, r: Result, q: Result) {
    exists choices: seq<bool> :: Walk(cfg, pid, r, choices) == q
  }

  lemma GoesNowhere(cfg: Config, pid: nat, r: Result)
    ensures Goes(cfg, pid, r, r)
  {
    assert Walk(cfg, pid, r, []) == r;
  }

  lemma GoesOn(cfg: Config, pid: nat, r: Result, q: Result, choice: bool)
    requires Goes(cfg, pid, r, q)
    ensures Goes(cfg, pid, r, OpDo(cfg, q.sh, q.o, pid, Go(choice)))
  {
    hide OpDo;
    var choices :| Walk(cfg, pid, r, choices) == q;
    var more := choices + [choice];
    assert more[..|more|-1] == choices;
    assert Walk(cfg, pid, r, more) == OpDo(cfg, q.sh, q.o, pid, Go(choice));
  }

  lemma {:induction false} WalkIsRun(s: State, i: nat, choices: seq<bool>)
    requires i < |s.ops|
    ensures var q := Walk(s.cfg, i + 1, Result(s.sh, s.ops[i]), choices);
            Leads(s, s.(sh := q.sh, ops := s.ops[i := q.o]))
  {
    hide OpDo, Leads;
    if choices == [] {
      LeadsNowhere(s);
      assert s.ops[i := s.ops[i]] == s.ops;
    } else {
      var before := choices[..|choices|-1];
      WalkIsRun(s, i, before);
      var q := Walk(s.cfg, i + 1, Result(s.sh, s.ops[i]), before);
      var t := s.(sh := q.sh, ops := s.ops[i := q.o]);
      LeadsOn(s, t, StepOp(i, Go(choices[|choices|-1])));
      var p := OpDo(s.cfg, q.sh, q.o, i + 1, Go(choices[|choices|-1]));
      assert s.ops[i := q.o][i := p.o] == s.ops[i := p.o];
    }
  }

  /** What an operator can do on its own, it can do in a run. */
  lemma GoesLeads(s: State, i: nat, q: Result)
    requires i < |s.ops| && Goes(s.cfg, i + 1, Result(s.sh, s.ops[i]), q)
    ensures Leads(s, s.(sh := q.sh, ops := s.ops[i := q.o]))
  {
    hide Leads, Walk;
    var choices :| Walk(s.cfg, i + 1, Result(s.sh, s.ops[i]), choices) == q;
    WalkIsRun(s, i, choices);
  }

  // ----- the operator's program, piece by piece

  /** From the open gate to the top of the serving loop, at the first free desk of its service. */
  lemma ToDesk(cfg: Config, pid: nat, sh: Shared, o: Op) returns (q: Result)
    requires o.pc.OReady? && pid != 0 && Of(sh.sSem, o.service) > 0 && sh.mem.m0 > 0 && sh.mem.m2 > 0
    requires FirstFree(sh.desks, o.service) < |sh.desks|
    ensures Goes(cfg, pid, Result(sh, o), q)
    ensures q.sh == sh.(sSem := Take(sh.sSem, o.service), desks := Reserved(sh.desks, o.service, pid),
                        stats := sh.stats.(active := sh.stats.active + 1), trace := q.sh.trace)
    ensures q.o == o.(pc := OTop, desk := ReservedId(sh.desks, o.service), tmp := sh.stats,
                      sig := o.sig.(usr2 := false),
                      log := o.log.(permit := false, own := true, uncounted := false,
                                    missed := o.log.missed || o.sig.usr2))
  {
    hide Goes, Reserved;
    var r, id := Result(sh, o), ReservedId(sh.desks, o.service);
    GoesNowhere(cfg, pid, r);
    q := r;
    GoesOn(cfg, pid, r, q, false);
    q := Result(sh, o.(pc := ODesk, desk := 0, sig := o.sig.(usr2 := false),
                       log := o.log.(missed := o.log.missed || o.sig.usr2)));
    GoesOn(cfg, pid, r, q, false);
    q := Result(sh.(sSem := Take(sh.sSem, o.service)), q.o.(pc := ODeskLock, log := q.o.log.(permit := true)));
    GoesOn(cfg, pid, r, q, false);
    q := Result(q.sh.(mem := sh.mem.(m0 := sh.mem.m0 - 1)), q.o.(pc := OReserve));
    GoesOn(cfg, pid, r, q, false);
    q := Result(q.sh.(desks := Reserved(sh.desks, o.service, pid), trace := Booked(sh.trace, id)),
                q.o.(pc := OReserveUnlock, desk := id,
                     log := q.o.log.(permit := false, own := true, uncounted := true)));
    GoesOn(cfg, pid, r, q, false);
    q := Result(q.sh.(mem := sh.mem), q.o.(pc := OCountLock));
    q := Counts(cfg, pid, r, q);
  }

  lemma Counts(cfg: Config, pid: nat, r: Result, p: Result) returns (q: Result)
    requires Goes(cfg, pid, r, p) && p.o.pc.OCountLock? && p.sh.mem.m2 > 0
    ensures Goes(cfg, pid, r, q)
    ensures q == Result(p.sh.(stats := p.sh.stats.(active := p.sh.stats.active + 1), trace := q.sh.trace),
                        p.o.(pc := OTop, tmp := p.sh.stats, log := p.o.log.(uncounted := false)))
  {
    hide Goes;
    var sh, o := p.sh, p.o;
    GoesOn(cfg, pid, r, p, false);
    q := Result(sh.(mem := sh.mem.(m2 := sh.mem.m2 - 1)), o.(pc := OCountRead));
    GoesOn(cfg, pid, r, q, false);
    q := Result(q.sh, o.(pc := OCountWrite, tmp := sh.stats));
    GoesOn(cfg, pid, r, q, false);
    q := Result(q.sh.(stats := sh.stats.(active := sh.stats.active + 1), trace := Summed(sh.trace, Activated)),
                q.o.(pc := OCountUnlock, log := o.log.(uncounted := false)));
    GoesOn(cfg, pid, r, q, false);
    q := Result(q.sh.(mem := sh.mem), q.o.(pc := OTop));
  }

  /** From the top of the loop, with a permit to take, to the ticket in hand. */
  lemma TakesTicket(cfg: Config, pid: nat, sh: Shared, o: Op) returns (q: Result)
    requires o.pc.OTop? && !o.sig.usr2 && Of(sh.tSem, o.service) > 0 && sh.mem.m1 > 0
    requires FirstOf(sh.queue, o.service) < |sh.queue|
    ensures Goes(cfg, pid, Result(sh, o), q)
    ensures var k := FirstOf(sh.queue, o.service);
            && q.sh == sh.(tSem := Take(sh.tSem, o.service), queue := Without(sh.queue, k), trace := q.sh.trace)
            && q.o == o.(pc := OServed, ticket := sh.queue[k].id, log := o.log.(held := Slip))
  {
    hide Goes, Without;
    var r, k := Result(sh, o), FirstOf(sh.queue, o.service);
    GoesNowhere(cfg, pid, r);
    GoesOn(cfg, pid, r, r, false);
    q := Result(sh, o.(pc := OTicket));
    GoesOn(cfg, pid, r, q, false);
    q := Result(sh.(tSem := Take(sh.tSem, o.service)), o.(pc := OTicketFlag, log := o.log.(held := Permit)));
    GoesOn(cfg, pid, r, q, false);
    q := Result(q.sh, q.o.(pc := OTicketLock));
    GoesOn(cfg, pid, r, q, false);
    q := Result(q.sh.(mem := sh.mem.(m1 := sh.mem.m1 - 1)), q.o.(pc := OServe));
    GoesOn(cfg, pid, r, q, false);
    q := Result(q.sh.(queue := Without(sh.queue, k), trace := Called(sh.trace, QueueRuns.Serve(o.service))),
                q.o.(pc := OServeUnlock, ticket := sh.queue[k].id, log := o.log.(held := Slip)));
    GoesOn(cfg, pid, r, q, false);
    q := Result(q.sh.(mem := sh.mem), q.o.(pc := OServed));
  }

  /** From the ticket in hand, whose identifier does not read as 0, to the test for a pause. */
  lemma CompletesService(cfg: Config, pid: nat, r: Result, p: Result) returns (q: Result)
    requires Goes(cfg, pid, r, p) && p.o.pc.OServed? && !p.o.sig.usr2 && p.sh.mem.m2 > 0 && !ZeroAsInt(p.o.ticket)
    ensures Goes(cfg, pid, r, q)
    ensures q.sh == p.sh.(stats := Provided(p.sh.stats, p.o.service), trace := q.sh.trace)
    ensures q.o == p.o.(pc := OPause, tmp := p.sh.stats, log := p.o.log.(held := Nothing))
  {
    hide Goes, Provided;
    GoesOn(cfg, pid, r, p, false);
    q := Result(p.sh, p.o.(pc := OCall));
    GoesOn(cfg, pid, r, q, false);
    q := Result(p.sh, p.o.(pc := OAck));
    GoesOn(cfg, pid, r, q, false);
    q := Result(p.sh, p.o.(pc := OFine));
    GoesOn(cfg, pid, r, q, false);
    q := Result(p.sh, p.o.(pc := OStatLock));
    q := CountsService(cfg, pid, r, q);
  }

  lemma CountsService(cfg: Config, pid: nat, r: Result, p: Result) returns (q: Result)
    requires Goes(cfg, pid, r, p) && p.o.pc.OStatLock? && !p.o.sig.usr2 && p.sh.mem.m2 > 0
    ensures Goes(cfg, pid, r, q)
    ensures q.sh == p.sh.(stats := Provided(p.sh.stats, p.o.service), trace := q.sh.trace)
    ensures q.o == p.o.(pc := OPause, tmp := p.sh.stats, log := p.o.log.(held := Nothing))
  {
    hide Goes;
    var sh, o := p.sh, p.o;
    GoesOn(cfg, pid, r, p, false);
    q := Result(sh.(mem := sh.mem.(m2 := sh.mem.m2 - 1)), o.(pc := OStatRead));
    GoesOn(cfg, pid, r, q, false);
    q := Result(q.sh, o.(pc := OStatWrite, tmp := sh.stats));
    GoesOn(cfg, pid, r, q, false);
    q := Result(q.sh.(stats := Provided(sh.stats, o.service), trace := Summed(sh.trace, Served(o.service))),
                q.o.(pc := OStatUnlock, log := o.log.(held := Nothing)));
    GoesOn(cfg, pid, r, q, false);
    q := Result(q.sh.(mem := sh.mem), q.o.(pc := OServedFlag));
    GoesOn(cfg, pid, r, q, false);
    q := Result(q.sh, q.o.(pc := OPause));
  }

  /** Past the test of the pause limit: the desk is given up, the pause about to be counted. */
  lemma GivesUpDesk(cfg: Config, pid: nat, sh: Shared, o: Op) returns (q: Result)
    requires o.pc.OPauseLock? && sh.mem.m0 > 0 && sh.mem.m2 > 0
    ensures Goes(cfg, pid, Result(sh, o), q)
    ensures q.sh == sh.(mem := sh.mem.(m2 := sh.mem.m2 - 1), desks := Released(sh.desks, o.desk, pid),
                        sSem := q.sh.sSem)
    ensures q.o == o.(pc := OPauseWrite, tmp := sh.stats, posting := 0, log := o.log.(own := false))
  {
    hide Goes, Released, Releases;
    var r := Result(sh, o);
    GoesNowhere(cfg, pid, r);
    GoesOn(cfg, pid, r, r, false);
    q := Result(sh.(mem := sh.mem.(m0 := sh.mem.m0 - 1)), o.(pc := OPauseFree));
    GoesOn(cfg, pid, r, q, false);
    q := Release(q.sh, q.o, pid, OPausePost);
    GoesOn(cfg, pid, r, q, false);
    q := Post(q.sh, q.o, OPauseUnlock);
    assert q.sh == sh.(mem := sh.mem.(m0 := sh.mem.m0 - 1), desks := Released(sh.desks, o.desk, pid),
                       sSem := q.sh.sSem);
    assert q.o == o.(pc := OPauseUnlock, posting := 0, log := o.log.(own := false));
    hide Release, Post;
    GoesOn(cfg, pid, r, q, false);
    q := Result(q.sh.(mem := sh.mem), q.o.(pc := OPauseStatLock));
    GoesOn(cfg, pid, r, q, false);
    q := Result(q.sh.(mem := sh.mem.(m2 := sh.mem.m2 - 1)), q.o.(pc := OPauseRead));
    GoesOn(cfg, pid, r, q, false);
    q := Result(q.sh, q.o.(pc := OPauseWrite, tmp := sh.stats));
  }

  /** The pause is counted. */
  lemma CountsPause(cfg: Config, pid: nat, sh: Shared, o: Op) returns (q: Result)
    requires o.pc.OPauseWrite? && o.tmp == sh.stats
    ensures Goes(cfg, pid, Result(sh, o), q)
    ensures q.sh == sh.(mem := sh.mem.(m2 := sh.mem.m2 + 1), stats := TookPause(sh.stats), trace := q.sh.trace)
    ensures q.o == o.(pc := OStopped)
  {
    hide Goes;
    var r := Result(sh, o);
    GoesNowhere(cfg, pid, r);
    GoesOn(cfg, pid, r, r, false);
    q := Result(sh.(stats := TookPause(sh.stats), trace := Summed(sh.trace, PauseTaken)), o.(pc := OPauseStatUnlock));
    GoesOn(cfg, pid, r, q, false);
    q := Result(q.sh.(mem := sh.mem.(m2 := sh.mem.m2 + 1)), o.(pc := OStopped));
  }

  // ----- the dispenser

  /** A request for an enabled service becomes a ticket, its permit is posted, and the dispenser
      waits for the next request. */
  lemma IssuesTicket(s: State, t: State, req: Request) returns (r: State)
    requires Leads(s, t) && t.disp.pc.ERecv? && !t.disp.dayEnd && req.service in t.disp.enabled
    requires t.sh.mem.m1 > 0 && |t.sh.queue| < t.cfg.cap
    ensures Leads(s, r)
    ensures r == t.(sh := t.sh.(queue := t.sh.queue + [Ticket(t.sh.nextId, req.service, req.user, req.time)],
                                nextId := t.sh.nextId + 1, tSem := Bump(t.sh.tSem, req.service),
                                hist := t.sh.hist.(issued := Bump(t.sh.hist.issued, req.service)), trace := r.sh.trace))
  {
    hide Leads;
    var go := StepDisp(Go(false), req);
    var sh, d := t.sh, t.disp;
    LeadsOn(s, t, go);
    r := t.(disp := d.(pc := ECheck(req)));
    LeadsOn(s, r, go);
    r := t.(disp := d.(pc := ELock(req)));
    LeadsOn(s, r, go);
    r := t.(sh := sh.(mem := sh.mem.(m1 := sh.mem.m1 - 1)), disp := d.(pc := EInsert(req)));
    r := Appends(s, r, req);
    assert r.sh.mem == sh.mem && d.(pc := ERecv) == d;
  }

  lemma Appends(s: State, t: State, req: Request) returns (r: State)
    requires Leads(s, t) && t.disp.pc == EInsert(req) && |t.sh.queue| < t.cfg.cap
    ensures Leads(s, r)
    ensures r == t.(sh := t.sh.(queue := t.sh.queue + [Ticket(t.sh.nextId, req.service, req.user, req.time)],
                                nextId := t.sh.nextId + 1, tSem := Bump(t.sh.tSem, req.service),
                                mem := t.sh.mem.(m1 := t.sh.mem.m1 + 1),
                                hist := t.sh.hist.(issued := Bump(t.sh.hist.issued, req.service)), trace := r.sh.trace),
                    disp := t.disp.(pc := ERecv))
  {
    hide Leads, Bump;
    var go := StepDisp(Go(false), req);
    var sh := t.sh;
    LeadsOn(s, t, go);
    r := t.(sh := sh.(queue := sh.queue + [Ticket(sh.nextId, req.service, req.user, req.time)],
                      nextId := sh.nextId + 1, hist := sh.hist.(issued := Bump(sh.hist.issued, req.service)),
                      trace := Called(sh.trace, QueueRuns.Insert(req.service, req.user, req.time))),
            disp := t.disp.(pc := EPost(req.service)));
    LeadsOn(s, r, go);
    r := r.(sh := r.sh.(tSem := Bump(sh.tSem, req.service)), disp := r.disp.(pc := EUnlock));
    LeadsOn(s, r, go);
    r := r.(sh := r.sh.(mem := sh.mem.(m1 := sh.mem.m1 + 1)), disp := r.disp.(pc := ERecv));
  }
}
