/** The runs of the protocol, seen from the ticket list: the calls that the dispenser, the operators
    and the director make on it, in the order in which they make them, are a run of module
    QueueRuns, and the shared queue is at every moment what that run leaves. */
module Calls {
  import opened Office
  import opened Processes
  import opened QueueRuns
  import opened Invariant
  import Theorems

  /** The book that the calls made so far add up to. */
  function BookOf(s: State): Book { Replay(s.cfg.cap, s.sh.trace.calls) }

  /** The book agrees with the shared queue, the next identifier and the record of tickets issued. */
  predicate Agrees(b: Book, sh: Shared) {
    && b.queue == sh.queue && b.nextId == sh.nextId
    && forall v: Service :: |Only(b.issued, v)| == Of(sh.hist.issued, v)
  }

  // ----- one call

  lemma CallExtends(cap: nat, cs: seq<Command>, c: Command)
    ensures Replay(cap, cs + [c]) == Do(cap, Replay(cap, cs), c)
  {
    assert (cs + [c])[..|cs|] == cs;
  }

  /** A step makes at most one call. */
  predicate Calling(s: State, t: State, c: Command) { t.sh.trace.calls == s.sh.trace.calls + [c] }

  predicate SameList(s: State, t: State) {
    && t.sh.trace.calls == s.sh.trace.calls && t.sh.queue == s.sh.queue && t.sh.nextId == s.sh.nextId
    && t.sh.hist.issued == s.sh.hist.issued
  }

  /** What a step does to the ticket list is one of the calls of a run, or nothing. */
  ghost predicate ListLaw(s: State, t: State) {
    && t.cfg == s.cfg
    && (SameList(s, t)
        || exists c :: Calling(s, t, c) && CallLaw(s, t, c))
  }

  predicate CallLaw(s: State, t: State, c: Command) {
    match c
    case Serve(v) =>
      var k := FirstOf(s.sh.queue, v);
      && t.sh.nextId == s.sh.nextId && t.sh.hist.issued == s.sh.hist.issued
      && t.sh.queue == if k < |s.sh.queue| then Without(s.sh.queue, k) else s.sh.queue
    case Insert(v, user, time) =>
      if |s.sh.queue| < s.cfg.cap then
        && t.sh.queue == s.sh.queue + [Ticket(s.sh.nextId, v, user, time)]
        && t.sh.nextId == s.sh.nextId + 1 && t.sh.hist.issued == Bump(s.sh.hist.issued, v)
      else t.sh.queue == s.sh.queue && t.sh.nextId == s.sh.nextId && t.sh.hist.issued == s.sh.hist.issued
    case Clear => t.sh.queue == [] && t.sh.nextId == s.sh.nextId && t.sh.hist.issued == ZEROES
  }

  // ----- every step

  lemma OpCalls(s: State, i: nat, a: Act)
    requires i < |s.ops|
    ensures ListLaw(s, Apply(s, StepOp(i, a)))
  {
    var t := Apply(s, StepOp(i, a));
    if s.ops[i].pc.OServe? && a.Go? {
      ServeCalls(s, i, a);
    } else {
      QuietOp(s.cfg, s.sh, s.ops[i], i + 1, a);
      hide OpDo;
      assert SameList(s, t);
    }
  }

  lemma ServeCalls(s: State, i: nat, a: Act)
    requires i < |s.ops| && s.ops[i].pc.OServe? && a.Go?
    ensures ListLaw(s, Apply(s, StepOp(i, a)))
  {
    var t, c := Apply(s, StepOp(i, a)), Serve(s.ops[i].service);
    assert Calling(s, t, c) && CallLaw(s, t, c);
  }

  predicate ListUntouched(sh: Shared, r: Shared) {
    r.queue == sh.queue && r.nextId == sh.nextId && r.hist == sh.hist && r.trace.calls == sh.trace.calls
  }

  lemma QuietOp(cfg: Config, sh: Shared, o: Op, pid: nat, a: Act)
    requires !(o.pc.OServe? && a.Go?)
    ensures ListUntouched(sh, OpDo(cfg, sh, o, pid, a).sh)
  {
    hide GateGo, DeskGo, CountGo, TicketGo, ServeGo, SessionGo, StatGo, PauseGo, RestGo, CloseGo;
    if a.Go? {
      QuietWork(cfg, sh, o, pid, a.choice);
      QuietRest(sh, o, pid);
    }
  }

  lemma QuietWork(cfg: Config, sh: Shared, o: Op, pid: nat, choice: bool)
    requires !o.pc.OServe?
    ensures ListUntouched(sh, DeskGo(sh, o, pid).sh) && ListUntouched(sh, CountGo(sh, o).sh)
    ensures ListUntouched(sh, TicketGo(sh, o).sh) && ListUntouched(sh, ServeGo(sh, o).sh)
    ensures ListUntouched(sh, StatGo(sh, o).sh) && ListUntouched(sh, PauseGo(cfg, sh, o, pid, choice).sh)
  {
    hide Reserved, Released, Bump, Provided;
  }

  lemma QuietRest(sh: Shared, o: Op, pid: nat)
    ensures ListUntouched(sh, GateGo(sh, o).sh) && ListUntouched(sh, SessionGo(sh, o).sh)
    ensures ListUntouched(sh, RestGo(sh, o).sh) && ListUntouched(sh, CloseGo(sh, o, pid).sh)
  {
    hide Released, Bump;
  }

  lemma DispCalls(s: State, a: Act, req: Request)
    ensures ListLaw(s, Apply(s, StepDisp(a, req)))
  {
    var t := Apply(s, StepDisp(a, req));
    if s.disp.pc.EInsert? && a.Go? {
      InsertCalls(s, a, req);
    } else {
      QuietDisp(s, a, req);
      hide DispDo;
    }
  }

  lemma InsertCalls(s: State, a: Act, req: Request)
    requires s.disp.pc.EInsert? && a.Go?
    ensures ListLaw(s, Apply(s, StepDisp(a, req)))
  {
    var t, r := Apply(s, StepDisp(a, req)), s.disp.pc.r;
    var c := Insert(r.service, r.user, r.time);
    assert Calling(s, t, c) && CallLaw(s, t, c);
  }

  lemma QuietDisp(s: State, a: Act, req: Request)
    requires !(s.disp.pc.EInsert? && a.Go?)
    ensures SameList(s, DispDo(s, a, req)) && DispDo(s, a, req).cfg == s.cfg
  {
    hide Closed, Record, DayReset, Bump;
  }

  lemma DirCalls(s: State, arr: seq<int>, newUsers: nat)
    ensures ListLaw(s, Apply(s, StepDir(arr, newUsers)))
  {
    var t := Apply(s, StepDir(arr, newUsers));
    if s.dir.pc.DClear? {
      assert Calling(s, t, Clear) && CallLaw(s, t, Clear);
    } else {
      QuietDir(s, arr, newUsers);
      hide DirDo;
    }
  }

  lemma QuietDir(s: State, arr: seq<int>, newUsers: nat)
    requires !s.dir.pc.DClear?
    ensures SameList(s, DirDo(s, arr, newUsers)) && DirDo(s, arr, newUsers).cfg == s.cfg
  {
  }

  lemma StepCalls(s: State, step: Step)
    ensures ListLaw(s, Apply(s, step))
  {
    hide ListLaw;
    match step
    case StepOp(i, a) => if i < |s.ops| { OpCalls(s, i, a); } else { Nothing(s); }
    case StepDisp(a, req) => DispCalls(s, a, req);
    case StepDir(arr, newUsers) => DirCalls(s, arr, newUsers);
    case StepUser => UserCalls(s);
  }

  lemma Nothing(s: State)
    ensures ListLaw(s, s)
  {
  }

  lemma UserCalls(s: State)
    ensures ListLaw(s, Apply(s, StepUser))
  {
  }

  lemma LawKeepsAgreement(s: State, t: State)
    requires Agrees(BookOf(s), s.sh) && ListLaw(s, t)
    ensures Agrees(BookOf(t), t.sh)
  {
    if !SameList(s, t) {
      var c :| Calling(s, t, c) && CallLaw(s, t, c);
      CallExtends(s.cfg.cap, s.sh.trace.calls, c);
      NeverOverfull(s.cfg.cap, s.sh.trace.calls);
      var b := BookOf(s);
      assert BookOf(t) == Do(s.cfg.cap, b, c);
      hide BookOf;
      if c.Insert? && |b.queue| < s.cfg.cap {
        var ticket := Ticket(b.nextId, c.service, c.user, c.time);
        forall v: Service ensures |Only(b.issued + [ticket], v)| == Of(t.sh.hist.issued, v) {
          OnlyConcat(b.issued, [ticket], v);
        }
      }
    }
  }

  lemma {:induction false} RunAgrees(u: Setup, steps: seq<Step>)
    ensures var s := Run(Begin(u), steps); Agrees(BookOf(s), s.sh)
  {
    if steps != [] {
      var before := steps[..|steps|-1];
      RunAgrees(u, before);
      hide Apply, Agrees, BookOf, ListLaw;
      StepCalls(Run(Begin(u), before), steps[|steps|-1]);
      LawKeepsAgreement(Run(Begin(u), before), Run(Begin(u), steps));
    }
  }

  // ----- what the protocol's runs do to the tickets

  /** The shared queue and the next identifier are what the calls made so far leave behind. */
  lemma QueueIsReplayed(s: State)
    requires Reachable(s)
    ensures BookOf(s).queue == s.sh.queue && BookOf(s).nextId == s.sh.nextId
    ensures forall v: Service :: |Only(BookOf(s).issued, v)| == Of(s.sh.hist.issued, v)
  {
    hide Run, Begin, BookOf;
    var u, steps :| ValidSetup(u) && s == Run(Begin(u), steps);
    RunAgrees(u, steps);
  }

  /** At every moment, on every closed day and today, each service's tickets are served in the order
      in which they were issued: the ones served, then the ones that wait or were thrown away, are
      the ones issued. */
  lemma ServiceOrder(s: State, d: nat, v: Service)
    requires Reachable(s) && d <= |BookOf(s).past|
    ensures var day := DayOf(BookOf(s), d);
            && Only(day.issued, v) == Only(day.served, v) + Only(day.left, v)
            && Increasing(Only(day.issued, v)) && Increasing(Only(day.served, v))
            && (d == |BookOf(s).past| ==> day.left == s.sh.queue && |Only(day.issued, v)| == Of(s.sh.hist.issued, v))
  {
    hide Reachable;
    QueueIsReplayed(s);
    ServedInOrder(s.cfg.cap, s.sh.trace.calls, d, v);
    hide Replay;
  }

  /** The ticket an operator takes joins the day's served tickets, and it is the oldest of its
      service that nobody has been served with. */
  lemma TakesNext(s: State, i: nat)
    requires Reachable(s) && i < |s.ops| && s.ops[i].pc.OServe?
    ensures var t, v := Apply(s, StepOp(i, Go(false))), s.ops[i].service;
            var b, c := BookOf(s), BookOf(t);
            && |Only(b.served, v)| < |Only(b.issued, v)|
            && c.served == b.served + [Only(b.issued, v)[|Only(b.served, v)|]]
            && t.ops[i].ticket == c.served[|b.served|].id
  {
    hide Reachable;
    QueueIsReplayed(s);
    ServiceOrder(s, |BookOf(s).past|, s.ops[i].service);
    Theorems.ServeFindsTicket(s, i);
    ServeStep(s, i);
    CallExtends(s.cfg.cap, s.sh.trace.calls, Serve(s.ops[i].service));
    OnlyWithout(s.sh.queue, s.ops[i].service, s.ops[i].service);
    hide Replay, Apply;
  }

  lemma ServeStep(s: State, i: nat)
    requires i < |s.ops| && s.ops[i].pc.OServe? && FirstOf(s.sh.queue, s.ops[i].service) < |s.sh.queue|
    ensures var t, v := Apply(s, StepOp(i, Go(false))), s.ops[i].service;
            && t.cfg == s.cfg && Calling(s, t, Serve(v))
            && t.ops[i].ticket == s.sh.queue[FirstOf(s.sh.queue, v)].id
  {
  }
}
