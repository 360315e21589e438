/** Where an interrupted wait for an answer leads: to two operators in session with the same user,
    or, when the dispenser has stopped, to a user that never leaves its wait. */
module Crossing {
  import opened Office
  import opened Handshake
  import opened Evening

  // ----- a wait without end

  /** The dispenser has stopped and no answer to u is in the queue. */
  predicate Stranded(e: Dusk, u: nat) {
    && TheClerk in e.out && u < |e.day.users| && AUser(u) !in e.out
    && (e.day.users[u].WantReply? || e.day.users[u].Retry?)
    && forall k :: 0 <= k < |e.day.letters| ==> !RepliesTo(u)(e.day.letters[k])
  }

  lemma UserStrands(e: Dusk, w: nat, v: Service, u: nat)
    requires Stranded(e, u) && w < |e.day.users| && AUser(w) !in e.out
    ensures Stranded(UserWork(e, w, v), u)
  {
    hide NotesTo;
  }

  lemma ActStrands(e: Dusk, a: Act, u: nat)
    requires Stranded(e, u)
    ensures Stranded(DoAct(e, a), u)
  {
    hide UserWork, ClerkWork, OperGo, FirstOf, NextAsk, NotesTo;
    if a.Work? && a.m.ByUser? && a.m.u < |e.day.users| && AUser(a.m.u) !in e.out {
      UserStrands(e, a.m.u, a.m.service, u);
    } else if a.Work? && a.m.ByOper? && a.m.i < |e.day.opers| {
      OperSpares(e.day, a.m.i);
    }
  }

  lemma OperSpares(s: Day, i: nat)
    requires i < |s.opers|
    ensures OperGo(s, i).users == s.users && OperGo(s, i).letters == s.letters
  {
    hide FirstOf, Find, Without;
  }

  lemma {:induction false} PassStrands(e: Dusk, acts: seq<Act>, u: nat)
    requires Stranded(e, u)
    ensures Stranded(Pass(e, acts), u)
  {
    if acts != [] {
      PassStrands(e, acts[..|acts|-1], u);
      hide Stranded, DoAct;
      ActStrands(Pass(e, acts[..|acts|-1]), acts[|acts|-1], u);
    }
  }

  /** A user interrupted in its wait after the dispenser has stopped sends its request again and
      waits for the answer from then on: it never reaches the end of its visit, and no other day ever
      begins. */
  lemma WaitsForever(e: Dusk, u: nat, acts: seq<Act>)
    requires TheClerk in e.out && WillResend(e, u)
    ensures var t := Pass(DoFail(e, AUser(u)), acts);
            && u < |t.day.users| && (t.day.users[u].WantReply? || t.day.users[u].Retry?) && AUser(u) !in t.out
            && !Over(t)
  {
    var f := DoFail(e, AUser(u));
    assert Stranded(f, u);
    hide DoFail, Stranded;
    PassStrands(f, acts, u);
    Waiting(Pass(f, acts), u);
  }

  lemma Waiting(e: Dusk, u: nat)
    requires Stranded(e, u)
    ensures u < |e.day.users| && (e.day.users[u].WantReply? || e.day.users[u].Retry?) && AUser(u) !in e.out
  {
  }

  // ----- runs

  lemma Extend(e: Dusk, a: Act)
    requires Reached(e)
    ensures Reached(DoAct(e, a))
  {
    var users: nat, services: seq<Service>, enabled: set<int>, cap: nat, nextId: nat, acts: seq<Act> :|
      e == Pass(Dawn(users, services, enabled, cap, nextId), acts);
    var more := acts + [a];
    assert more[..|more|-1] == acts;
    assert DoAct(e, a) == Pass(Dawn(users, services, enabled, cap, nextId), more);
  }

  lemma BeginsReached(users: nat, services: seq<Service>, enabled: set<int>, cap: nat, nextId: nat)
    ensures Reached(Dawn(users, services, enabled, cap, nextId))
  {
    assert Dawn(users, services, enabled, cap, nextId) == Pass(Dawn(users, services, enabled, cap, nextId), []);
  }

  /** A step that is the work of somebody who has not noticed any signal. */
  lemma Works(e: Dusk, m: Move, d: Day)
    requires Reached(e) && d == Do(e.day, m)
    requires m.ByClerk? ==> TheClerk !in e.out && TheClerk !in e.flag
    requires m.ByUser? ==> m.u < |e.day.users| && AUser(m.u) !in e.out && !e.day.users[m.u].Idle?
    requires m.ByOper? ==> m.i < |e.day.opers| && AnOper(m.i) !in e.out && AnOper(m.i) !in e.flag
    ensures Reached(e.(day := d))
  {
    hide Reached, UserGo, ClerkGo, OperGo;
    Extend(e, Work(m));
  }

  /** One user with a request under way, two free operators, and everybody signalled. */
  function Signalled(): Dusk {
    Dusk(Day([WantReply(1)], [Oper(1, Free), Oper(1, Free)], Receiving, [Ask(1, 0)], [], [], 1, {1}, 2, true, 1, {}),
         4, {TheClerk, AnOper(0), AnOper(1), AUser(0)}, {}, {}, {})
  }

  lemma SignalledReached()
    ensures Reached(Signalled())
  {
    hide Reached;
    var services: seq<Service> := [1, 1];
    var e0 := Dawn(1, services, {1}, 2, 1);
    BeginsReached(1, services, {1}, 2, 1);
    var free := [Oper(1, Free), Oper(1, Free)];
    assert e0.day.opers == free && e0.day.users == [Idle];
    var d := Day([WantReply(1)], free, Receiving, [Ask(1, 0)], [], [], 1, {1}, 2, false, 1, {});
    Extend(e0, Work(ByUser(0, 1)));
    assert DoAct(e0, Work(ByUser(0, 1))) == Dusk(d, 0, {}, {}, {}, {});
    var t := d.(evening := true);
    var p1, p2, p3 := {TheClerk}, {TheClerk, AnOper(0)}, {TheClerk, AnOper(0), AnOper(1)};
    SendOne(Dusk(d, 0, {}, {}, {}, {}), p1);
    SendOne(Dusk(t, 1, p1, {}, {}, {}), p2);
    SendOne(Dusk(t, 2, p2, {}, {}, {}), p3);
    SendOne(Dusk(t, 3, p3, {}, {}, {}), p3 + {AUser(0)});
    assert p3 + {AUser(0)} == Signalled().pend;
  }

  lemma SendOne(e: Dusk, pend: set<Proc>)
    requires Reached(e) && e.sent < 1 + |e.day.opers| + |e.day.users| && pend == e.pend + {Target(e.day, e.sent)}
    ensures Reached(e.(day := e.day.(evening := true), sent := e.sent + 1, pend := pend))
  {
    hide Reached;
    Extend(e, Suspend);
  }

  lemma SomethingIsLeft(s: Day, k: nat, u: nat)
    requires k < |s.letters| && s.letters[k].Ask? && s.letters[k].user == u
    ensures TrailOf(s, u) != NOTHING
  {
    CountDrop(AsksOf(u), s.letters, k);
    hide Count;
    assert TrailOf(s, u).asks >= 1;
    hide TrailOf;
  }

  /** The user's wait fails. */
  lemma WaitFails()
    ensures var s := Signalled();
            DoFail(s, AUser(0)) == Dusk(s.day.(users := [Retry(1)], astray := {0}), 4,
                                        {TheClerk, AnOper(0), AnOper(1)}, {AUser(0)}, {}, {0})
  {
    hide DoFail, TrailOf, Find, RepliesTo, Interrupt, Count;
    var s := Signalled();
    SomethingIsLeft(s.day, 0, 0);
    NotForUser(s.day.letters);
    UserStrays(s.day);
    FailsWaiting(s);
    LessOne();
  }

  lemma FailsWaiting(e: Dusk)
    requires e.day.users == [WantReply(1)] && AUser(0) in e.pend && AUser(0) !in e.out
    requires Find(RepliesTo(0), e.day.letters) == |e.day.letters|
    ensures DoFail(e, AUser(0)) == e.(day := Interrupt(e.day, 0), pend := e.pend - {AUser(0)},
                                      flag := e.flag + {AUser(0)}, resent := e.resent + {0})
  {
    hide Interrupt, Find, RepliesTo, NextAsk, FirstOf;
  }

  lemma LessOne()
    ensures {TheClerk, AnOper(0), AnOper(1), AUser(0)} - {AUser(0)} == {TheClerk, AnOper(0), AnOper(1)}
  {
  }

  lemma UserStrays(d: Day)
    requires d.users == [WantReply(1)] && d.astray == {} && Find(RepliesTo(0), d.letters) == |d.letters|
    requires TrailOf(d, 0) != NOTHING
    ensures Interrupt(d, 0) == d.(users := [Retry(1)], astray := {0})
  {
    hide Find, TrailOf, RepliesTo;
    assert d.users[0 := Retry(1)] == [Retry(1)] && d.astray + {0} == {0};
  }

  lemma NotForUser(q: seq<Letter>)
    requires q == [Ask(1, 0)]
    ensures Find(RepliesTo(0), q) == |q|
  {
    assert !RepliesTo(0)(q[0]);
  }

  /** And it asks again. */
  lemma AskedTwiceReached() returns (e: Dusk)
    ensures Reached(e) && e.flag == {AUser(0)} && e.out == {}
    ensures e.day == Signalled().day.(letters := [Ask(1, 0), Ask(1, 0)], astray := {0})
  {
    hide Reached;
    var s := Signalled();
    SignalledReached();
    Extend(s, Fail(AUser(0)));
    WaitFails();
    e := DoFail(s, AUser(0));
    hide DoFail;
    var m := Ask(1, 0);
    var d := UserGo(e.day, 0, 1);
    assert d == e.day.(letters := [m, m], users := [WantReply(1)]);
    Works(e, ByUser(0, 1), d);
    e := e.(day := d);
  }

  /** Both requests become tickets and answers. */
  lemma TwoTicketsReached() returns (e: Dusk)
    ensures Reached(e) && e.flag == {AUser(0)} && e.out == {}
    ensures e.day == Day([WantReply(1)], [Oper(1, Free), Oper(1, Free)], Receiving,
                         [Reply(0, Granted(1)), Reply(0, Granted(2))], [],
                         [Ticket(1, 1, 0, 0), Ticket(2, 1, 0, 0)], 3, {1}, 2, true, 1, {0})
  {
    hide Reached;
    e := AskedTwiceReached();
    var m, yes := Ask(1, 0), Reply(0, Granted(1));
    assert [m, m] == [m] + [m];
    e := OneMoreTicket(e, m, [m]);
    assert e.day.letters == [m] + [yes];
    e := OneMoreTicket(e, m, [yes]);
    assert e.day.letters == [yes, Reply(0, Granted(2))];
    assert e.day.queue == [Ticket(1, 1, 0, 0), Ticket(2, 1, 0, 0)];
  }

  /** The dispenser's three actions on the request it receives next. */
  lemma OneMoreTicket(e: Dusk, m: Letter, rest: seq<Letter>) returns (t: Dusk)
    requires Reached(e) && TheClerk !in e.flag && TheClerk !in e.out
    requires e.day.clerk.Receiving? && e.day.letters == [m] + rest && m.Ask? && m.service in e.day.enabled
    requires |e.day.queue| < e.day.cap
    requires forall j :: 0 <= j < |rest| && rest[j].Ask? ==> m.service <= rest[j].service
    ensures Reached(t)
    ensures t == e.(day := e.day.(letters := rest + [Reply(m.user, Granted(e.day.nextId))], nextId := e.day.nextId + 1,
                                  queue := e.day.queue + [Ticket(e.day.nextId, m.service, m.user, 0)]))
  {
    hide Reached;
    var s := e.day;
    FirstIsNext(m, rest);
    var s1 := s.(letters := rest, clerk := Got(m));
    assert ClerkGo(s) == s1;
    hide NextAsk, Without;
    Works(e, ByClerk, s1);
    var s2 := s1.(queue := s.queue + [Ticket(s.nextId, m.service, m.user, 0)], nextId := s.nextId + 1,
                  clerk := Replying(m.user, Granted(s.nextId)));
    assert ClerkGo(s1) == s2;
    Works(e.(day := s1), ByClerk, s2);
    var s3 := s2.(letters := rest + [Reply(m.user, Granted(s.nextId))], clerk := Receiving);
    Works(e.(day := s2), ByClerk, s3);
    t := e.(day := s3);
  }

  lemma FirstIsNext(m: Letter, rest: seq<Letter>)
    requires m.Ask? && forall j :: 0 <= j < |rest| && rest[j].Ask? ==> m.service <= rest[j].service
    ensures NextAsk([m] + rest, 1) == 0 && Without([m] + rest, 0) == rest
  {
    var q := [m] + rest;
    assert q[0] == m;
    assert forall j :: 0 < j < |q| ==> q[j] == rest[j-1];
  }

  /** A run from clean queues: one user, two operators, every signal sent and only the user's
      noticed.  The two operators call the same user, which acknowledges the first, takes the second
      call for its "fine" and goes on: nobody has served it, and both operators are in session. */
  lemma SessionsCross()
    ensures exists e :: Reached(e) && |e.day.users| == 1 && |e.day.opers| == 2 && e.day.users[0] == Idle
                        && e.day.opers[0].pc == e.day.opers[1].pc == WaitAck(0)
  {
    hide Reached;
    var e := TwoTicketsReached();
    var d := e.day;
    var d1 := d.(letters := [Reply(0, Granted(2))], users := [WantCall]);
    assert Do(d, ByUser(0, 1)) == d1 by { assert RepliesTo(0)(d.letters[0]) && Plain(1); }
    hide UserGo;
    Works(e, ByUser(0, 1), d1);
    BothTake(e.(day := d1));
  }

  lemma BothTake(e: Dusk)
    requires Reached(e) && e.flag == {AUser(0)} && e.out == {} && e.day.notes == []
    requires e.day.users == [WantCall] && e.day.opers == [Oper(1, Free), Oper(1, Free)]
    requires e.day.queue == [Ticket(1, 1, 0, 0), Ticket(2, 1, 0, 0)]
    ensures exists t :: Reached(t) && |t.day.users| == 1 && |t.day.opers| == 2 && t.day.users[0] == Idle
                        && t.day.opers[0].pc == t.day.opers[1].pc == WaitAck(0)
  {
    hide Reached;
    var d, t1, t2, busy := e.day, Ticket(1, 1, 0, 0), Ticket(2, 1, 0, 0), Oper(1, Calling(0));
    var d2 := d.(queue := [t2], opers := [busy, Oper(1, Free)]);
    assert d.queue == [t1] + [t2] && d.opers[0 := busy] == d2.opers;
    TakesFirst(d, 0, t1, [t2]);
    var d3 := d2.(queue := [], opers := [busy, busy]);
    assert d2.queue == [t2] + [] && d2.opers[1 := busy] == d3.opers;
    TakesFirst(d2, 1, t2, []);
    hide OperGo;
    Works(e, ByOper(0), d2);
    Works(e.(day := d2), ByOper(1), d3);
    BothCall(e.(day := d3));
  }

  lemma TakesFirst(s: Day, i: nat, t: Ticket, rest: seq<Ticket>)
    requires i < |s.opers| && s.queue == [t] + rest && s.opers[i] == Oper(t.service, Free) && t.user >= 0
    ensures OperGo(s, i) == s.(queue := rest, opers := s.opers[i := Oper(t.service, Calling(t.user))])
  {
    assert s.queue[0] == t && Without(s.queue, 0) == rest;
  }

  lemma BothCall(e: Dusk)
    requires Reached(e) && e.flag == {AUser(0)} && e.out == {} && e.day.notes == []
    requires e.day.users == [WantCall] && e.day.opers == [Oper(1, Calling(0)), Oper(1, Calling(0))]
    ensures exists t :: Reached(t) && |t.day.users| == 1 && |t.day.opers| == 2 && t.day.users[0] == Idle
                        && t.day.opers[0].pc == t.day.opers[1].pc == WaitAck(0)
  {
    hide Reached;
    var d, w := e.day, Oper(1, WaitAck(0));
    var d1 := d.(notes := [Call(0, 0)], opers := [w, Oper(1, Calling(0))]);
    Works(e, ByOper(0), d1);
    var d2 := d1.(notes := [Call(0, 0), Call(1, 0)], opers := [w, w]);
    Works(e.(day := d1), ByOper(1), d2);
    AnswersBoth(e.(day := d2));
  }

  /** The user reads the first call, acknowledges it, and reads the second. */
  lemma AnswersBoth(e: Dusk)
    requires Reached(e) && e.flag == {AUser(0)} && e.out == {} && e.day.notes == [Call(0, 0), Call(1, 0)]
    requires e.day.users == [WantCall] && e.day.opers == [Oper(1, WaitAck(0)), Oper(1, WaitAck(0))]
    ensures exists t :: Reached(t) && |t.day.users| == 1 && |t.day.opers| == 2 && t.day.users[0] == Idle
                        && t.day.opers[0].pc == t.day.opers[1].pc == WaitAck(0)
  {
    hide Reached;
    var d := e.day;
    ReadsFirst(d, 0, 1, Call(0, 0), [Call(1, 0)]);
    var d3 := d.(notes := [Call(1, 0)], users := [Acking(0)]);
    assert d.notes == [Call(0, 0)] + [Call(1, 0)] && d.users[0 := Acking(0)] == [Acking(0)];
    hide UserGo;
    Works(e, ByUser(0, 1), d3);
    MistakesCall(e.(day := d3));
  }

  lemma MistakesCall(e: Dusk)
    requires Reached(e) && e.flag == {AUser(0)} && e.out == {} && e.day.notes == [Call(1, 0)]
    requires e.day.users == [Acking(0)] && e.day.opers == [Oper(1, WaitAck(0)), Oper(1, WaitAck(0))]
    ensures exists t :: Reached(t) && |t.day.users| == 1 && |t.day.opers| == 2 && t.day.users[0] == Idle
                        && t.day.opers[0].pc == t.day.opers[1].pc == WaitAck(0)
  {
    hide Reached;
    var d := e.day;
    var d4 := d.(notes := [Call(1, 0), Ack(0, 0)], users := [WantFine(0)]);
    Works(e, ByUser(0, 1), d4);
    assert d4.notes == [Call(1, 0)] + [Ack(0, 0)] && d4.users[0 := Idle] == [Idle];
    ReadsFirst(d4, 0, 1, Call(1, 0), [Ack(0, 0)]);
    var d5 := d4.(notes := [Ack(0, 0)], users := [Idle]);
    hide UserGo;
    Works(e.(day := d4), ByUser(0, 1), d5);
    assert Reached(e.(day := d5));
  }

  /** A user reads the first note of its queue. */
  lemma ReadsFirst(s: Day, u: nat, v: Service, n: Note, rest: seq<Note>)
    requires u < |s.users| && s.notes == [n] + rest && n.Call? && n.user == u
    ensures s.users[u].WantCall? ==> UserGo(s, u, v) == s.(notes := rest, users := s.users[u := Acking(n.op)])
    ensures s.users[u].WantFine? ==> UserGo(s, u, v) == s.(notes := rest, users := s.users[u := Idle])
  {
    assert s.notes[0] == n && NotesTo(u)(s.notes[0]);
    assert Without(s.notes, 0) == rest;
  }

  /** The end signal alone strands a user: one that is still waiting when the dispenser stops. */
  lemma UsersAreStranded()
    ensures exists e :: Reached(e) && Stranded(e, 0) && e.resent == {}
  {
    hide Reached;
    var s := Signalled();
    SignalledReached();
    Extend(s, Deliver(TheClerk));
    var pend := s.pend - {TheClerk};
    var e := s.(pend := pend, flag := {TheClerk});
    assert DoAct(s, Deliver(TheClerk)) == e;
    FirstIsNext(Ask(1, 0), []);
    assert s.day.letters == [Ask(1, 0)] + [];
    var e1 := e.(day := e.day.(letters := [], clerk := Got(Ask(1, 0))));
    Extend(e, Work(ByClerk));
    assert DoAct(e, Work(ByClerk)) == e1;
    Extend(e1, Work(ByClerk));
    var e2 := DoAct(e1, Work(ByClerk));
    assert Stranded(e2, 0) && Reached(e2) && e2.resent == {};
  }
}
