/** What the message exchange guarantees over any number of days, their end signals included, to every
    user that has not been led astray; who is astray; and exactly when a user interrupted in its wait for an
    answer keeps to one claim all the same. */
module Resend {
  import opened Office
  import opened Handshake
  import opened Evening

  // ----- for every user that is not astray, whatever happened to the others

  /** A user has at most one request under way, live ticket or session. */
  lemma AtMostOneClaim(e: Dusk, u: nat)
    requires Reached(e) && Straight(e.day, u)
    ensures Claims(e.day, u) <= 1
  {
    hide Reached, Orderly, SignalsOk, StraysOk;
    ReachedOk(e);
    OrderlyClaims(e.day, u);
  }

  /** No two operators are in session with the same user, from the call to the "fine". */
  lemma SessionsAreExclusive(e: Dusk, i: nat, j: nat, u: nat)
    requires Reached(e) && Straight(e.day, u) && i < |e.day.opers| && j < |e.day.opers| && i != j
    requires InSession(e.day.opers[i], u)
    ensures !InSession(e.day.opers[j], u)
  {
    hide Reached, Orderly, SignalsOk, StraysOk;
    ReachedOk(e);
    OrderlySessions(e.day, i, j, u);
  }

  /** What a user reads at the end of its session is the "fine" of the operator whose call it
      has acknowledged; what it reads before is a call, from an operator waiting for it; and an
      operator only ever reads the acknowledgement of the user it has called, even of one astray. */
  lemma MessagesComeFromPartners(e: Dusk, k: nat)
    requires Reached(e) && k < |e.day.notes|
    ensures var s := e.day; forall u: nat, o: nat ::
              Straight(s, u) && s.users[u] == WantFine(o) && NotesTo(u)(s.notes[k]) ==> s.notes[k] == Fine(o, u)
    ensures var s := e.day; forall u: nat :: Straight(s, u) && s.users[u] == WantCall && NotesTo(u)(s.notes[k]) ==>
              s.notes[k].Call? && s.notes[k].op < |s.opers| && s.opers[s.notes[k].op].pc == WaitAck(u)
    ensures var s := e.day; forall i: nat, u: nat ::
              i < |s.opers| && s.opers[i].pc == WaitAck(u) && AcksTo(i)(s.notes[k]) ==>
              s.notes[k] == Ack(i, u) && u < |s.users| && (Straight(s, u) ==> s.users[u] == WantFine(i))
  {
    hide Reached, Orderly, SignalsOk, StraysOk;
    ReachedOk(e);
    var s := e.day;
    forall u: nat, o: nat | Straight(s, u) && s.users[u] == WantFine(o) && NotesTo(u)(s.notes[k])
      ensures s.notes[k] == Fine(o, u)
    {
      OnlyFineArrives(s, u, k);
    }
    forall u: nat | Straight(s, u) && s.users[u] == WantCall && NotesTo(u)(s.notes[k])
      ensures s.notes[k].Call? && s.notes[k].op < |s.opers| && s.opers[s.notes[k].op].pc == WaitAck(u)
    {
      OnlyCallsArrive(s, u, k);
    }
    forall i: nat, u: nat | i < |s.opers| && s.opers[i].pc == WaitAck(u) && AcksTo(i)(s.notes[k])
      ensures s.notes[k] == Ack(i, u) && u < |s.users| && (Straight(s, u) ==> s.users[u] == WantFine(i))
    {
      OnlyOwnAckArrives(s, i, u, k);
    }
  }

  /** No user ever reads something that is not a call where it expects one. */
  lemma NobodyIsLost(e: Dusk, u: nat)
    requires Reached(e) && Straight(e.day, u)
    ensures !e.day.users[u].Lost?
  {
    hide Reached, SignalsOk, StraysOk;
    ReachedOk(e);
    assert Fits(e.day.users[u], TrailOf(e.day, u), e.day.evening);
  }

  // ----- who is astray

  /** Only users whose wait for an answer was interrupted are astray, unless one of the identifiers
      issued reads as -1 or -2. */
  lemma WhoIsAstray(e: Dusk, u: nat)
    requires Reached(e)
    ensures u in e.day.astray && AllPlain(e.day.firstId, e.day.nextId) ==> u in e.resent
  {
    hide Reached, SignalsOk, Orderly, AllPlain, TameAnswers;
    ReachedOk(e);
    if u !in e.resent {
      assert LedBy(e.day, u, e.day.firstId);
    }
  }

  /** And of those nobody of whose request nothing was left. */
  lemma InterruptedStrays(e: Dusk, u: nat)
    requires Reached(e) && WillResend(e, u) && Straight(e.day, u)
    ensures u in DoFail(e, AUser(u)).day.astray <==> TrailOf(e.day, u) != NOTHING
  {
    hide Reached, SignalsOk, StraysOk;
    ReachedOk(e);
    assert Fits(e.day.users[u], TrailOf(e.day, u), e.day.evening);
    hide Orderly, TrailOf;
  }

  /** So while all identifiers are plain, everybody but the interrupted keeps to one claim. */
  lemma PlainRunKeepsOneClaim(e: Dusk, u: nat)
    requires Reached(e) && AllPlain(e.day.firstId, e.day.nextId) && u < |e.day.users| && u !in e.resent
    ensures Claims(e.day, u) <= 1 && !e.day.users[u].Lost?
  {
    hide Reached, AllPlain, Claims;
    WhoIsAstray(e, u);
    AtMostOneClaim(e, u);
    NobodyIsLost(e, u);
  }

  // ----- from day to day

  /** A day that is over leaves messages only from, to or about users that are astray.  So without
      them the next day begins with empty queues, as the first did. */
  lemma QueuesEndEmpty(e: Dusk)
    requires Reached(e) && Over(e)
    ensures forall k :: 0 <= k < |e.day.letters| ==> e.day.letters[k].user in e.day.astray
    ensures forall k :: 0 <= k < |e.day.notes| ==> e.day.notes[k].user in e.day.astray
    ensures e.day.astray == {} ==> e.day.letters == [] && e.day.notes == []
  {
    hide Reached, Orderly, StraysOk;
    ReachedOk(e);
    var s := e.day;
    forall k | 0 <= k < |s.letters| ensures s.letters[k].user in s.astray {
      LetterMeansWait(s, k);
    }
    forall k | 0 <= k < |s.notes| ensures s.notes[k].user in s.astray {
      NoteMeansSession(s, k);
    }
    assert s.letters != [] ==> s.letters[0].user in s.astray;
    assert s.notes != [] ==> s.notes[0].user in s.astray;
  }

  /** A letter is from or to a user that waits for an answer. */
  lemma LetterMeansWait(s: Day, k: nat)
    requires Orderly(s) && k < |s.letters|
    ensures var u := s.letters[k].user;
            u < |s.users| && (Straight(s, u) ==> !s.users[u].Idle? && !s.users[u].WantCall?)
  {
    var u := s.letters[k].user;
    assert Straight(s, u) ==> Fits(s.users[u], TrailOf(s, u), s.evening);
    LetterCounts(s.letters, k, u);
  }

  /** A note is part of a session: its operator or its user is in it. */
  lemma NoteMeansSession(s: Day, k: nat)
    requires Orderly(s) && k < |s.notes|
    ensures var n := s.notes[k];
            && n.op < |s.opers| && n.user < |s.users|
            && (Straight(s, n.user) ==> !s.opers[n.op].pc.Free? || s.users[n.user].WantFine?)
  {
    assert NoteOk(s, s.notes[k]);
  }

  lemma LetterCounts(q: seq<Letter>, k: nat, u: nat)
    requires k < |q| && q[k].user == u
    ensures Count(AsksOf(u), q) + Count(GrantsTo(u), q) + Count(DenialsTo(u), q) >= 1
  {
    CountDrop(AsksOf(u), q, k);
    CountDrop(GrantsTo(u), q, k);
    CountDrop(DenialsTo(u), q, k);
  }

  // ----- what keeps a user busy

  predicate Repeats(a: Answer) { NumberOf(a) == -2 }

  function FullsTo(u: nat): Letter -> bool { (m: Letter) => m.Reply? && m.user == u && Repeats(m.answer) }

  function InSessionWith(u: nat): Oper -> bool { (o: Oper) => InSession(o, u) }

  /** The dispenser has such an answer ready. */
  predicate AgainReady(s: Day, u: nat) { s.clerk.Replying? && s.clerk.user == u && Repeats(s.clerk.answer) }

  /** The claims of a user and the answers that it is still going to read as "queue full": the flag
      makes the dispenser drop an answer it has ready. */
  function Busy(e: Dusk, u: nat): nat {
    var s := e.day;
    Count(AsksOf(u), s.letters) + One(s.clerk.Got? && AsksOf(u)(s.clerk.ask))
    + Count(FullsTo(u), s.letters) + One(AgainReady(s, u) && TheClerk !in e.flag)
    + Count(TicketsOf(u), s.queue) + Count(InSessionWith(u), s.opers)
  }

  lemma {:induction false} SessionsSum(q: seq<Oper>, u: nat)
    ensures Count(InSessionWith(u), q) == Count(CallersOf(u), q) + Count(WaitersOf(u), q) + Count(ServersOf(u), q)
  {
    if q != [] {
      SessionsSum(q[1..], u);
    }
  }

  lemma {:induction false} FullsAreReplies(q: seq<Letter>, u: nat)
    ensures Count(FullsTo(u), q) <= Count(DenialsTo(u), q) + Count(GrantsTo(u), q)
  {
    hide AsInt;
    if q != [] {
      FullsAreReplies(q[1..], u);
    }
  }

  lemma ClaimsAreBusy(e: Dusk, u: nat)
    ensures Busy(e, u) == Claims(e.day, u) + Count(FullsTo(u), e.day.letters)
                          + One(AgainReady(e.day, u) && TheClerk !in e.flag)
  {
    SessionsSum(e.day.opers, u);
    hide Count;
  }

  /** None of these identifiers reads as -2. */
  predicate NoneRepeats(lo: nat, hi: nat) { forall id: nat :: lo <= id < hi ==> !Repeats(Granted(id)) }

  /** An interrupted user that will keep to one claim: it goes home before its next request, and
      asks again only when nothing of it is left. */
  predicate Settled(e: Dusk, u: nat) {
    && u < |e.day.users| && (AUser(u) in e.flag || AUser(u) in e.out) && AUser(u) !in e.pend
    && Number(e.day, AUser(u)) < e.sent
    && Busy(e, u) <= 1 && (e.day.users[u].Retry? ==> Busy(e, u) == 0)
  }

  // ----- every step keeps a settled user settled

  lemma LetterAdded(q: seq<Letter>, m: Letter, u: nat)
    ensures Count(AsksOf(u), q + [m]) == Count(AsksOf(u), q) + One(m.Ask? && m.user == u)
    ensures Count(FullsTo(u), q + [m]) == Count(FullsTo(u), q) + One(m.Reply? && m.user == u && Repeats(m.answer))
  {
    CountAdd(AsksOf(u), q, m);
    CountAdd(FullsTo(u), q, m);
  }

  lemma LetterRead(q: seq<Letter>, k: nat, u: nat)
    requires k < |q|
    ensures Count(AsksOf(u), Without(q, k)) == Count(AsksOf(u), q) - One(q[k].Ask? && q[k].user == u)
    ensures Count(FullsTo(u), Without(q, k))
         == Count(FullsTo(u), q) - One(q[k].Reply? && q[k].user == u && Repeats(q[k].answer))
  {
    CountDrop(AsksOf(u), q, k);
    CountDrop(FullsTo(u), q, k);
  }

  lemma OperChanged(q: seq<Oper>, i: nat, pc: OperPc, u: nat)
    requires i < |q|
    ensures var o := q[i].(pc := pc);
            Count(InSessionWith(u), q[i := o])
            == Count(InSessionWith(u), q) - One(InSession(q[i], u)) + One(InSession(o, u))
  {
    CountSet(InSessionWith(u), q, i, q[i].(pc := pc));
  }

  /** A step of user w changes the business of w only: a request adds to it, an answer "queue
      full" that is read takes from it. */
  predicate UserMoves(e: Dusk, t: Day, w: nat, u: nat)
    requires w < |e.day.users|
  {
    var b, pc := Busy(e.(day := t), u), e.day.users[w];
    && |t.users| == |e.day.users| && |t.opers| == |e.day.opers|
    && (w != u ==> b == Busy(e, u) && (u < |t.users| ==> t.users[u] == e.day.users[u]))
    && (w == u && (pc.Idle? || pc.Retry?) ==> b == Busy(e, u) + 1 && t.users[u].WantReply?)
    && (w == u && !pc.Idle? && !pc.Retry? ==>
         b <= Busy(e, u) && (t.users[u].Retry? ==> b + 1 == Busy(e, u)))
  }

  lemma AskBusy(e: Dusk, w: nat, x: Service, u: nat)
    requires w < |e.day.users| && (e.day.users[w].Idle? || e.day.users[w].Retry?)
    ensures UserMoves(e, e.day.(letters := e.day.letters + [Ask(x, w)], users := e.day.users[w := WantReply(x)]), w, u)
  {
    LetterAdded(e.day.letters, Ask(x, w), u);
    hide Count;
  }

  lemma AnswerBusy(e: Dusk, w: nat, x: Service, k: nat, u: nat)
    requires w < |e.day.users| && e.day.users[w] == WantReply(x)
    requires k < |e.day.letters| && e.day.letters[k].Reply? && e.day.letters[k].user == w
    ensures var a := e.day.letters[k].answer;
            UserMoves(e, e.day.(letters := Without(e.day.letters, k), users := e.day.users[w := Answered(x, a)],
                                astray := Strays(e.day, w, a)), w, u)
  {
    LetterRead(e.day.letters, k, u);
    hide Count, Without, AsInt;
  }

  lemma NoteBusy(e: Dusk, w: nat, notes: seq<Note>, pc: UserPc, u: nat)
    requires w < |e.day.users| && !e.day.users[w].Idle? && !e.day.users[w].Retry? && !pc.Retry?
    ensures UserMoves(e, e.day.(notes := notes, users := e.day.users[w := pc]), w, u)
  {
    hide Count;
  }

  lemma SameBusy(e: Dusk, w: nat, u: nat)
    requires w < |e.day.users| && !e.day.users[w].Idle? && !e.day.users[w].Retry?
    ensures UserMoves(e, e.day, w, u)
  {
    hide Busy;
  }

  lemma UserBusy(e: Dusk, w: nat, v: Service, u: nat)
    requires w < |e.day.users|
    ensures UserMoves(e, UserGo(e.day, w, v), w, u)
  {
    hide UserMoves, Without;
    var s := e.day;
    match s.users[w]
    case Idle => AskBusy(e, w, v, u);
    case Retry(x) => AskBusy(e, w, x, u);
    case WantReply(x) =>
      var k := Find(RepliesTo(w), s.letters);
      if k < |s.letters| { AnswerBusy(e, w, x, k, u); } else { SameBusy(e, w, u); }
    case WantCall =>
      var k := Find(NotesTo(w), s.notes);
      if k < |s.notes| {
        NoteBusy(e, w, Without(s.notes, k), if s.notes[k].Call? then Acking(s.notes[k].op) else Lost, u);
      } else {
        SameBusy(e, w, u);
      }
    case Acking(o) => NoteBusy(e, w, s.notes + [Ack(o, w)], WantFine(o), u);
    case WantFine(_) =>
      var k := Find(NotesTo(w), s.notes);
      if k < |s.notes| { NoteBusy(e, w, Without(s.notes, k), Idle, u); } else { SameBusy(e, w, u); }
    case Lost => SameBusy(e, w, u);
  }

  lemma UserSettles(e: Dusk, w: nat, v: Service, u: nat)
    requires Settled(e, u) && w < |e.day.users| && AUser(w) !in e.out
    ensures Settled(UserWork(e, w, v), u)
  {
    UserBusy(e, w, v, u);
    hide UserGo;
  }

  /** A step of somebody else that adds nothing to the business of u. */
  lemma OthersSettle(e: Dusk, t: Dusk, u: nat)
    requires Settled(e, u) && t.sent == e.sent && t.pend <= e.pend && e.flag <= t.flag && e.out <= t.out
    requires t.day.users == e.day.users && |t.day.opers| == |e.day.opers| && Busy(t, u) <= Busy(e, u)
    ensures Settled(t, u)
  {
    hide Busy;
  }

  lemma TakeBusy(e: Dusk, k: nat, u: nat)
    requires e.day.clerk.Receiving? && k < |e.day.letters| && e.day.letters[k].Ask?
    ensures var day := e.day.(letters := Without(e.day.letters, k), clerk := Got(e.day.letters[k]));
            Busy(e.(day := day), u) == Busy(e, u)
  {
    LetterRead(e.day.letters, k, u);
    hide Count, Without;
  }

  lemma DecideBusy(e: Dusk, t: Day, u: nat)
    requires e.day.clerk.Got? && e.day.clerk.ask.Ask? && Decided(e.day, t)
    requires NoneRepeats(e.day.nextId, t.nextId)
    ensures Busy(e.(day := t), u) <= Busy(e, u)
  {
    var m := e.day.clerk.ask;
    CountAdd(TicketsOf(u), e.day.queue, Ticket(e.day.nextId, m.service, m.user, 0));
    hide Count, AsInt;
  }

  lemma SendBusy(e: Dusk, w: nat, a: Answer, u: nat)
    requires e.day.clerk == Replying(w, a) && (TheClerk !in e.flag || a.Refused?)
    ensures Busy(e.(day := e.day.(letters := e.day.letters + [Reply(w, a)], clerk := Receiving)), u) == Busy(e, u)
  {
    LetterAdded(e.day.letters, Reply(w, a), u);
    hide Count;
  }

  lemma ClerkSettles(e: Dusk, u: nat)
    requires Settled(e, u) && TheClerk !in e.out && NoneRepeats(e.day.nextId, ClerkWork(e).day.nextId)
    ensures Settled(ClerkWork(e), u)
  {
    hide Repeats;
    var s, t := e.day, ClerkGo(e.day);
    match s.clerk
    case Receiving =>
      var k := NextAsk(s.letters, 1);
      if k < |s.letters| { TakeBusy(e, k, u); }
    case Got(m) => if m.Ask? && (TheClerk !in e.flag || m.service !in s.enabled) { DecideBusy(e, t, u); }
    case Replying(w, a) => if TheClerk !in e.flag || a.Refused? { SendBusy(e, w, a, u); }
    assert Busy(ClerkWork(e), u) <= Busy(e, u) by {
      hide Count, NextAsk, Without;
    }
    hide Settled, Busy, NextAsk;
    OthersSettle(e, ClerkWork(e), u);
  }

  lemma TicketBusy(e: Dusk, i: nat, k: nat, u: nat)
    requires i < |e.day.opers| && e.day.opers[i].pc.Free? && k < |e.day.queue| && e.day.queue[k].user >= 0
    ensures var w := e.day.queue[k].user;
            Busy(e.(day := e.day.(queue := Without(e.day.queue, k),
                                  opers := e.day.opers[i := e.day.opers[i].(pc := Calling(w))])), u) == Busy(e, u)
  {
    CountDrop(TicketsOf(u), e.day.queue, k);
    OperChanged(e.day.opers, i, Calling(e.day.queue[k].user), u);
    hide Count, Without;
  }

  lemma SessionBusy(e: Dusk, i: nat, pc: OperPc, notes: seq<Note>, u: nat)
    requires i < |e.day.opers| && !e.day.opers[i].pc.Free? && (pc.Free? || pc.user == e.day.opers[i].pc.user)
    ensures var day := e.day.(notes := notes, opers := e.day.opers[i := e.day.opers[i].(pc := pc)]);
            Busy(e.(day := day), u) <= Busy(e, u)
  {
    OperChanged(e.day.opers, i, pc, u);
    hide Count;
  }

  lemma OperSettles(e: Dusk, i: nat, u: nat)
    requires Settled(e, u) && i < |e.day.opers| && AnOper(i) !in e.out
    ensures Settled(OperWork(e, i), u)
  {
    var s, o := e.day, e.day.opers[i];
    hide Settled, Busy, Without;
    match o.pc
    case Free =>
      var k := FirstOf(s.queue, o.service);
      if AnOper(i) in e.flag {
        LeavingBusy(e, i, u);
      } else if k < |s.queue| && s.queue[k].user >= 0 {
        TicketBusy(e, i, k, u);
        OthersSettle(e, OperWork(e, i), u);
      }
    case Calling(w) =>
      if AnOper(i) in e.flag {
        SessionBusy(e, i, Free, s.notes, u);
        LeavingBusy(e.(day := s.(opers := s.opers[i := o.(pc := Free)])), i, u);
        OthersSettle(e, OperWork(e, i), u);
      } else {
        SessionBusy(e, i, WaitAck(w), s.notes + [Call(i, w)], u);
        OthersSettle(e, OperWork(e, i), u);
      }
    case WaitAck(w) =>
      var k := Find(AcksTo(i), s.notes);
      if k < |s.notes| {
        SessionBusy(e, i, Serving(w), Without(s.notes, k), u);
        OthersSettle(e, OperWork(e, i), u);
      }
    case Serving(w) =>
      SessionBusy(e, i, Free, s.notes + [Fine(i, w)], u);
      OthersSettle(e, OperWork(e, i), u);
  }

  lemma LeavingBusy(e: Dusk, i: nat, u: nat)
    ensures Busy(e.(out := e.out + {AnOper(i)}), u) == Busy(e, u)
    ensures Settled(e, u) ==> Settled(e.(out := e.out + {AnOper(i)}), u)
  {
    hide Count;
  }

  lemma SignalSettles(e: Dusk, a: Act, u: nat)
    requires Settled(e, u) && !a.Work? && !a.NextDay?
    ensures Settled(DoAct(e, a), u)
  {
    hide Count, Find, NextAsk, FirstOf, RepliesTo, NotesTo, AsksOf, FullsTo, TicketsOf, InSessionWith;
    match a
    case Suspend =>
      assert Number(e.day, Target(e.day, e.sent)) == e.sent;
      assert Busy(DoAct(e, a), u) == Busy(e, u);
      hide Busy;
    case Deliver(_) => assert Busy(DoAct(e, a), u) <= Busy(e, u); hide Busy;
    case Fail(p) => if p != AUser(u) { FailSettles(e, p, u); }
    case Leave => assert Busy(DoAct(e, a), u) == Busy(e, u); hide Busy;
  }

  /** Somebody else's blocking call fails. */
  lemma FailSettles(e: Dusk, p: Proc, u: nat)
    requires Settled(e, u) && p != AUser(u)
    ensures Settled(DoFail(e, p), u)
  {
    hide Count, Find, NextAsk, FirstOf, RepliesTo, NotesTo, AsksOf, FullsTo, TicketsOf, InSessionWith;
    assert Busy(DoFail(e, p), u) <= Busy(e, u);
    hide Busy;
  }

  lemma ActSettles(e: Dusk, a: Act, u: nat)
    requires Settled(e, u) && !a.NextDay? && NoneRepeats(e.day.nextId, DoAct(e, a).day.nextId)
    ensures Settled(DoAct(e, a), u)
  {
    hide Settled, UserWork, ClerkWork, OperWork, DoFail, NoneRepeats;
    match a
    case Work(m) =>
      match m {
        case ByClerk => if TheClerk !in e.out { ClerkSettles(e, u); }
        case ByUser(w, v) => if w < |e.day.users| && AUser(w) !in e.out { UserSettles(e, w, v, u); }
        case ByOper(i) => if i < |e.day.opers| && AnOper(i) !in e.out { OperSettles(e, i, u); }
      }
    case _ => SignalSettles(e, a, u);
  }

  lemma IdsGrow(e: Dusk, a: Act)
    ensures e.day.nextId <= DoAct(e, a).day.nextId
  {
    hide Find, NextAsk, FirstOf, Without;
  }

  /** No new day begins. */
  predicate Today(acts: seq<Act>) { forall k :: 0 <= k < |acts| ==> !acts[k].NextDay? }

  lemma {:induction false} PassSettles(e: Dusk, acts: seq<Act>, u: nat)
    requires Settled(e, u) && Today(acts) && NoneRepeats(e.day.nextId, Pass(e, acts).day.nextId)
    ensures Settled(Pass(e, acts), u) && e.day.nextId <= Pass(e, acts).day.nextId
  {
    if acts != [] {
      var before := Pass(e, acts[..|acts|-1]);
      IdsGrow(before, acts[|acts|-1]);
      hide Settled, DoAct, Repeats;
      assert NoneRepeats(e.day.nextId, before.day.nextId);
      PassSettles(e, acts[..|acts|-1], u);
      ActSettles(before, acts[|acts|-1], u);
    }
  }

  // ----- exactly when the end signal leads to two claims

  /** A user is interrupted while it waits for its answer, as the first or after others.  It keeps to
      one claim, whatever happens for the rest of the day, as long as no identifier that reads as -2
      is issued, exactly when nothing of its first request is left that could still become a ticket
      or an answer read as "queue full". */
  lemma ResendDoublesClaim(e: Dusk, u: nat)
    requires Reached(e) && WillResend(e, u)
    ensures var f := DoFail(e, AUser(u));
            (forall acts: seq<Act> :: Today(acts) && NoneRepeats(e.day.nextId, Pass(f, acts).day.nextId) ==>
                                        Claims(Pass(f, acts).day, u) <= 1)
            <==> Busy(e, u) == 0
  {
    hide Reached, Pass, Repeats;
    ReachedOk(e);
    var f := DoFail(e, AUser(u));
    hide Orderly, StraysOk;
    assert f == e.(day := Interrupt(e.day, u), pend := e.pend - {AUser(u)}, flag := e.flag + {AUser(u)},
                   resent := e.resent + {u});
    assert Busy(f, u) == Busy(e, u);
    if Busy(e, u) == 0 {
      assert Settled(f, u);
      hide Busy, Claims, Settled, DoFail, NoneRepeats;
      forall acts: seq<Act> | Today(acts) && NoneRepeats(e.day.nextId, Pass(f, acts).day.nextId)
        ensures Claims(Pass(f, acts).day, u) <= 1
      {
        PassSettles(f, acts, u);
        SettledClaims(Pass(f, acts), u);
      }
    } else {
      var acts := TwoClaimsFollow(e, u);
      hide Busy, Claims, DoFail;
      assert NoneRepeats(e.day.nextId, Pass(f, acts).day.nextId);
      assert Claims(Pass(f, acts).day, u) >= 2;
    }
  }

  lemma SettledClaims(e: Dusk, u: nat)
    requires Settled(e, u)
    ensures Claims(e.day, u) <= 1
  {
    ClaimsAreBusy(e, u);
    hide Busy, Claims;
  }

  lemma TwoClaimsFollow(e: Dusk, u: nat) returns (acts: seq<Act>)
    requires SignalsOk(e) && WillResend(e, u) && Busy(e, u) > 0
    ensures var t := Pass(DoFail(e, AUser(u)), acts).day; Claims(t, u) >= 2 && t.nextId == e.day.nextId
    ensures Today(acts)
  {
    var m := Work(ByUser(u, e.day.users[u].service));
    acts := if Claims(e.day, u) > 0 then [m] else [m, Work(ByClerk), m, m];
    hide Pass, Busy, SignalsOk, WillResend, DoFail;
    if Claims(e.day, u) > 0 {
      hide Claims;
      SecondAsk(e, u);
    } else {
      hide Claims;
      FullAnswer(e, u);
    }
  }

  /** No claim is left, but an answer read as -2: it makes the user ask twice. */
  lemma FullAnswer(e: Dusk, u: nat)
    requires SignalsOk(e) && WillResend(e, u) && Busy(e, u) > 0 && Claims(e.day, u) == 0
    ensures var m := Work(ByUser(u, e.day.users[u].service));
            var t := Pass(DoFail(e, AUser(u)), [m, Work(ByClerk), m, m]).day;
            Claims(t, u) >= 2 && t.nextId == e.day.nextId
  {
    var v := e.day.users[u].service;
    var f, m := DoFail(e, AUser(u)), Work(ByUser(u, v));
    NoReplyWaiting(e.day, u);
    FullsAreReplies(e.day.letters, u);
    ClaimsAreBusy(e, u);
    hide Busy, AsInt;
    FourActs(f, m, Work(ByClerk), m, m);
    hide Claims, Pass;
    DenialThenAsk(f.day, u, v);
    FourWorks(f, u, v);
  }

  /** One claim is left, and the user asks again. */
  lemma SecondAsk(e: Dusk, u: nat)
    requires WillResend(e, u) && Claims(e.day, u) > 0
    ensures var t := Pass(DoFail(e, AUser(u)), [Work(ByUser(u, e.day.users[u].service))]).day;
            Claims(t, u) >= 2 && t.nextId == e.day.nextId
  {
    hide AsInt, Find;
    var v := e.day.users[u].service;
    var f, m := DoFail(e, AUser(u)), Work(ByUser(u, v));
    PassOne(f, m);
    assert Pass(f, [m]).day == UserGo(f.day, u, v);
    assert TrailOf(f.day, u) == TrailOf(e.day, u);
    AskTrail(f.day, u, v, u);
    hide TrailOf;
  }

  lemma PassOne(e: Dusk, a: Act)
    ensures Pass(e, [a]) == DoAct(e, a)
  {
    assert [a][..0] == [];
  }

  lemma FourActs(e: Dusk, a: Act, b: Act, c: Act, d: Act)
    ensures Pass(e, [a, b, c, d]) == DoAct(DoAct(DoAct(DoAct(e, a), b), c), d)
  {
    hide DoAct;
    PassOne(e, a);
    assert [a, b][..1] == [a] && [a, b, c][..2] == [a, b] && [a, b, c, d][..3] == [a, b, c];
    assert Pass(e, [a, b]) == DoAct(DoAct(e, a), b);
    assert Pass(e, [a, b, c]) == DoAct(DoAct(DoAct(e, a), b), c);
  }

  /** The dispenser sends an answer read as "queue full" before it has noticed the signal: the user asks again. */
  lemma FourWorks(e: Dusk, u: nat, v: Service)
    requires u < |e.day.users| && e.day.users[u] == Retry(v) && AUser(u) !in e.out
    requires AgainReady(e.day, u) && TheClerk !in e.flag && TheClerk !in e.out
    requires Find(RepliesTo(u), e.day.letters) == |e.day.letters|
    ensures var m := Work(ByUser(u, v));
            DoAct(DoAct(DoAct(DoAct(e, m), Work(ByClerk)), m), m)
            == e.(day := UserGo(UserGo(ClerkGo(UserGo(e.day, u, v)), u, v), u, v))
  {
    hide AsInt;
    var d1, a := UserGo(e.day, u, v), e.day.clerk.answer;
    assert d1 == e.day.(letters := e.day.letters + [Ask(v, u)], users := e.day.users[u := WantReply(v)]);
    var d2 := ClerkGo(d1);
    assert d2.users == d1.users && d2.letters == d1.letters + [Reply(u, a)];
    FoundLast(RepliesTo(u), d1.letters, Reply(u, a));
    var d3 := UserGo(d2, u, v);
    assert d3.users[u] == Retry(v);
    hide Find, UserGo, ClerkGo;
  }
}
