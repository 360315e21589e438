/** Users, the dispenser and the operators exchanging messages during one day, from clean message
    queues to the end-of-day signal.

    A user reads the dispenser's answer as an int, and -1 and -2 mean something else than a ticket.
    A user that has read such an identifier is astray, and so is one that asks again, interrupted in
    its wait, although something of its request is left.

    Both System V queues are FIFO per type.  In the queue of requests a request has its service
    as type and a reply the user; in the queue of sessions a call or a "fine" has the user as
    type and an acknowledgement the operator.  The sender of an acknowledgement or of a "fine" is
    not part of the message text: it is kept here as a record, and no step depends on it. */
module Handshake {
  import opened Office

  datatype Answer = Granted(id: nat) | Full | Refused

  datatype Letter = Ask(service: Service, user: nat) | Reply(user: nat, answer: Answer)

  datatype Note = Call(op: nat, user: nat) | Fine(op: nat, user: nat) | Ack(op: nat, user: nat)

  // src/utente.c:140-198
  datatype UserPc = Idle | Retry(service: Service) | WantReply(service: Service) | WantCall
                  | Acking(op: nat) | WantFine(op: nat) | Lost

  // src/operatori.c:382-446
  datatype OperPc = Free | Calling(user: nat) | WaitAck(user: nat) | Serving(user: nat)

  datatype Oper = Oper(service: Service, pc: OperPc)

  // src/erogatore_ticket.c:388-454
  datatype ClerkPc = Receiving | Got(ask: Letter) | Replying(user: nat, answer: Answer)

  /** evening records that the end-of-day signal has been sent, firstId the first identifier of the
      run, astray the users that have asked again or given up although a ticket or a request of
      theirs may be under way; no step depends on them. */
  datatype Day = Day(users: seq<UserPc>, opers: seq<Oper>, clerk: ClerkPc,
                     letters: seq<Letter>, notes: seq<Note>, queue: seq<Ticket>, nextId: nat,
                     enabled: set<int>, cap: nat, evening: bool, firstId: nat, astray: set<nat>)

  // ----- reading an answer

  const TWO63 := 0x8000_0000_0000_0000

  /** atoi of a printed identifier: strtol stops at the largest long, and an int keeps the low 32
      bits. */
  function AsInt(id: nat): int {
    var low := (if id < TWO63 then id else TWO63 - 1) % TWO32;
    if low < TWO32 / 2 then low else low - TWO32
  }

  /** The number a user reads. */
  function NumberOf(a: Answer): int {
    match a case Granted(id) => AsInt(id) case Full => -2 case Refused => -1
  }

  /** The identifier reads as neither of the two other answers. */
  predicate Plain(id: nat) { AsInt(id) != -1 && AsInt(id) != -2 }

  predicate Odd(a: Answer) { a.Granted? && !Plain(a.id) }

  predicate AllPlain(lo: nat, hi: nat) { forall id: nat :: lo <= id < hi ==> Plain(id) }

  /** The int that agrees with the long in the low 32 bits. */
  lemma AsIntWraps(id: nat)
    ensures -(TWO32 / 2) <= AsInt(id) < TWO32 / 2
    ensures id < TWO63 ==> (id - AsInt(id)) % TWO32 == 0
    ensures id >= TWO63 ==> AsInt(id) == -1
  {
    if id < TWO63 {
      assert id == id / TWO32 * TWO32 + id % TWO32;
      var q := if id % TWO32 < TWO32 / 2 then id / TWO32 else id / TWO32 + 1;
      assert id - AsInt(id) == q * TWO32;
    }
  }

  /** Exactly the identifiers whose low 32 bits are all ones, or all but the last, and those no long
      can hold. */
  lemma PlainExactly(id: nat)
    ensures Plain(id) <==> id < TWO63 && id % TWO32 != TWO32 - 1 && id % TWO32 != TWO32 - 2
  {
  }

  // ----- receiving from a queue

  function Find<T>(f: T -> bool, q: seq<T>): (k: nat)
    ensures k <= |q|
    ensures k < |q| ==> f(q[k])
    ensures forall j :: 0 <= j < k ==> !f(q[j])
  {
    if q == [] || f(q[0]) then 0 else 1 + Find(f, q[1..])
  }

  function Asks(v: Service): Letter -> bool { (m: Letter) => m.Ask? && m.service == v }
  function AsksOf(u: nat): Letter -> bool { (m: Letter) => m.Ask? && m.user == u }
  function RepliesTo(u: nat): Letter -> bool { (m: Letter) => m.Reply? && m.user == u }
  function GrantsTo(u: nat): Letter -> bool { (m: Letter) => m.Reply? && m.user == u && m.answer.Granted? }
  function DenialsTo(u: nat): Letter -> bool { (m: Letter) => m.Reply? && m.user == u && !m.answer.Granted? }

  function NotesTo(u: nat): Note -> bool { (n: Note) => !n.Ack? && n.user == u }
  function CallsTo(u: nat): Note -> bool { (n: Note) => n.Call? && n.user == u }
  function FinesTo(u: nat): Note -> bool { (n: Note) => n.Fine? && n.user == u }
  function AcksFrom(u: nat): Note -> bool { (n: Note) => n.Ack? && n.user == u }
  function AcksTo(o: nat): Note -> bool { (n: Note) => n.Ack? && n.op == o }
  function TokensOf(o: nat): Note -> bool { (n: Note) => !n.Fine? && n.op == o }
  function AckersTo(o: nat): UserPc -> bool { (p: UserPc) => p == Acking(o) }

  function TicketsOf(u: nat): Ticket -> bool { (t: Ticket) => t.user == u }
  function CallersOf(u: nat): Oper -> bool { (o: Oper) => o.pc == Calling(u) }
  function WaitersOf(u: nat): Oper -> bool { (o: Oper) => o.pc == WaitAck(u) }
  function ServersOf(u: nat): Oper -> bool { (o: Oper) => o.pc == Serving(u) }

  /** msgrcv with type -6: the first request of the lowest service that has one. */
  function NextAsk(q: seq<Letter>, v: nat): (k: nat)
    requires 1 <= v <= SERVICES + 1
    ensures k <= |q|
    ensures k < |q| ==> q[k].Ask? && v <= q[k].service
    ensures k < |q| ==> forall j :: 0 <= j < k ==> !(q[j].Ask? && q[j].service == q[k].service)
    ensures k < |q| ==> forall j :: 0 <= j < |q| && q[j].Ask? && v <= q[j].service ==> q[k].service <= q[j].service
    ensures k == |q| ==> forall j :: 0 <= j < |q| && q[j].Ask? ==> q[j].service < v
    decreases SERVICES + 1 - v
  {
    if v > SERVICES then |q|
    else
      var k := Find(Asks(v), q);
      if k < |q| then k else NextAsk(q, v + 1)
  }

  // ----- steps

  /** src/utente.c:158-195: -2 means again, -1 that the service is not on offer. */
  function Answered(w: Service, a: Answer): UserPc {
    if NumberOf(a) == -2 then Retry(w) else if NumberOf(a) == -1 then Idle else WantCall
  }

  function Strays(s: Day, u: nat, a: Answer): set<nat> { if Odd(a) then s.astray + {u} else s.astray }

  function UserGo(s: Day, u: nat, v: Service): Day
    requires u < |s.users|
  {
    match s.users[u]
    case Idle => s.(letters := s.letters + [Ask(v, u)], users := s.users[u := WantReply(v)])
    case Retry(w) => s.(letters := s.letters + [Ask(w, u)], users := s.users[u := WantReply(w)])
    case WantReply(w) =>
      var k := Find(RepliesTo(u), s.letters);
      if k < |s.letters| then
        var a := s.letters[k].answer;
        s.(letters := Without(s.letters, k), users := s.users[u := Answered(w, a)], astray := Strays(s, u, a))
      else s
    case WantCall =>
      var k := Find(NotesTo(u), s.notes);
      if k < |s.notes| then
        // the text of a call is the operator's pid; any other text reads as 0, no valid type
        var next := if s.notes[k].Call? then Acking(s.notes[k].op) else Lost;
        s.(notes := Without(s.notes, k), users := s.users[u := next])
      else s
    case Acking(o) => s.(notes := s.notes + [Ack(o, u)], users := s.users[u := WantFine(o)])
    case WantFine(_) =>
      var k := Find(NotesTo(u), s.notes);
      if k < |s.notes| then s.(notes := Without(s.notes, k), users := s.users[u := Idle]) else s
    case Lost => s
  }

  function ClerkGo(s: Day): Day {
    match s.clerk
    case Receiving =>
      var k := NextAsk(s.letters, 1);
      if k < |s.letters| then s.(letters := Without(s.letters, k), clerk := Got(s.letters[k])) else s
    case Got(m) =>
      if m.Reply? then s
      else if m.service !in s.enabled then s.(clerk := Replying(m.user, Refused))
      else if |s.queue| == s.cap then s.(clerk := Replying(m.user, Full))
      else
        s.(queue := s.queue + [Ticket(s.nextId, m.service, m.user, 0)], nextId := s.nextId + 1,
           clerk := Replying(m.user, Granted(s.nextId)))
    case Replying(u, a) => s.(letters := s.letters + [Reply(u, a)], clerk := Receiving)
  }

  function OperGo(s: Day, i: nat): Day
    requires i < |s.opers|
  {
    var o := s.opers[i];
    match o.pc
    case Free =>
      var k := FirstOf(s.queue, o.service);
      if k < |s.queue| && s.queue[k].user >= 0 then
        s.(queue := Without(s.queue, k), opers := s.opers[i := o.(pc := Calling(s.queue[k].user))])
      else s
    case Calling(u) => s.(notes := s.notes + [Call(i, u)], opers := s.opers[i := o.(pc := WaitAck(u))])
    case WaitAck(u) =>
      var k := Find(AcksTo(i), s.notes);
      if k < |s.notes| then s.(notes := Without(s.notes, k), opers := s.opers[i := o.(pc := Serving(u))]) else s
    case Serving(u) => s.(notes := s.notes + [Fine(i, u)], opers := s.opers[i := o.(pc := Free)])
  }

  datatype Move = ByUser(u: nat, service: Service) | ByClerk | ByOper(i: nat)

  function Do(s: Day, m: Move): Day {
    match m
    case ByUser(u, v) => if u < |s.users| then UserGo(s, u, v) else s
    case ByClerk => ClerkGo(s)
    case ByOper(i) => if i < |s.opers| then OperGo(s, i) else s
  }

  function Play(s: Day, ms: seq<Move>): Day {
    if ms == [] then s else Do(Play(s, ms[..|ms|-1]), ms[|ms|-1])
  }

  function Morning(users: nat, services: seq<Service>, enabled: set<int>, cap: nat, nextId: nat): Day {
    Day(seq(users, _ => Idle), seq(|services|, i requires 0 <= i < |services| => Oper(services[i], Free)),
        Receiving, [], [], [], nextId, enabled, cap, false, nextId, {})
  }

  // ----- counting

  function Count<T>(f: T -> bool, q: seq<T>): nat {
    if q == [] then 0 else (if f(q[0]) then 1 else 0) + Count(f, q[1..])
  }

  lemma {:induction false} CountAdd<T>(f: T -> bool, q: seq<T>, x: T)
    ensures Count(f, q + [x]) == Count(f, q) + if f(x) then 1 else 0
  {
    if q != [] {
      assert (q + [x])[1..] == q[1..] + [x];
      CountAdd(f, q[1..], x);
    }
  }

  lemma {:induction false} CountDrop<T>(f: T -> bool, q: seq<T>, k: nat)
    requires k < |q|
    ensures Count(f, Without(q, k)) == Count(f, q) - if f(q[k]) then 1 else 0
    ensures f(q[k]) ==> Count(f, q) >= 1
  {
    if k == 0 {
      assert Without(q, 0) == q[1..];
    } else {
      assert Without(q, k)[1..] == Without(q[1..], k - 1);
      CountDrop(f, q[1..], k - 1);
    }
  }

  lemma {:induction false} CountSet<T>(f: T -> bool, q: seq<T>, i: nat, x: T)
    requires i < |q|
    ensures Count(f, q[i := x]) == Count(f, q) - (if f(q[i]) then 1 else 0) + (if f(x) then 1 else 0)
    ensures f(q[i]) ==> Count(f, q) >= 1
  {
    if i == 0 {
      assert q[i := x][1..] == q[1..];
    } else {
      assert q[i := x][1..] == q[1..][i-1 := x];
      CountSet(f, q[1..], i - 1, x);
    }
  }

  /** Two different positions count separately. */
  lemma CountTwo<T>(f: T -> bool, q: seq<T>, i: nat, j: nat)
    requires i < |q| && j < |q| && i != j && f(q[i]) && f(q[j])
    ensures Count(f, q) >= 2
  {
    CountDrop(f, q, i);
    CountDrop(f, Without(q, i), if j < i then j else j - 1);
  }

  lemma {:induction false} CountNone<T>(f: T -> bool, q: seq<T>)
    requires forall k :: 0 <= k < |q| ==> !f(q[k])
    ensures Count(f, q) == 0
  {
    if q != [] {
      CountNone(f, q[1..]);
    }
  }

  // ----- where a user's claim is

  /** Requests on their way, answers on their way, tickets not yet called, sessions waiting for
      the acknowledgement, sessions in service; calls, acknowledgements and "fine" under way. */
  datatype Trail = Trail(asks: nat, grants: nat, denials: nat, tickets: nat, waits: nat, serves: nat,
                         calls: nat, acks: nat, fines: nat)

  function TrailOf(s: Day, u: nat): Trail {
    Trail(Count(AsksOf(u), s.letters) + One(s.clerk.Got? && AsksOf(u)(s.clerk.ask)),
          Count(GrantsTo(u), s.letters) + One(s.clerk.Replying? && s.clerk.user == u && s.clerk.answer.Granted?),
          Count(DenialsTo(u), s.letters) + One(s.clerk.Replying? && s.clerk.user == u && !s.clerk.answer.Granted?),
          Count(TicketsOf(u), s.queue) + Count(CallersOf(u), s.opers),
          Count(WaitersOf(u), s.opers), Count(ServersOf(u), s.opers),
          Count(CallsTo(u), s.notes), Count(AcksFrom(u), s.notes), Count(FinesTo(u), s.notes))
  }

  const NOTHING := Trail(0, 0, 0, 0, 0, 0, 0, 0, 0)
  const ASKED := NOTHING.(asks := 1)
  const DENIED := NOTHING.(denials := 1)
  const QUEUED := NOTHING.(tickets := 1)
  const CALLED := NOTHING.(waits := 1, calls := 1)

  /** What a user's program counter says about its trail.  In the evening a request, an answer or
      a ticket may have been dropped. */
  predicate Fits(pc: UserPc, t: Trail, evening: bool) {
    match pc
    case Idle | Retry(_) => t == NOTHING
    case WantReply(_) =>
      || t == ASKED || t == DENIED || t == QUEUED.(grants := 1) || t == CALLED.(grants := 1)
      || (evening && (t == NOTHING || t == NOTHING.(grants := 1) || t == QUEUED || t == CALLED))
    case WantCall => t == QUEUED || t == CALLED || (evening && t == NOTHING)
    case Acking(_) => t == NOTHING.(waits := 1)
    case WantFine(_) => t == NOTHING.(waits := 1, acks := 1) || t == NOTHING.(serves := 1) || t == NOTHING.(fines := 1)
    case Lost => false
  }

  /** Nothing has led u astray. */
  predicate Straight(s: Day, u: nat) { u < |s.users| && u !in s.astray }

  /** Who a note is from and to. */
  predicate NoteOk(s: Day, n: Note) {
    && n.op < |s.opers| && n.user < |s.users|
    && match n
       case Call(o, u) => s.opers[o].pc == WaitAck(u)
       case Ack(o, u) => s.opers[o].pc == WaitAck(u) && (Straight(s, u) ==> s.users[u] == WantFine(o))
       case Fine(o, u) => Straight(s, u) ==> s.users[u] == WantFine(o)
  }

  /** The operator a user acknowledges, or has acknowledged, is the one in session with it. */
  predicate PartnerOk(s: Day, u: nat)
    requires u < |s.users|
  {
    match s.users[u]
    case Acking(o) => o < |s.opers| && s.opers[o].pc == WaitAck(u)
    case WantFine(o) =>
      Straight(s, u) ==>
        && o < |s.opers|
        && (s.opers[o].pc == WaitAck(u) || s.opers[o].pc == Serving(u) || TrailOf(s, u).fines == 1)
    case _ => true
  }

  predicate Known(s: Day) {
    && (forall k :: 0 <= k < |s.letters| ==> s.letters[k].user < |s.users|)
    && (forall k :: 0 <= k < |s.queue| ==> 0 <= s.queue[k].user < |s.users|)
    && (forall o :: 0 <= o < |s.opers| && !s.opers[o].pc.Free? ==> s.opers[o].pc.user < |s.users|)
    && (s.clerk.Got? ==> s.clerk.ask.Ask? && s.clerk.ask.user < |s.users|)
    && (s.clerk.Replying? ==> s.clerk.user < |s.users|)
  }

  /** Calls and acknowledgements of operator o that still have to be answered. */
  function Tokens(s: Day, o: nat): nat { Count(TokensOf(o), s.notes) + Count(AckersTo(o), s.users) }

  predicate TokensOk(s: Day, o: nat) {
    Tokens(s, o) <= One(o < |s.opers| && s.opers[o].pc.WaitAck?)
  }

  /** Users that are not astray have one claim; for all others only the sessions stay in order. */
  ghost predicate Orderly(s: Day) {
    && Known(s)
    && (forall u: nat :: Straight(s, u) ==> Fits(s.users[u], TrailOf(s, u), s.evening))
    && (forall k :: 0 <= k < |s.notes| ==> NoteOk(s, s.notes[k]))
    && (forall u: nat :: u < |s.users| ==> PartnerOk(s, u))
    && (forall o: nat :: TokensOk(s, o))
  }

  // ----- effects on calls and acknowledgements

  lemma UserTokens(s: Day, u: nat, pc: UserPc, o: nat)
    requires u < |s.users|
    ensures Count(AckersTo(o), s.users[u := pc])
         == Count(AckersTo(o), s.users) - One(s.users[u] == Acking(o)) + One(pc == Acking(o))
  {
    CountSet(AckersTo(o), s.users, u, pc);
  }

  lemma NoteTokens(q: seq<Note>, n: Note, o: nat)
    ensures Count(TokensOf(o), q + [n]) == Count(TokensOf(o), q) + One(!n.Fine? && n.op == o)
  {
    CountAdd(TokensOf(o), q, n);
  }

  lemma NoteGone(q: seq<Note>, k: nat, o: nat)
    requires k < |q|
    ensures Count(TokensOf(o), Without(q, k)) == Count(TokensOf(o), q) - One(!q[k].Fine? && q[k].op == o)
  {
    CountDrop(TokensOf(o), q, k);
  }

  /** Without tokens there is neither a call, nor an acknowledgement, nor a user about to send one. */
  lemma NoTokens(s: Day, o: nat)
    requires Tokens(s, o) == 0
    ensures forall k :: 0 <= k < |s.notes| ==> s.notes[k].Fine? || s.notes[k].op != o
    ensures forall u: nat :: u < |s.users| ==> s.users[u] != Acking(o)
  {
    forall k | 0 <= k < |s.notes| ensures s.notes[k].Fine? || s.notes[k].op != o {
      CountDrop(TokensOf(o), s.notes, k);
    }
    forall u: nat | u < |s.users| ensures s.users[u] != Acking(o) {
      CountSet(AckersTo(o), s.users, u, Idle);
    }
  }

  // ----- effects on the trails

  lemma LetterSent(q: seq<Letter>, m: Letter, u: nat)
    ensures var r := q + [m];
            && Count(AsksOf(u), r) == Count(AsksOf(u), q) + One(m.Ask? && m.user == u)
            && Count(GrantsTo(u), r) == Count(GrantsTo(u), q) + One(m.Reply? && m.user == u && m.answer.Granted?)
            && Count(DenialsTo(u), r) == Count(DenialsTo(u), q) + One(m.Reply? && m.user == u && !m.answer.Granted?)
  {
    CountAdd(AsksOf(u), q, m);
    CountAdd(GrantsTo(u), q, m);
    CountAdd(DenialsTo(u), q, m);
  }

  lemma LetterTaken(q: seq<Letter>, k: nat, u: nat)
    requires k < |q|
    ensures var r, m := Without(q, k), q[k];
            && Count(AsksOf(u), r) == Count(AsksOf(u), q) - One(m.Ask? && m.user == u)
            && Count(GrantsTo(u), r) == Count(GrantsTo(u), q) - One(m.Reply? && m.user == u && m.answer.Granted?)
            && Count(DenialsTo(u), r) == Count(DenialsTo(u), q) - One(m.Reply? && m.user == u && !m.answer.Granted?)
  {
    CountDrop(AsksOf(u), q, k);
    CountDrop(GrantsTo(u), q, k);
    CountDrop(DenialsTo(u), q, k);
  }

  lemma NoteSent(q: seq<Note>, n: Note, u: nat)
    ensures var r := q + [n];
            && Count(CallsTo(u), r) == Count(CallsTo(u), q) + One(n.Call? && n.user == u)
            && Count(AcksFrom(u), r) == Count(AcksFrom(u), q) + One(n.Ack? && n.user == u)
            && Count(FinesTo(u), r) == Count(FinesTo(u), q) + One(n.Fine? && n.user == u)
  {
    CountAdd(CallsTo(u), q, n);
    CountAdd(AcksFrom(u), q, n);
    CountAdd(FinesTo(u), q, n);
  }

  lemma NoteTaken(q: seq<Note>, k: nat, u: nat)
    requires k < |q|
    ensures var r, n := Without(q, k), q[k];
            && Count(CallsTo(u), r) == Count(CallsTo(u), q) - One(n.Call? && n.user == u)
            && Count(AcksFrom(u), r) == Count(AcksFrom(u), q) - One(n.Ack? && n.user == u)
            && Count(FinesTo(u), r) == Count(FinesTo(u), q) - One(n.Fine? && n.user == u)
  {
    CountDrop(CallsTo(u), q, k);
    CountDrop(AcksFrom(u), q, k);
    CountDrop(FinesTo(u), q, k);
  }

  lemma OperMoved(q: seq<Oper>, i: nat, pc: OperPc, u: nat)
    requires i < |q|
    ensures var r, p := q[i := q[i].(pc := pc)], q[i].pc;
            && Count(CallersOf(u), r) == Count(CallersOf(u), q) - One(p == Calling(u)) + One(pc == Calling(u))
            && Count(WaitersOf(u), r) == Count(WaitersOf(u), q) - One(p == WaitAck(u)) + One(pc == WaitAck(u))
            && Count(ServersOf(u), r) == Count(ServersOf(u), q) - One(p == Serving(u)) + One(pc == Serving(u))
  {
    CountSet(CallersOf(u), q, i, q[i].(pc := pc));
    CountSet(WaitersOf(u), q, i, q[i].(pc := pc));
    CountSet(ServersOf(u), q, i, q[i].(pc := pc));
  }

  // ----- how a step moves the trail of the one user it concerns; all others keep theirs

  lemma AskTrail(s: Day, u: nat, v: Service, w: nat)
    requires u < |s.users|
    ensures var t := s.(letters := s.letters + [Ask(v, u)], users := s.users[u := WantReply(v)]);
            var p := TrailOf(s, w);
            TrailOf(t, w) == if w == u then p.(asks := p.asks + 1) else p
  {
    LetterSent(s.letters, Ask(v, u), w);
    hide Count;
  }

  lemma ReplyReadTrail(s: Day, u: nat, next: UserPc, k: nat, stray: set<nat>, w: nat)
    requires u < |s.users| && k < |s.letters| && s.letters[k].Reply? && s.letters[k].user == u
    ensures var t := s.(letters := Without(s.letters, k), users := s.users[u := next], astray := stray);
            var p, q := TrailOf(s, w), TrailOf(t, w);
            && (w != u ==> q == p)
            && (w == u && s.letters[k].answer.Granted? ==> p.grants > 0 && q == p.(grants := p.grants - 1))
            && (w == u && !s.letters[k].answer.Granted? ==> p.denials > 0 && q == p.(denials := p.denials - 1))
  {
    LetterTaken(s.letters, k, w);
    hide Count, Without;
  }

  lemma NoteReadTrail(s: Day, u: nat, next: UserPc, k: nat, w: nat)
    requires u < |s.users| && k < |s.notes| && NotesTo(u)(s.notes[k])
    ensures var t := s.(notes := Without(s.notes, k), users := s.users[u := next]);
            var p, q := TrailOf(s, w), TrailOf(t, w);
            && (w != u ==> q == p)
            && (w == u && s.notes[k].Call? ==> p.calls > 0 && q == p.(calls := p.calls - 1))
            && (w == u && s.notes[k].Fine? ==> p.fines > 0 && q == p.(fines := p.fines - 1))
  {
    NoteTaken(s.notes, k, w);
    hide Count, Without;
  }

  lemma AckTrail(s: Day, u: nat, o: nat, w: nat)
    requires u < |s.users|
    ensures var t := s.(notes := s.notes + [Ack(o, u)], users := s.users[u := WantFine(o)]);
            var p := TrailOf(s, w);
            TrailOf(t, w) == if w == u then p.(acks := p.acks + 1) else p
  {
    NoteSent(s.notes, Ack(o, u), w);
    hide Count;
  }

  /** What the dispenser's decision on a request does: a ticket and a grant, or a denial. */
  predicate Decided(s: Day, t: Day)
    requires s.clerk.Got? && s.clerk.ask.Ask?
  {
    var m := s.clerk.ask;
    || t == s.(clerk := Replying(m.user, Refused)) || t == s.(clerk := Replying(m.user, Full))
    || t == s.(queue := s.queue + [Ticket(s.nextId, m.service, m.user, 0)], nextId := s.nextId + 1,
               clerk := Replying(m.user, Granted(s.nextId)))
  }

  lemma DecideTrail(s: Day, t: Day, w: nat)
    requires s.clerk.Got? && s.clerk.ask.Ask? && Decided(s, t)
    ensures var p, q := TrailOf(s, w), TrailOf(t, w);
            if w != s.clerk.ask.user then q == p
            else
              && p.asks > 0
              && q == if t.clerk.answer.Granted?
                      then p.(asks := p.asks - 1, grants := p.grants + 1, tickets := p.tickets + 1)
                      else p.(asks := p.asks - 1, denials := p.denials + 1)
  {
    var m := s.clerk.ask;
    CountAdd(TicketsOf(w), s.queue, Ticket(s.nextId, m.service, m.user, 0));
    hide Count;
  }

  lemma TicketTakenTrail(s: Day, i: nat, u: nat, k: nat, w: nat)
    requires i < |s.opers| && s.opers[i].pc.Free? && k < |s.queue| && s.queue[k].user == u
    ensures var t := s.(queue := Without(s.queue, k), opers := s.opers[i := s.opers[i].(pc := Calling(u))]);
            TrailOf(t, w) == TrailOf(s, w)
  {
    CountDrop(TicketsOf(w), s.queue, k);
    OperMoved(s.opers, i, Calling(u), w);
    hide Count, Without;
  }

  lemma CallTrail(s: Day, i: nat, u: nat, w: nat)
    requires i < |s.opers| && s.opers[i].pc == Calling(u)
    ensures var t := s.(notes := s.notes + [Call(i, u)], opers := s.opers[i := s.opers[i].(pc := WaitAck(u))]);
            var p, q := TrailOf(s, w), TrailOf(t, w);
            && (w != u ==> q == p)
            && (w == u ==> p.tickets > 0)
            && (w == u ==> q == p.(tickets := p.tickets - 1, waits := p.waits + 1, calls := p.calls + 1))
  {
    NoteSent(s.notes, Call(i, u), w);
    OperMoved(s.opers, i, WaitAck(u), w);
    hide Count;
  }

  lemma AckReadTrail(s: Day, i: nat, u: nat, k: nat, w: nat)
    requires i < |s.opers| && s.opers[i].pc == WaitAck(u) && k < |s.notes| && s.notes[k] == Ack(i, u)
    ensures var t := s.(notes := Without(s.notes, k), opers := s.opers[i := s.opers[i].(pc := Serving(u))]);
            var p, q := TrailOf(s, w), TrailOf(t, w);
            && (w != u ==> q == p)
            && (w == u ==> p.acks > 0 && p.waits > 0
                           && q == p.(acks := p.acks - 1, waits := p.waits - 1, serves := p.serves + 1))
  {
    NoteTaken(s.notes, k, w);
    OperMoved(s.opers, i, Serving(u), w);
    hide Count, Without;
  }

  lemma FineTrail(s: Day, i: nat, u: nat, w: nat)
    requires i < |s.opers| && s.opers[i].pc == Serving(u)
    ensures var t := s.(notes := s.notes + [Fine(i, u)], opers := s.opers[i := s.opers[i].(pc := Free)]);
            var p, q := TrailOf(s, w), TrailOf(t, w);
            && (w != u ==> q == p)
            && (w == u ==> p.serves > 0 && q == p.(serves := p.serves - 1, fines := p.fines + 1))
  {
    NoteSent(s.notes, Fine(i, u), w);
    OperMoved(s.opers, i, Free, w);
    hide Count;
  }

  // ----- every step keeps the day orderly

  /** A note of a kind the user's trail has none of is not in the queue. */
  lemma NoNote(s: Day, k: nat)
    requires k < |s.notes|
    ensures var n := s.notes[k]; var t := TrailOf(s, n.user);
            (n.Call? ==> t.calls > 0) && (n.Ack? ==> t.acks > 0) && (n.Fine? ==> t.fines > 0)
  {
    NoteTaken(s.notes, k, s.notes[k].user);
    hide Count;
  }

  /** A step that concerns user u alone leaves the notes of the others in order. */
  lemma NotesKept(s: Day, t: Day, u: nat)
    requires forall k :: 0 <= k < |s.notes| ==> NoteOk(s, s.notes[k])
    requires u < |s.users| && |t.users| == |s.users| && t.opers == s.opers && s.astray <= t.astray
    requires forall w: nat :: w < |s.users| && w != u ==> t.users[w] == s.users[w]
    requires forall k :: 0 <= k < |t.notes| ==> t.notes[k] in s.notes
    requires Straight(t, u) ==> forall k :: 0 <= k < |t.notes| ==> t.notes[k].user != u || t.notes[k].Call?
    ensures forall k :: 0 <= k < |t.notes| ==> NoteOk(t, t.notes[k])
  {
    forall k | 0 <= k < |t.notes| ensures NoteOk(t, t.notes[k]) {
      assert t.notes[k] in s.notes;
      var j :| 0 <= j < |s.notes| && s.notes[j] == t.notes[k];
      assert NoteOk(s, s.notes[j]);
    }
  }

  /** Nothing but calls is on its way to or from a user that is in no session. */
  lemma OnlyCalls(s: Day, u: nat, k: nat)
    requires Orderly(s) && Straight(s, u) && k < |s.notes| && s.notes[k].user == u && !s.users[u].WantFine?
    ensures s.notes[k].Call?
  {
    assert NoteOk(s, s.notes[k]);
  }

  lemma AskKeeps(s: Day, u: nat, v: Service)
    requires Orderly(s) && u < |s.users| && (s.users[u].Idle? || s.users[u].Retry?)
    ensures Orderly(s.(letters := s.letters + [Ask(v, u)], users := s.users[u := WantReply(v)]))
  {
    hide TrailOf;
    var t := s.(letters := s.letters + [Ask(v, u)], users := s.users[u := WantReply(v)]);
    forall w: nat | w < |s.users|
      ensures (Straight(t, w) ==> Fits(t.users[w], TrailOf(t, w), t.evening)) && PartnerOk(t, w)
    {
      AskTrail(s, u, v, w);
      assert PartnerOk(s, w) && (Straight(s, w) ==> Fits(s.users[w], TrailOf(s, w), s.evening));
    }
    forall o: nat ensures TokensOk(t, o) {
      UserTokens(s, u, WantReply(v), o);
      assert TokensOk(s, o);
    }
    if Straight(t, u) {
      forall k | 0 <= k < |t.notes| ensures t.notes[k].user != u || t.notes[k].Call? {
        if s.notes[k].user == u { OnlyCalls(s, u, k); }
      }
    }
    NotesKept(s, t, u);
  }

  lemma ReadReplyKeeps(s: Day, u: nat, w0: Service, k: nat)
    requires Orderly(s) && u < |s.users| && s.users[u] == WantReply(w0)
    requires k < |s.letters| && s.letters[k].Reply? && s.letters[k].user == u
    ensures var a := s.letters[k].answer;
            Orderly(s.(letters := Without(s.letters, k), users := s.users[u := Answered(w0, a)],
                       astray := Strays(s, u, a)))
  {
    hide TrailOf, AsInt;
    var a := s.letters[k].answer;
    var next, stray := Answered(w0, a), Strays(s, u, a);
    var t := s.(letters := Without(s.letters, k), users := s.users[u := next], astray := stray);
    forall w: nat | w < |s.users|
      ensures (Straight(t, w) ==> Fits(t.users[w], TrailOf(t, w), t.evening)) && PartnerOk(t, w)
    {
      ReplyReadTrail(s, u, next, k, stray, w);
      assert PartnerOk(s, w) && (Straight(s, w) ==> Fits(s.users[w], TrailOf(s, w), s.evening));
    }
    forall o: nat ensures TokensOk(t, o) {
      UserTokens(s, u, next, o);
      assert TokensOk(s, o);
    }
    if Straight(t, u) {
      forall j | 0 <= j < |t.notes| ensures t.notes[j].user != u || t.notes[j].Call? {
        if s.notes[j].user == u { OnlyCalls(s, u, j); }
      }
    }
    NotesKept(s, t, u);
    assert Known(t);
    hide Without;
  }

  /** While a user waits for a call, only calls are on their way to it. */
  lemma OnlyCallsArrive(s: Day, u: nat, k: nat)
    requires Orderly(s) && Straight(s, u) && s.users[u].WantCall? && k < |s.notes| && NotesTo(u)(s.notes[k])
    ensures s.notes[k].Call? && s.notes[k].op < |s.opers| && s.opers[s.notes[k].op].pc == WaitAck(u)
  {
    assert NoteOk(s, s.notes[k]);
  }

  /** While a user waits for the end of its session, only the "fine" of the operator it has
      acknowledged is on its way to it. */
  lemma OnlyFineArrives(s: Day, u: nat, k: nat)
    requires Orderly(s) && Straight(s, u) && s.users[u].WantFine? && k < |s.notes| && NotesTo(u)(s.notes[k])
    ensures s.notes[k] == Fine(s.users[u].op, u)
  {
    NoNote(s, k);
    assert Fits(s.users[u], TrailOf(s, u), s.evening) && NoteOk(s, s.notes[k]);
  }

  lemma TokensDrop(s: Day, u: nat, k: nat, pc: UserPc, o: nat)
    requires u < |s.users| && k < |s.notes| && TokensOk(s, o) && !s.users[u].Acking?
    requires pc.Acking? ==> s.notes[k].Call? && pc.op == s.notes[k].op
    ensures TokensOk(s.(notes := Without(s.notes, k), users := s.users[u := pc]), o)
  {
    UserTokens(s, u, pc, o);
    NoteGone(s.notes, k, o);
    hide Count, Without;
  }

  /** Whoever reads a call acknowledges it. */
  lemma ReadCallKeeps(s: Day, u: nat, k: nat, o: nat)
    requires Orderly(s) && u < |s.users| && s.users[u].WantCall? && k < |s.notes| && s.notes[k] == Call(o, u)
    ensures Orderly(s.(notes := Without(s.notes, k), users := s.users[u := Acking(o)]))
  {
    hide TrailOf;
    assert NoteOk(s, s.notes[k]);
    var t := s.(notes := Without(s.notes, k), users := s.users[u := Acking(o)]);
    forall w: nat | w < |s.users|
      ensures (Straight(t, w) ==> Fits(t.users[w], TrailOf(t, w), t.evening)) && PartnerOk(t, w)
    {
      NoteReadTrail(s, u, Acking(o), k, w);
      assert PartnerOk(s, w) && (Straight(s, w) ==> Fits(s.users[w], TrailOf(s, w), s.evening));
    }
    forall p: nat ensures TokensOk(t, p) {
      assert TokensOk(s, p);
      TokensDrop(s, u, k, Acking(o), p);
    }
    if Straight(t, u) {
      forall j | 0 <= j < |t.notes| ensures t.notes[j].user != u || t.notes[j].Call? {
        if t.notes[j].user == u { OnlyCalls(s, u, if j < k then j else j + 1); }
      }
    }
    NotesKept(s, t, u);
    assert Known(t);
    hide Without;
  }

  lemma AckKeeps(s: Day, u: nat, o: nat)
    requires Orderly(s) && u < |s.users| && s.users[u] == Acking(o)
    ensures Orderly(s.(notes := s.notes + [Ack(o, u)], users := s.users[u := WantFine(o)]))
  {
    hide TrailOf;
    var t := s.(notes := s.notes + [Ack(o, u)], users := s.users[u := WantFine(o)]);
    assert PartnerOk(s, u);
    forall w: nat | w < |s.users|
      ensures (Straight(t, w) ==> Fits(t.users[w], TrailOf(t, w), t.evening)) && PartnerOk(t, w)
    {
      AckTrail(s, u, o, w);
      assert PartnerOk(s, w) && (Straight(s, w) ==> Fits(s.users[w], TrailOf(s, w), s.evening));
    }
    forall p: nat ensures TokensOk(t, p) {
      UserTokens(s, u, WantFine(o), p);
      NoteTokens(s.notes, Ack(o, u), p);
      assert TokensOk(s, p);
    }
    forall j | 0 <= j < |t.notes| ensures NoteOk(t, t.notes[j]) {
      if j < |s.notes| {
        assert NoteOk(s, s.notes[j]);
        if Straight(s, u) && s.notes[j].user == u { OnlyCalls(s, u, j); }
      }
    }
  }

  lemma ReadFineKeeps(s: Day, u: nat, k: nat)
    requires Orderly(s) && Straight(s, u) && s.users[u].WantFine? && k < |s.notes| && NotesTo(u)(s.notes[k])
    ensures Orderly(s.(notes := Without(s.notes, k), users := s.users[u := Idle]))
  {
    hide TrailOf;
    OnlyFineArrives(s, u, k);
    var t := s.(notes := Without(s.notes, k), users := s.users[u := Idle]);
    forall w: nat | w < |s.users|
      ensures (Straight(t, w) ==> Fits(t.users[w], TrailOf(t, w), t.evening)) && PartnerOk(t, w)
    {
      NoteReadTrail(s, u, Idle, k, w);
      assert PartnerOk(s, w) && (Straight(s, w) ==> Fits(s.users[w], TrailOf(s, w), s.evening));
    }
    forall p: nat ensures TokensOk(t, p) {
      assert TokensOk(s, p);
      TokensDrop(s, u, k, Idle, p);
    }
    forall j | 0 <= j < |t.notes| ensures t.notes[j].user != u || t.notes[j].Call? {
      NoNote(t, j);
      assert Fits(t.users[u], TrailOf(t, u), t.evening);
    }
    NotesKept(s, t, u);
    assert Known(t);
    hide Without;
  }

  /** A user that is astray may read anything where it expects a call or a "fine". */
  lemma ReadAwayKeeps(s: Day, u: nat, k: nat, pc: UserPc)
    requires Orderly(s) && u < |s.users| && !Straight(s, u) && k < |s.notes| && NotesTo(u)(s.notes[k])
    requires (s.users[u].WantCall? || s.users[u].WantFine?) && (pc.Idle? || pc.Lost?)
    ensures Orderly(s.(notes := Without(s.notes, k), users := s.users[u := pc]))
  {
    hide TrailOf;
    var t := s.(notes := Without(s.notes, k), users := s.users[u := pc]);
    forall w: nat | w < |s.users|
      ensures (Straight(t, w) ==> Fits(t.users[w], TrailOf(t, w), t.evening)) && PartnerOk(t, w)
    {
      NoteReadTrail(s, u, pc, k, w);
      assert PartnerOk(s, w) && (Straight(s, w) ==> Fits(s.users[w], TrailOf(s, w), s.evening));
    }
    forall p: nat ensures TokensOk(t, p) {
      assert TokensOk(s, p);
      TokensDrop(s, u, k, pc, p);
    }
    NotesKept(s, t, u);
    assert Known(t);
    hide Without;
  }

  lemma UserKeeps(s: Day, u: nat, v: Service)
    requires Orderly(s) && u < |s.users|
    ensures Orderly(UserGo(s, u, v))
  {
    hide Orderly;
    match s.users[u]
    case Idle => AskKeeps(s, u, v);
    case Retry(w) => AskKeeps(s, u, w);
    case WantReply(w) =>
      var k := Find(RepliesTo(u), s.letters);
      if k < |s.letters| { ReadReplyKeeps(s, u, w, k); }
    case WantCall =>
      var k := Find(NotesTo(u), s.notes);
      if k < |s.notes| {
        if Straight(s, u) { OnlyCallsArrive(s, u, k); }
        if s.notes[k].Call? { ReadCallKeeps(s, u, k, s.notes[k].op); } else { ReadAwayKeeps(s, u, k, Lost); }
      }
    case Acking(o) => AckKeeps(s, u, o);
    case WantFine(_) =>
      var k := Find(NotesTo(u), s.notes);
      if k < |s.notes| {
        if Straight(s, u) { ReadFineKeeps(s, u, k); } else { ReadAwayKeeps(s, u, k, Idle); }
      }
    case Lost =>
  }

  /** A step that leaves users, operators, sessions and trails alone. */
  lemma TrailsKept(s: Day, t: Day)
    requires Orderly(s) && Known(t) && t.users == s.users && t.opers == s.opers && t.notes == s.notes
    requires t.evening == s.evening && t.astray == s.astray
    requires forall w: nat :: w < |s.users| ==>
               && TrailOf(t, w).fines == TrailOf(s, w).fines
               && (Straight(t, w) ==> Fits(t.users[w], TrailOf(t, w), t.evening))
    ensures Orderly(t)
  {
    hide TrailOf, Fits;
    forall w: nat | w < |s.users| ensures PartnerOk(t, w) {
      assert PartnerOk(s, w);
    }
    forall j | 0 <= j < |t.notes| ensures NoteOk(t, t.notes[j]) {
      assert NoteOk(s, s.notes[j]);
    }
    forall o: nat ensures TokensOk(t, o) {
      assert TokensOk(s, o);
    }
  }

  lemma TakeAskKeeps(s: Day, k: nat)
    requires Orderly(s) && s.clerk.Receiving? && k < |s.letters| && s.letters[k].Ask?
    ensures Orderly(s.(letters := Without(s.letters, k), clerk := Got(s.letters[k])))
  {
    var t := s.(letters := Without(s.letters, k), clerk := Got(s.letters[k]));
    forall w: nat | w < |s.users| ensures TrailOf(t, w) == TrailOf(s, w) {
      LetterTaken(s.letters, k, w);
      hide Count;
    }
    hide TrailOf;
    TrailsKept(s, t);
  }

  lemma DecideKeeps(s: Day, t: Day)
    requires Orderly(s) && s.clerk.Got? && s.clerk.ask.Ask? && Decided(s, t)
    ensures Orderly(t)
  {
    hide TrailOf;
    forall w: nat | w < |s.users|
      ensures TrailOf(t, w).fines == TrailOf(s, w).fines
      ensures Straight(t, w) ==> Fits(t.users[w], TrailOf(t, w), t.evening)
    {
      DecideTrail(s, t, w);
      assert Straight(s, w) ==> Fits(s.users[w], TrailOf(s, w), s.evening);
    }
    assert Known(t);
    hide Fits, Known, Decided;
    TrailsKept(s, t);
  }

  lemma AnswerKeeps(s: Day, u: nat, a: Answer)
    requires Orderly(s) && s.clerk == Replying(u, a)
    ensures Orderly(s.(letters := s.letters + [Reply(u, a)], clerk := Receiving))
  {
    var t := s.(letters := s.letters + [Reply(u, a)], clerk := Receiving);
    forall w: nat | w < |s.users| ensures TrailOf(t, w) == TrailOf(s, w) {
      LetterSent(s.letters, Reply(u, a), w);
      hide Count;
    }
    hide TrailOf;
    TrailsKept(s, t);
  }

  lemma ClerkKeeps(s: Day)
    requires Orderly(s)
    ensures Orderly(ClerkGo(s))
  {
    hide Orderly;
    match s.clerk
    case Receiving =>
      var k := NextAsk(s.letters, 1);
      if k < |s.letters| { TakeAskKeeps(s, k); }
    case Got(m) => if m.Ask? { DecideKeeps(s, ClerkGo(s)); }
    case Replying(u, a) => AnswerKeeps(s, u, a);
  }

  lemma TakeTicketKeeps(s: Day, i: nat, k: nat)
    requires Orderly(s) && i < |s.opers| && s.opers[i].pc.Free? && k < |s.queue| && s.queue[k].user >= 0
    ensures var o := s.opers[i].(pc := Calling(s.queue[k].user));
            Orderly(s.(queue := Without(s.queue, k), opers := s.opers[i := o]))
  {
    hide TrailOf;
    var u := s.queue[k].user;
    var t := s.(queue := Without(s.queue, k), opers := s.opers[i := s.opers[i].(pc := Calling(u))]);
    forall w: nat | w < |s.users|
      ensures (Straight(t, w) ==> Fits(t.users[w], TrailOf(t, w), t.evening)) && PartnerOk(t, w)
    {
      TicketTakenTrail(s, i, u, k, w);
      assert PartnerOk(s, w) && (Straight(s, w) ==> Fits(s.users[w], TrailOf(s, w), s.evening));
    }
    forall j | 0 <= j < |t.notes| ensures NoteOk(t, t.notes[j]) {
      assert NoteOk(s, s.notes[j]);
    }
    forall o: nat ensures TokensOk(t, o) {
      assert TokensOk(s, o);
    }
    assert Known(t);
    hide Without;
  }

  lemma CallKeeps(s: Day, i: nat, u: nat)
    requires Orderly(s) && i < |s.opers| && s.opers[i].pc == Calling(u)
    ensures Orderly(s.(notes := s.notes + [Call(i, u)], opers := s.opers[i := s.opers[i].(pc := WaitAck(u))]))
  {
    hide TrailOf;
    var t := s.(notes := s.notes + [Call(i, u)], opers := s.opers[i := s.opers[i].(pc := WaitAck(u))]);
    forall w: nat | w < |s.users|
      ensures (Straight(t, w) ==> Fits(t.users[w], TrailOf(t, w), t.evening)) && PartnerOk(t, w)
    {
      CallTrail(s, i, u, w);
      assert PartnerOk(s, w) && (Straight(s, w) ==> Fits(s.users[w], TrailOf(s, w), s.evening));
    }
    forall j | 0 <= j < |t.notes| ensures NoteOk(t, t.notes[j]) {
      if j < |s.notes| { assert NoteOk(s, s.notes[j]); }
    }
    forall o: nat ensures TokensOk(t, o) {
      NoteTokens(s.notes, Call(i, u), o);
      assert TokensOk(s, o);
    }
  }

  /** The acknowledgement an operator reads comes from the user it called. */
  lemma OnlyOwnAckArrives(s: Day, i: nat, u: nat, k: nat)
    requires Orderly(s) && i < |s.opers| && s.opers[i].pc == WaitAck(u) && k < |s.notes| && AcksTo(i)(s.notes[k])
    ensures s.notes[k] == Ack(i, u) && u < |s.users| && (Straight(s, u) ==> s.users[u] == WantFine(i))
  {
    assert NoteOk(s, s.notes[k]);
  }

  lemma TakeAckKeeps(s: Day, i: nat, u: nat, k: nat)
    requires Orderly(s) && i < |s.opers| && s.opers[i].pc == WaitAck(u) && k < |s.notes| && AcksTo(i)(s.notes[k])
    ensures Orderly(s.(notes := Without(s.notes, k), opers := s.opers[i := s.opers[i].(pc := Serving(u))]))
  {
    hide TrailOf;
    OnlyOwnAckArrives(s, i, u, k);
    var t := s.(notes := Without(s.notes, k), opers := s.opers[i := s.opers[i].(pc := Serving(u))]);
    forall o: nat ensures TokensOk(t, o) {
      NoteGone(s.notes, k, o);
      assert TokensOk(s, o);
    }
    assert TokensOk(t, i);
    NoTokens(t, i);
    hide TokensOk, Tokens;
    forall w: nat | w < |s.users|
      ensures (Straight(t, w) ==> Fits(t.users[w], TrailOf(t, w), t.evening)) && PartnerOk(t, w)
    {
      AckReadTrail(s, i, u, k, w);
      assert t.users[w] != Acking(i);
      assert PartnerOk(s, w) && (Straight(s, w) ==> Fits(s.users[w], TrailOf(s, w), s.evening));
    }
    forall j | 0 <= j < |t.notes| ensures NoteOk(t, t.notes[j]) {
      var n := s.notes[if j < k then j else j + 1];
      assert t.notes[j] == n && NoteOk(s, n) && (n.Fine? || n.op != i);
    }
    assert Known(t);
    hide Without;
  }

  /** An operator in service serves the user that waits for its "fine". */
  lemma ServedUserWaits(s: Day, i: nat, u: nat)
    requires Orderly(s) && i < |s.opers| && s.opers[i].pc == Serving(u) && Straight(s, u)
    ensures s.users[u] == WantFine(i)
  {
    assert Fits(s.users[u], TrailOf(s, u), s.evening) && PartnerOk(s, u);
    CountSet(ServersOf(u), s.opers, i, s.opers[i]);
    var o := s.users[u].op;
    if o != i && s.opers[o].pc == Serving(u) {
      CountTwo(ServersOf(u), s.opers, i, o);
    }
    if s.opers[o].pc == WaitAck(u) {
      CountSet(WaitersOf(u), s.opers, o, s.opers[o]);
    }
  }

  lemma FineKeeps(s: Day, i: nat, u: nat)
    requires Orderly(s) && i < |s.opers| && s.opers[i].pc == Serving(u)
    ensures Orderly(s.(notes := s.notes + [Fine(i, u)], opers := s.opers[i := s.opers[i].(pc := Free)]))
  {
    hide TrailOf;
    var t := s.(notes := s.notes + [Fine(i, u)], opers := s.opers[i := s.opers[i].(pc := Free)]);
    if Straight(s, u) { ServedUserWaits(s, i, u); }
    forall w: nat | w < |s.users|
      ensures (Straight(t, w) ==> Fits(t.users[w], TrailOf(t, w), t.evening)) && PartnerOk(t, w)
    {
      FineTrail(s, i, u, w);
      assert PartnerOk(s, w) && (Straight(s, w) ==> Fits(s.users[w], TrailOf(s, w), s.evening));
    }
    forall j | 0 <= j < |t.notes| ensures NoteOk(t, t.notes[j]) {
      if j < |s.notes| { assert NoteOk(s, s.notes[j]); }
    }
    forall o: nat ensures TokensOk(t, o) {
      NoteTokens(s.notes, Fine(i, u), o);
      assert TokensOk(s, o);
    }
  }

  lemma OperKeeps(s: Day, i: nat)
    requires Orderly(s) && i < |s.opers|
    ensures Orderly(OperGo(s, i))
  {
    hide Orderly;
    match s.opers[i].pc
    case Free =>
      var k := FirstOf(s.queue, s.opers[i].service);
      if k < |s.queue| && s.queue[k].user >= 0 { TakeTicketKeeps(s, i, k); }
    case Calling(u) => CallKeeps(s, i, u);
    case WaitAck(u) =>
      var k := Find(AcksTo(i), s.notes);
      if k < |s.notes| { TakeAckKeeps(s, i, u, k); }
    case Serving(u) => FineKeeps(s, i, u);
  }

  lemma MorningOrderly(users: nat, services: seq<Service>, enabled: set<int>, cap: nat, nextId: nat)
    ensures Orderly(Morning(users, services, enabled, cap, nextId))
  {
    var s := Morning(users, services, enabled, cap, nextId);
    forall u: nat ensures TrailOf(s, u) == NOTHING {
      CountNone(CallersOf(u), s.opers);
      CountNone(WaitersOf(u), s.opers);
      CountNone(ServersOf(u), s.opers);
    }
    forall o: nat ensures Tokens(s, o) == 0 {
      CountNone(AckersTo(o), s.users);
    }
    hide TrailOf, Tokens;
  }

  lemma DoKeeps(s: Day, m: Move)
    requires Orderly(s)
    ensures Orderly(Do(s, m))
  {
    hide Orderly, UserGo, ClerkGo, OperGo;
    match m
    case ByUser(u, v) => if u < |s.users| { UserKeeps(s, u, v); }
    case ByClerk => ClerkKeeps(s);
    case ByOper(i) => if i < |s.opers| { OperKeeps(s, i); }
  }

  /** Nobody comes or goes, and what is on offer stays. */
  predicate SameDay(s: Day, t: Day) {
    && |t.users| == |s.users| && |t.opers| == |s.opers| && t.evening == s.evening
    && t.enabled == s.enabled && t.cap == s.cap
  }

  lemma DoSameDay(s: Day, m: Move)
    ensures SameDay(s, Do(s, m))
  {
    hide Find, NextAsk, FirstOf, Without;
  }

  lemma {:induction false} PlayKeeps(s: Day, ms: seq<Move>)
    requires Orderly(s)
    ensures Orderly(Play(s, ms)) && SameDay(s, Play(s, ms))
  {
    if ms != [] {
      PlayKeeps(s, ms[..|ms|-1]);
      hide Orderly, Do;
      DoKeeps(Play(s, ms[..|ms|-1]), ms[|ms|-1]);
      DoSameDay(Play(s, ms[..|ms|-1]), ms[|ms|-1]);
    }
  }

  // ----- what holds at every moment of a day that starts clean, until its end signal

  /** Every state some interleaving leads to from clean queues. */
  ghost predicate Reachable(s: Day) {
    exists users: nat, services: seq<Service>, enabled: set<int>, cap: nat, nextId: nat, ms: seq<Move> ::
      s == Play(Morning(users, services, enabled, cap, nextId), ms)
  }

  lemma ReachableOrderly(s: Day)
    requires Reachable(s)
    ensures Orderly(s) && !s.evening
  {
    hide Orderly;
    var users: nat, services: seq<Service>, enabled: set<int>, cap: nat, nextId: nat, ms: seq<Move> :|
      s == Play(Morning(users, services, enabled, cap, nextId), ms);
    MorningOrderly(users, services, enabled, cap, nextId);
    PlayKeeps(Morning(users, services, enabled, cap, nextId), ms);
  }

  /** Requests on their way, tickets and sessions of a user. */
  function Claims(s: Day, u: nat): nat {
    var t := TrailOf(s, u); t.asks + t.tickets + t.waits + t.serves
  }

  predicate InSession(o: Oper, u: nat) { o.pc == Calling(u) || o.pc == WaitAck(u) || o.pc == Serving(u) }

  /** In an orderly day a user that is not astray has at most one request, live ticket or session. */
  lemma OrderlyClaims(s: Day, u: nat)
    requires Orderly(s) && Straight(s, u)
    ensures Claims(s, u) <= 1
  {
    assert Fits(s.users[u], TrailOf(s, u), s.evening);
    hide TrailOf;
  }

  lemma SessionCounts(q: seq<Oper>, i: nat, u: nat)
    requires i < |q|
    ensures q[i].pc == Calling(u) ==> Count(CallersOf(u), q) >= 1
    ensures q[i].pc == WaitAck(u) ==> Count(WaitersOf(u), q) >= 1
    ensures q[i].pc == Serving(u) ==> Count(ServersOf(u), q) >= 1
  {
    OperMoved(q, i, Free, u);
  }

  /** And no two operators are in session with it. */
  lemma OrderlySessions(s: Day, i: nat, j: nat, u: nat)
    requires Orderly(s) && Straight(s, u) && i < |s.opers| && j < |s.opers| && i != j && InSession(s.opers[i], u)
    ensures !InSession(s.opers[j], u)
  {
    assert Fits(s.users[u], TrailOf(s, u), s.evening);
    SessionCounts(s.opers, i, u);
    SessionCounts(s.opers, j, u);
    if s.opers[i].pc == s.opers[j].pc {
      if s.opers[i].pc == Calling(u) {
        CountTwo(CallersOf(u), s.opers, i, j);
      } else if s.opers[i].pc == WaitAck(u) {
        CountTwo(WaitersOf(u), s.opers, i, j);
      } else {
        CountTwo(ServersOf(u), s.opers, i, j);
      }
    }
    hide Count;
  }

  predicate Admitted(s: Day) {
    |s.queue| <= s.cap && forall k :: 0 <= k < |s.queue| ==> s.queue[k].service in s.enabled
  }

  lemma DoAdmits(s: Day, m: Move)
    requires Admitted(s)
    ensures Admitted(Do(s, m))
  {
    hide Find, NextAsk;
  }

  lemma {:induction false} PlayAdmits(s: Day, ms: seq<Move>)
    requires Admitted(s)
    ensures Admitted(Play(s, ms))
  {
    if ms != [] {
      PlayAdmits(s, ms[..|ms|-1]);
      hide Admitted, Do;
      DoAdmits(Play(s, ms[..|ms|-1]), ms[|ms|-1]);
    }
  }

  /** Tickets are issued for enabled services only, and never more than fit. */
  lemma OnlyEnabledAreQueued(s: Day, k: nat)
    requires Reachable(s) && k < |s.queue|
    ensures s.queue[k].service in s.enabled && |s.queue| <= s.cap
  {
    var users: nat, services: seq<Service>, enabled: set<int>, cap: nat, nextId: nat, ms: seq<Move> :|
      s == Play(Morning(users, services, enabled, cap, nextId), ms);
    hide Play;
    PlayAdmits(Morning(users, services, enabled, cap, nextId), ms);
  }

  // ----- answers are about the request the user is waiting with

  predicate AnswerFits(s: Day, u: nat, a: Answer) {
    u < |s.users| && s.users[u].WantReply? && (a.Refused? <==> s.users[u].service !in s.enabled)
  }

  predicate LetterOk(s: Day, m: Letter) {
    Straight(s, m.user) ==>
      match m
      case Ask(v, u) => s.users[u] == WantReply(v)
      case Reply(u, a) => AnswerFits(s, u, a)
  }

  predicate Truthful(s: Day) {
    && (forall k :: 0 <= k < |s.letters| ==> LetterOk(s, s.letters[k]))
    && (s.clerk.Got? ==> LetterOk(s, s.clerk.ask))
    && (s.clerk.Replying? && Straight(s, s.clerk.user) ==> AnswerFits(s, s.clerk.user, s.clerk.answer))
  }

  lemma NoLetter(s: Day, k: nat)
    requires k < |s.letters|
    ensures var t := TrailOf(s, s.letters[k].user); t.asks + t.grants + t.denials > 0
  {
    LetterTaken(s.letters, k, s.letters[k].user);
    CountDrop(AsksOf(s.letters[k].user), s.letters, k);
    CountDrop(GrantsTo(s.letters[k].user), s.letters, k);
    CountDrop(DenialsTo(s.letters[k].user), s.letters, k);
    hide Count;
  }

  predicate SilentAbout(s: Day, u: nat) {
    && (forall k :: 0 <= k < |s.letters| ==> s.letters[k].user != u)
    && (s.clerk.Got? ==> s.clerk.ask.user != u)
    && (s.clerk.Replying? ==> s.clerk.user != u)
  }

  /** A user that is not waiting for an answer has no letter about it anywhere. */
  lemma NoLettersAbout(s: Day, u: nat)
    requires Orderly(s) && Straight(s, u) && !s.users[u].WantReply?
    ensures SilentAbout(s, u)
  {
    assert Fits(s.users[u], TrailOf(s, u), s.evening);
    forall k | 0 <= k < |s.letters| ensures s.letters[k].user != u {
      NoLetter(s, k);
    }
  }

  /** A change of a user's program counter concerns only letters about that user. */
  lemma OthersStayTruthful(s: Day, t: Day, u: nat, pc: UserPc)
    requires Truthful(s) && u < |s.users| && t.users == s.users[u := pc] && t.clerk == s.clerk && t.enabled == s.enabled
    requires forall k :: 0 <= k < |t.letters| ==> t.letters[k] in s.letters
    requires s.astray <= t.astray && (Straight(t, u) ==> SilentAbout(t, u))
    ensures Truthful(t)
  {
    forall k | 0 <= k < |t.letters| ensures LetterOk(t, t.letters[k]) {
      assert t.letters[k] in s.letters;
      var j :| 0 <= j < |s.letters| && s.letters[j] == t.letters[k];
      assert LetterOk(s, s.letters[j]);
    }
  }

  lemma AskIsTruthful(s: Day, u: nat, v: Service)
    requires Truthful(s) && u < |s.users| && (Straight(s, u) ==> SilentAbout(s, u))
    ensures Truthful(s.(letters := s.letters + [Ask(v, u)], users := s.users[u := WantReply(v)]))
  {
    OthersStayTruthful(s, s.(users := s.users[u := WantReply(v)]), u, WantReply(v));
  }

  /** Apart from sending its request a user only takes letters away. */
  lemma UserWrites(s: Day, u: nat, v: Service)
    requires u < |s.users|
    ensures var t := UserGo(s, u, v);
            && t.users == s.users[u := t.users[u]] && t.clerk == s.clerk && t.enabled == s.enabled
            && s.astray <= t.astray
            && (t == s || !t.users[u].WantReply? || s.users[u].Idle? || s.users[u].Retry?)
            && (s.users[u].Idle? || s.users[u].Retry? || forall k :: 0 <= k < |t.letters| ==> t.letters[k] in s.letters)
  {
    hide Find;
  }

  lemma UserStaysTruthful(s: Day, u: nat, v: Service)
    requires Truthful(s) && Orderly(s) && u < |s.users|
    ensures Truthful(UserGo(s, u, v))
  {
    var t, pc := UserGo(s, u, v), s.users[u];
    UserKeeps(s, u, v);
    hide Orderly, Truthful, SilentAbout;
    if pc.Idle? || pc.Retry? {
      if Straight(s, u) { NoLettersAbout(s, u); }
      AskIsTruthful(s, u, if pc.Idle? then v else pc.service);
    } else {
      UserWrites(s, u, v);
      hide UserGo;
      if t != s {
        if Straight(t, u) { NoLettersAbout(t, u); }
        OthersStayTruthful(s, t, u, t.users[u]);
      }
    }
  }

  lemma ClerkStaysTruthful(s: Day)
    requires Truthful(s)
    ensures Truthful(ClerkGo(s))
  {
    hide NextAsk;
    match s.clerk
    case Receiving =>
    case Got(m) =>
    case Replying(_, _) =>
  }

  lemma OperStaysTruthful(s: Day, i: nat)
    requires Truthful(s) && i < |s.opers|
    ensures Truthful(OperGo(s, i))
  {
    hide Find, FirstOf, Without;
  }

  lemma {:induction false} PlayIsTruthful(s: Day, ms: seq<Move>)
    requires Truthful(s) && Orderly(s)
    ensures Truthful(Play(s, ms))
  {
    if ms != [] {
      var p, m := Play(s, ms[..|ms|-1]), ms[|ms|-1];
      PlayIsTruthful(s, ms[..|ms|-1]);
      PlayKeeps(s, ms[..|ms|-1]);
      hide Orderly, UserGo, ClerkGo, OperGo, Truthful;
      match m
      case ByUser(u, v) => if u < |p.users| { UserStaysTruthful(p, u, v); }
      case ByClerk => ClerkStaysTruthful(p);
      case ByOper(i) => if i < |p.opers| { OperStaysTruthful(p, i); }
    }
  }

  /** What a user that is not astray does with its answer: it gives the request up exactly when the
      service is not on offer or its ticket has an identifier that reads as -1, asks again exactly
      when the queue was full or the identifier reads as -2, and otherwise waits for the call. */
  lemma AnswerIsUnderstood(s: Day, u: nat, v: Service)
    requires Reachable(s) && Straight(s, u) && s.users[u].WantReply? && UserGo(s, u, v) != s
    ensures var w, k, t := s.users[u].service, Find(RepliesTo(u), s.letters), UserGo(s, u, v);
            && k < |s.letters|
            && var a := s.letters[k].answer;
            && (t.users[u] == Idle <==> w !in s.enabled || (a.Granted? && AsInt(a.id) == -1))
            && (t.users[u] == Retry(w) <==> a.Full? || (a.Granted? && AsInt(a.id) == -2))
            && (t.users[u] == WantCall <==> a.Granted? && Plain(a.id))
            && (Straight(t, u) <==> !Odd(a))
  {
    ReachableTruthful(s);
    hide Reachable, AsInt;
    assert LetterOk(s, s.letters[Find(RepliesTo(u), s.letters)]);
    hide Truthful;
  }

  lemma ReachableTruthful(s: Day)
    requires Reachable(s)
    ensures Truthful(s)
  {
    var users: nat, services: seq<Service>, enabled: set<int>, cap: nat, nextId: nat, ms: seq<Move> :|
      s == Play(Morning(users, services, enabled, cap, nextId), ms);
    hide Play, Orderly;
    MorningOrderly(users, services, enabled, cap, nextId);
    PlayIsTruthful(Morning(users, services, enabled, cap, nextId), ms);
  }

  /** A user gives a request up exactly when the service it asked for is not on offer, asks again
      only for one that is, and waits for a call only for one that is: unless its ticket has an
      identifier that reads as -1. */
  lemma GivesUpOnlyWhenRefused(s: Day, u: nat, v: Service)
    requires Reachable(s) && Straight(s, u) && s.users[u].WantReply? && UserGo(s, u, v) != s
    ensures var w := s.users[u].service; var t := UserGo(s, u, v);
            var k := Find(RepliesTo(u), s.letters);
            && k < |s.letters|
            && (t.users[u] != Idle ==> w in s.enabled && (t.users[u] == Retry(w) || t.users[u] == WantCall))
            && ((t.users[u] == Idle <==> w !in s.enabled)
                <==> !(s.letters[k].answer.Granted? && AsInt(s.letters[k].answer.id) == -1))
  {
    AnswerIsUnderstood(s, u, v);
    ReachableTruthful(s);
    hide Reachable, AsInt;
    assert LetterOk(s, s.letters[Find(RepliesTo(u), s.letters)]);
    hide Truthful;
  }

  // ----- identifiers that lead astray

  predicate Tame(a: Answer, lo: nat, hi: nat) { a.Granted? ==> Plain(a.id) || lo <= a.id < hi }

  /** The answers to u still to be read have plain identifiers, or such as were issued from lo on. */
  predicate TameAnswers(s: Day, u: nat, lo: nat) {
    && lo <= s.nextId
    && (forall k :: 0 <= k < |s.letters| && RepliesTo(u)(s.letters[k]) ==> Tame(s.letters[k].answer, lo, s.nextId))
    && (s.clerk.Replying? && s.clerk.user == u ==> Tame(s.clerk.answer, lo, s.nextId))
  }

  /** u is astray only if an identifier issued from lo on is not plain. */
  predicate LedBy(s: Day, u: nat, lo: nat) {
    TameAnswers(s, u, lo) && (AllPlain(lo, s.nextId) ==> u !in s.astray)
  }

  lemma UserLed(s: Day, w: nat, v: Service, u: nat, lo: nat)
    requires LedBy(s, u, lo) && w < |s.users|
    ensures LedBy(UserGo(s, w, v), u, lo) && UserGo(s, w, v).nextId == s.nextId
  {
    hide AsInt, Plain;
    var t := UserGo(s, w, v);
    if s.users[w].WantReply? {
      var k := Find(RepliesTo(w), s.letters);
      hide Find;
    }
    hide Find, NotesTo;
  }

  lemma ClerkLed(s: Day, u: nat, lo: nat)
    requires LedBy(s, u, lo)
    ensures LedBy(ClerkGo(s), u, lo) && s.nextId <= ClerkGo(s).nextId
  {
    hide AsInt, Plain, NextAsk;
  }

  lemma DoLed(s: Day, m: Move, u: nat, lo: nat)
    requires LedBy(s, u, lo)
    ensures LedBy(Do(s, m), u, lo) && s.nextId <= Do(s, m).nextId
  {
    hide LedBy, UserGo, ClerkGo;
    match m
    case ByUser(w, v) => if w < |s.users| { UserLed(s, w, v, u, lo); }
    case ByClerk => ClerkLed(s, u, lo);
    case ByOper(i) => if i < |s.opers| { OperLed(s, i, u, lo); }
  }

  lemma OperLed(s: Day, i: nat, u: nat, lo: nat)
    requires LedBy(s, u, lo) && i < |s.opers|
    ensures LedBy(OperGo(s, i), u, lo) && OperGo(s, i).nextId == s.nextId
  {
    hide AsInt, Plain, FirstOf, Find, Without;
  }

  lemma {:induction false} PlayLed(s: Day, ms: seq<Move>, u: nat, lo: nat)
    requires LedBy(s, u, lo)
    ensures LedBy(Play(s, ms), u, lo) && s.nextId <= Play(s, ms).nextId
  {
    if ms != [] {
      PlayLed(s, ms[..|ms|-1], u, lo);
      hide LedBy, Do;
      DoLed(Play(s, ms[..|ms|-1]), ms[|ms|-1], u, lo);
    }
  }

  // ----- an interrupted wait for the answer

  /** The signal fails a msgrcv that is waiting for the answer; the failure value is -2, which
      is also the answer of a full queue, so the request is sent again.  The user is astray unless
      nothing of the first request is left. */
  function Interrupt(s: Day, u: nat): Day
    requires u < |s.users|
  {
    if s.users[u].WantReply? && Find(RepliesTo(u), s.letters) == |s.letters| then
      s.(users := s.users[u := Retry(s.users[u].service)],
         astray := if TrailOf(s, u) == NOTHING then s.astray else s.astray + {u})
    else s
  }

  /** A ticket that u is going to read as another answer. */
  predicate OddPending(s: Day, u: nat) {
    || (exists k :: 0 <= k < |s.letters| && RepliesTo(u)(s.letters[k]) && Odd(s.letters[k].answer))
    || (s.clerk.Replying? && s.clerk.user == u && Odd(s.clerk.answer))
  }

  /** Whatever happens afterwards, as long as the identifiers issued are plain, a user that is not
      astray keeps to one claim exactly when the signal changes nothing (it is not waiting for an
      answer, or the answer is already in the queue) and its answer is not a ticket that reads as
      another answer. */
  lemma ResendDoublesClaim(s: Day, u: nat)
    requires Reachable(s) && Straight(s, u)
    ensures (forall ms: seq<Move> ::
               AllPlain(s.nextId, Play(Interrupt(s, u), ms).nextId) ==> Claims(Play(Interrupt(s, u), ms), u) <= 1)
            <==> Interrupt(s, u) == s && !OddPending(s, u)
  {
    hide Reachable, Play, Claims, AllPlain, Orderly, Find;
    ReachableOrderly(s);
    if Interrupt(s, u) != s {
      var ms := TwoClaimsFollow(s, u);
      NoneIssued(s.nextId);
      assert Claims(Play(Interrupt(s, u), ms), u) >= 2;
    } else if OddPending(s, u) {
      var ms := OddAnswerDoubles(s, u);
      NoneIssued(s.nextId);
      assert Claims(Play(s, ms), u) >= 2;
    } else {
      ThenLed(s, u);
      forall ms: seq<Move> | AllPlain(s.nextId, Play(s, ms).nextId) ensures Claims(Play(s, ms), u) <= 1 {
        PlayKeeps(s, ms);
        PlayLed(s, ms, u, s.nextId);
        OrderlyClaims(Play(s, ms), u);
      }
    }
  }

  lemma NoneIssued(n: nat)
    ensures AllPlain(n, n)
  {
  }

  lemma ThenLed(s: Day, u: nat)
    requires Straight(s, u) && !OddPending(s, u)
    ensures LedBy(s, u, s.nextId)
  {
    hide Plain;
  }

  /** The moves that lead to the second claim: the resend alone when the first request or its
      ticket still exists, otherwise also the answer to the first request and the next one. */
  lemma TwoClaimsFollow(s: Day, u: nat) returns (ms: seq<Move>)
    requires Orderly(s) && !s.evening && Straight(s, u) && Interrupt(s, u) != s
    ensures Claims(Play(Interrupt(s, u), ms), u) >= 2 && Play(Interrupt(s, u), ms).nextId == s.nextId
  {
    var v := s.users[u].service;
    var i, m := Interrupt(s, u), ByUser(u, v);
    var r := UserGo(i, u, v);
    assert Fits(s.users[u], TrailOf(s, u), s.evening);
    NoReplyWaiting(s, u);
    assert TrailOf(i, u) == TrailOf(s, u);
    AskTrail(i, u, v, u);
    hide Fits, Count, Find;
    if TrailOf(s, u).denials == 0 {
      ms := [m];
      PlayOne(i, m);
    } else {
      ms := [m, ByClerk, m, m];
      PlayFour(i, m, ByClerk, m, m);
      DenialThenAsk(i, u, v);
    }
  }

  /** A user reads a ticket as another answer and sends its next request. */
  lemma OddAnswerDoubles(s: Day, u: nat) returns (ms: seq<Move>)
    requires Orderly(s) && !s.evening && Straight(s, u) && Interrupt(s, u) == s && OddPending(s, u)
    ensures Claims(Play(s, ms), u) >= 2 && Play(s, ms).nextId == s.nextId
  {
    var k := Find(RepliesTo(u), s.letters);
    assert Fits(s.users[u], TrailOf(s, u), s.evening);
    OddMeansGrant(s, u);
    OneReply(s, u, k);
    var m := ByUser(u, 1);
    ms := [m, m];
    PlayOne(s, m);
    assert [m, m][..1] == [m];
    hide Find, Count, Fits, AsInt;
    var w, a := s.users[u].service, s.letters[k].answer;
    var t := UserGo(s, u, 1);
    assert t == s.(letters := Without(s.letters, k), users := s.users[u := Answered(w, a)], astray := Strays(s, u, a));
    ReplyReadTrail(s, u, Answered(w, a), k, Strays(s, u, a), u);
    AskTrail(t, u, if t.users[u].Retry? then w else 1, u);
    hide TrailOf;
  }

  lemma OddMeansGrant(s: Day, u: nat)
    requires OddPending(s, u)
    ensures TrailOf(s, u).grants >= 1
  {
    forall k | 0 <= k < |s.letters| && RepliesTo(u)(s.letters[k]) && Odd(s.letters[k].answer)
      ensures TrailOf(s, u).grants >= 1
    {
      CountDrop(GrantsTo(u), s.letters, k);
    }
    hide AsInt, Count;
  }

  /** With one grant and no denial, the reply in the queue is the odd one. */
  lemma OneReply(s: Day, u: nat, k: nat)
    requires OddPending(s, u) && TrailOf(s, u).grants == 1 && TrailOf(s, u).denials == 0
    requires k < |s.letters| && RepliesTo(u)(s.letters[k])
    ensures Odd(s.letters[k].answer)
  {
    CountDrop(GrantsTo(u), s.letters, k);
    CountDrop(DenialsTo(u), s.letters, k);
    forall j | 0 <= j < |s.letters| && RepliesTo(u)(s.letters[j]) ensures j == k {
      CountDrop(GrantsTo(u), s.letters, j);
      CountDrop(DenialsTo(u), s.letters, j);
      if j != k { CountTwo(GrantsTo(u), s.letters, j, k); }
    }
    hide AsInt, Count;
  }

  lemma PlayOne(s: Day, a: Move)
    ensures Play(s, [a]) == Do(s, a)
  {
    assert [a][..0] == [];
  }

  lemma PlayFour(s: Day, a: Move, b: Move, c: Move, d: Move)
    ensures Play(s, [a, b, c, d]) == Do(Do(Do(Do(s, a), b), c), d)
  {
    hide Do;
    PlayOne(s, a);
    assert [a, b][..1] == [a] && [a, b, c][..2] == [a, b] && [a, b, c, d][..3] == [a, b, c];
    assert Play(s, [a, b]) == Do(Do(s, a), b);
    assert Play(s, [a, b, c]) == Do(Do(Do(s, a), b), c);
  }

  /** The first request is being turned down: the user sends the second one, reads the answer to
      the first and asks again, while the second request is still under way. */
  lemma DenialThenAsk(s: Day, u: nat, v: Service)
    requires u < |s.users| && s.users[u] == Retry(v) && s.clerk.Replying? && s.clerk.user == u
    requires !Answered(v, s.clerk.answer).WantCall? && Find(RepliesTo(u), s.letters) == |s.letters|
    ensures UserGo(UserGo(ClerkGo(UserGo(s, u, v)), u, v), u, v).nextId == s.nextId
    ensures Claims(UserGo(UserGo(ClerkGo(UserGo(s, u, v)), u, v), u, v), u) >= 2
  {
    var a, k := s.clerk.answer, Ask(v, u);
    var s1 := s.(letters := s.letters + [k], users := s.users[u := WantReply(v)]);
    var s2 := s1.(letters := s1.letters + [Reply(u, a)], clerk := Receiving);
    assert ClerkGo(s1) == s2;
    FoundLast(RepliesTo(u), s1.letters, Reply(u, a));
    var s3 := UserGo(s2, u, v);
    assert Without(s2.letters, |s1.letters|) == s1.letters;
    assert s3 == s2.(letters := s1.letters, users := s2.users[u := Answered(v, a)], astray := Strays(s2, u, a));
    hide Find, AsInt;
    AskTrail(s3, u, v, u);
    LetterSent(s.letters, k, u);
    hide Count;
  }

  lemma {:induction false} FoundLast<T>(f: T -> bool, q: seq<T>, x: T)
    requires (forall k :: 0 <= k < |q| ==> !f(q[k])) && f(x)
    ensures Find(f, q + [x]) == |q|
  {
    if q != [] {
      assert (q + [x])[1..] == q[1..] + [x];
      FoundLast(f, q[1..], x);
    }
  }

  lemma NoReplyWaiting(s: Day, u: nat)
    requires Find(RepliesTo(u), s.letters) == |s.letters|
    ensures Count(GrantsTo(u), s.letters) == 0 && Count(DenialsTo(u), s.letters) == 0
  {
    assert forall k :: 0 <= k < |s.letters| ==> !RepliesTo(u)(s.letters[k]);
    CountNone(GrantsTo(u), s.letters);
    CountNone(DenialsTo(u), s.letters);
  }
}
