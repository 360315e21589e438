/** The users' barrier at the start of a day: simSem[1] counts the users that have not started since it
    was reset, so the gate opens only after all of them have. */
module Starters {
  import opened Office
  import opened Processes
  import opened Tallies
  import opened Frames
  import opened Barrier
  import opened Core
  import opened Director
  import opened Invariant

  /** Past the director's wait for the users. */
  predicate Waited(pc: DirPc) { pc.DOpen? || PhaseOf(pc) == Opened }

  predicate StartersOk(s: State) {
    && s.sh.sim.s1 + s.sh.trace.passed == s.sh.users
    && (Waited(s.dir.pc) ==> s.sh.sim.s1 == 0)
  }

  // ----- steps

  /** Every reset makes the semaphore the number of users again, and new users raise it. */
  lemma ResetCountsUsers(s: State, arr: seq<int>, newUsers: nat)
    ensures var t := Apply(s, StepDir(arr, newUsers));
            && (s.dir.pc.DReset1? ==> t.sh.sim.s1 == t.sh.users == s.sh.users)
            && (s.dir.pc.DUsers? ==> t.sh.users == s.sh.users + newUsers && t.sh.sim.s1 == s.sh.sim.s1 + newUsers)
            && (!s.dir.pc.DReset1? && !s.dir.pc.DUsers? ==> t.sh.sim.s1 == s.sh.sim.s1 && t.sh.users == s.sh.users)
  {
  }

  lemma PassedIsReset(s: State, arr: seq<int>, newUsers: nat)
    ensures Apply(s, StepDir(arr, newUsers)).sh.trace.passed == if s.dir.pc.DReset1? then 0 else s.sh.trace.passed
  {
  }

  lemma WaitsForUsers(s: State, arr: seq<int>, newUsers: nat)
    ensures Waited(Apply(s, StepDir(arr, newUsers)).dir.pc) ==>
              Waited(s.dir.pc) || (s.dir.pc.DWait1? && s.sh.sim.s1 == 0)
  {
    if s.dir.pc.DWait1? {
    } else {
      DirStep(s, arr, newUsers);
      hide Apply;
    }
  }

  /** Users wait at no other semaphore, and nobody else at theirs. */
  predicate Elsewhere(s: State, t: State) {
    && t.sh.sim.s1 == s.sh.sim.s1 && t.sh.users == s.sh.users && t.sh.trace.passed == s.sh.trace.passed
    && t.dir.pc == s.dir.pc
  }

  lemma OpElsewhere(s: State, i: nat, a: Act)
    requires CoreOk(s) && i < |s.ops|
    ensures Elsewhere(s, Apply(s, StepOp(i, a)))
  {
    hide OpDo, CoreOk, Apply;
    OpStep(s, i, a);
    OpSync(s.cfg, s.sh, s.ops[i], i + 1, a);
    ReadyToMove(s, i);
    OpData(s.cfg, s.sh, s.ops[i], i + 1, a);
    OpPasses(s.cfg, s.sh, s.ops[i], i + 1, a);
  }

  lemma OpPasses(cfg: Config, sh: Shared, o: Op, pid: nat, a: Act)
    ensures OpDo(cfg, sh, o, pid, a).sh.trace.passed == sh.trace.passed
  {
    hide Reserved, Released, Bump, Provided, Without;
  }

  lemma DispElsewhere(s: State, a: Act, req: Request)
    ensures Elsewhere(s, Apply(s, StepDisp(a, req)))
  {
    hide Closed, Record, DayReset, Bump, DispMorning, DispTake, DispIssue, DispClose, DispFinal;
    WorkElsewhere(s, req);
    NightElsewhere(s);
  }

  lemma WorkElsewhere(s: State, req: Request)
    ensures Elsewhere(s, DispMorning(s)) && Elsewhere(s, DispTake(s, req)) && Elsewhere(s, DispIssue(s))
  {
    hide DayReset, Bump;
  }

  lemma NightElsewhere(s: State)
    ensures Elsewhere(s, DispClose(s)) && Elsewhere(s, DispFinal(s))
  {
    hide Closed, Record;
  }

  lemma StepKeepsStarters(s: State, step: Step)
    requires Inv(s) && StartersOk(s)
    ensures StartersOk(Apply(s, step))
  {
    hide Inv, CoreOk, BarrierOk, OpDo, DispDo, DirDo;
    Parts(s);
    match step
    case StepOp(i, a) => if i < |s.ops| { OpElsewhere(s, i, a); }
    case StepDisp(a, req) => DispElsewhere(s, a, req);
    case StepDir(arr, newUsers) =>
      ResetCountsUsers(s, arr, newUsers);
      PassedIsReset(s, arr, newUsers);
      WaitsForUsers(s, arr, newUsers);
    case StepUser =>
  }

  // ----- runs

  lemma {:induction false} RunStarts(u: Setup, steps: seq<Step>)
    requires ValidSetup(u)
    ensures Inv(Run(Begin(u), steps)) && StartersOk(Run(Begin(u), steps))
  {
    hide Inv, Apply;
    BeginInv(u);
    RunKeepsInv(Begin(u), steps);
    if steps != [] {
      RunStarts(u, steps[..|steps|-1]);
      StepKeepsStarters(Run(Begin(u), steps[..|steps|-1]), steps[|steps|-1]);
    }
  }

  /** In every reachable state the semaphore is the number of users that have not started since its
      last reset; when the director opens the gate, and as long as the day is open, all have. */
  lemma AllUsersStart(s: State)
    requires Reachable(s)
    ensures s.sh.sim.s1 + s.sh.trace.passed == s.sh.users
    ensures s.dir.pc.DOpen? || s.dir.pc.DDay? || s.dir.pc.DSuspend? || s.dir.pc.DWaitStats? ==>
              s.sh.sim.s1 == 0 && s.sh.trace.passed == s.sh.users
  {
    hide Run, Begin, Inv;
    var u, steps :| ValidSetup(u) && s == Run(Begin(u), steps);
    RunStarts(u, steps);
  }

  /** A user starts exactly when the semaphore lets it, and is counted once. */
  lemma UserStarts(s: State)
    ensures var t := Apply(s, StepUser);
            && (s.sh.sim.s1 == 0 ==> t == s)
            && (s.sh.sim.s1 > 0 ==> t.sh.sim.s1 + 1 == s.sh.sim.s1 && t.sh.trace.passed == s.sh.trace.passed + 1)
            && t.sh.users == s.sh.users && t.ops == s.ops && t.disp == s.disp && t.dir == s.dir
  {
  }
}
