/** Who waits for whom among the confirmation UI threads, and why nobody waits forever on them. */
module ConfUiProgress {
  import opened Wrappers
  import opened ConfUiSession
  import opened ConfUiSafety
  import ConfUiRuns
  import R = Runs
  import TSQ = ThreadSafeQueue

  lemma LockOwners(l: Lock)
    ensures l == Free || l == HeldBy(Hal) || l == HeldBy(Worker) || l == HeldBy(Fetcher)
  {
    if l.HeldBy? {
      match l.owner case Hal => case Worker => case Fetcher =>
    }
  }

  /** Thread `a` cannot move until thread `b` does: `b` holds the lock `a` wants, or is the one to
      change the state and notify, to finish, or to push a message. */
  predicate WaitsFor(s: State, a: Thread, b: Thread) {
    match a
    case Hal =>
      || ((s.hal.DeliverLockSession? || s.hal.AbortLockSession?) && s.sessionLock == HeldBy(b))
      || ((s.hal.DeliverLockState? || s.hal.AbortLockState? || s.hal == PromptWait(true)
           || (s.hal.DeliverWait? && s.hal.notified)) && s.stateLock == HeldBy(b))
      || ((s.hal == PromptWait(false) || (s.hal.DeliverWait? && !s.hal.notified)) && b == Worker)
      || ((s.hal.PromptJoinOld? || s.hal.PromptJoinNew?) && s.worker != Done && b == Worker)
    case Worker =>
      || (s.worker.LockSession? && s.sessionLock == HeldBy(b))
      || ((s.worker.LockStart? || s.worker.LockInteractive? || s.worker.LockInput?
           || s.worker.LockEnd?) && s.stateLock == HeldBy(b))
      || (s.worker == PopFirst && s.queue == [] && b == Fetcher)
      || (s.worker == PopInput && s.queue == [] && b != Worker)
    case Fetcher => s.fetcher.FetchLock? && s.sessionLock == HeldBy(b)
  }

  predicate Prompting(h: HalPc) {
    h.PromptTry? || h.PromptSwitch? || h.PromptJoinOld? || h.PromptSpawn? || h.PromptCheck?
    || h.PromptWait? || h.PromptJoinNew?
  }

  /** A height that every wait descends. */
  function Rank(s: State, t: Thread): nat {
    if Prompting(s.hal) then
      match t
      case Hal => if s.hal.PromptWait? || s.hal.PromptJoinOld? || s.hal.PromptJoinNew? then 3 else 0
      case Worker => if s.worker == MakeSession then 0 else if s.worker == PopInput then 4 else 2
      case Fetcher => 1
    else
      match t
      case Hal => 1
      case Worker => if s.worker == PopInput then 3 else if s.stateLock == HeldBy(Hal) then 2 else 0
      case Fetcher => if s.fetcher.FetchHave? then 0 else 2
  }

  lemma HalDescends(s: State, b: Thread)
    requires ControlInv(s) && WaitsFor(s, Hal, b)
    ensures Rank(s, b) < Rank(s, Hal)
  {
  }

  lemma WorkerDescends(s: State, b: Thread)
    requires ControlInv(s) && WaitsFor(s, Worker, b)
    ensures Rank(s, b) < Rank(s, Worker)
  {
  }

  lemma FetcherDescends(s: State, b: Thread)
    requires ControlInv(s) && WaitsFor(s, Fetcher, b)
    ensures Rank(s, b) < Rank(s, Fetcher)
  {
  }

  predicate WaitPath(s: State, path: seq<Thread>) {
    forall i | 0 <= i < |path| - 1 :: WaitsFor(s, path[i], path[i + 1])
  }

  lemma {:induction false} PathDescends(s: State, path: seq<Thread>)
    requires ControlInv(s) && |path| >= 2 && WaitPath(s, path)
    ensures Rank(s, path[|path| - 1]) < Rank(s, path[0])
    decreases |path|
  {
    assert WaitsFor(s, path[0], path[1]);
    match path[0] {
      case Hal => HalDescends(s, path[1]);
      case Worker => WorkerDescends(s, path[1]);
      case Fetcher => FetcherDescends(s, path[1]);
    }
    if |path| > 2 {
      PathDescends(s, path[1..]);
    }
  }

  /** In every state of every run, no chain of waits comes back to where it started. */
  lemma NoCircularWait(acts: seq<Act>, path: seq<Thread>)
    requires After(acts).Some? && After(acts).value.fault == NoFault
    requires |path| >= 2 && WaitPath(After(acts).value, path)
    ensures path[0] != path[|path| - 1]
  {
    EveryRunSound(acts);
    PathDescends(After(acts).value, path);
  }

  // ---------- quiescence ----------

  predicate CanMove(s: State, a: Act) {
    Do(s, a).Some?
  }

  /** When no thread can move on its own, the HAL is idle or in a prompt whose start message the
      host has not answered, and the fetcher is waiting for the host or has lost the link. */
  lemma StuckOnlyOnOutsiders(acts: seq<Act>)
    requires After(acts).Some? && After(acts).value.fault == NoFault
    requires forall a | a == HalRuns || a == WorkerRuns || a == FetcherRuns :: !CanMove(After(acts).value, a)
    ensures var s := After(acts).value;
            && (s.fetcher == Receive || s.fetcher == Stopped)
            && (|| (s.hal == Idle
                    && (s.worker == NoThread || s.worker == Done || (s.worker == PopInput && s.queue == [])))
                || (s.hal.PromptWait? && s.worker == PopFirst && s.queue == []))
  {
    EveryRunSound(acts);
    var s := After(acts).value;
    assert !CanMove(s, HalRuns) && !CanMove(s, WorkerRuns) && !CanMove(s, FetcherRuns);
    assert s.worker == NoThread || s.sessions != [];
    NobodyMoves(s);
  }

  lemma NobodyMoves(s: State)
    requires ControlInv(s) && s.fault == NoFault && HalStep(s) == None && FetcherStep(s) == None
    requires s.worker == NoThread || (s.sessions != [] && WorkerStep(s) == None)
    ensures s.fetcher == Receive || s.fetcher == Stopped
    ensures || (s.hal == Idle
                && (s.worker == NoThread || s.worker == Done || (s.worker == PopInput && s.queue == [])))
            || (s.hal.PromptWait? && s.worker == PopFirst && s.queue == [])
  {
    LockOwners(s.stateLock);
    LockOwners(s.sessionLock);
    NoFetcherStep(s);
    NoWorkerStep(s);
    NoHalStep(s);
  }

  lemma NoFetcherStep(s: State)
    requires s.fault == NoFault && FetcherStep(s) == None
    ensures s.fetcher == Receive || s.fetcher == Stopped || (s.fetcher.FetchLock? && s.sessionLock != Free)
  {
  }

  lemma NoWorkerStep(s: State)
    requires ControlInv(s) && (s.worker == NoThread || (s.sessions != [] && WorkerStep(s) == None))
    ensures || s.worker == NoThread || s.worker == Done
            || (s.queue == [] && (s.worker == PopInput || s.worker == PopFirst))
            || (s.worker == LockSession && s.sessionLock != Free)
            || ((s.worker.LockStart? || s.worker.LockInteractive? || s.worker.LockInput? || s.worker.LockEnd?)
                && s.stateLock == HeldBy(Hal))
  {
    LockOwners(s.stateLock);
  }

  lemma NoHalStep(s: State)
    requires HalStep(s) == None
    ensures || s.hal == Idle || s.hal == PromptWait(false) || (s.hal.DeliverWait? && !s.hal.notified)
            || ((s.hal.PromptJoinOld? || s.hal.PromptJoinNew?) && s.worker != Done)
            || ((s.hal == PromptWait(true) || (s.hal.DeliverWait? && s.hal.notified) || s.hal.DeliverLockState?
                 || s.hal.AbortLockState?) && s.stateLock != Free)
            || ((s.hal.DeliverLockSession? || s.hal.AbortLockSession?) && s.sessionLock != Free)
  {
  }

  // ---------- a fetched message can always be pushed ----------

  predicate InGrace(w: WorkerPc) {
    w.NotifySetup? || w.LockInteractive? || w.SetInteractive? || w.NotifyInteractive?
  }

  /** Which thread to run so that the HAL lets go of the session lock. */
  function Choice(s: State): Act {
    if WorkerHoldsState(s.worker) || (InGrace(s.worker) && !HalHoldsState(s.hal))
    then WorkerRuns else HalRuns
  }

  function WorkerLeft(w: WorkerPc): nat {
    match w
    case NotifySetup => 8
    case LockInteractive => 7
    case SetInteractive => 6
    case NotifyInteractive => 5
    case Decide(_) | End(_) => 1
    case _ => 0
  }

  function HalLeft(h: HalPc, grace: bool): nat {
    if grace then (if HalHoldsState(h) then 1 else 0)
    else
      match h
      case DeliverFind(_) | AbortFind => 6
      case DeliverLockState(_) | AbortLockState => 5
      case DeliverWait(_, _) => 4
      case DeliverCheck(_) | AbortBody => 3
      case DeliverNotify | AbortNotify => 2
      case _ => 0
  }

  function Left(s: State): nat {
    10 * WorkerLeft(s.worker) + HalLeft(s.hal, InGrace(s.worker))
  }

  /** What the chosen step leaves alone. */
  predicate Undisturbed(s: State, t: State) {
    && t.fault == NoFault && t.fetcher == s.fetcher && t.current == s.current
    && t.sessions != [] && (t.sessionLock == HeldBy(Hal) || t.sessionLock == Free)
  }

  lemma HalChosen(s: State)
    requires ControlInv(s) && s.fault == NoFault && s.sessionLock == HeldBy(Hal) && s.sessions != []
    requires Choice(s) == HalRuns
    ensures HalStep(s).Some? && Undisturbed(s, HalStep(s).value)
    ensures HalStep(s).value.sessionLock == HeldBy(Hal) ==> Left(HalStep(s).value) < Left(s)
  {
    LockOwners(s.stateLock);
    assert s.stateLock == HeldBy(Hal) || s.stateLock == Free;
    assert HalStep(s) == HalDeliver(s) || HalStep(s) == HalAbort(s);
    assert !(s.hal.DeliverWait? && !s.hal.notified);
  }

  lemma WorkerChosen(s: State)
    requires ControlInv(s) && s.fault == NoFault && s.sessionLock == HeldBy(Hal) && s.sessions != []
    requires Choice(s) == WorkerRuns
    ensures WorkerStep(s).Some? && Undisturbed(s, WorkerStep(s).value)
    ensures Left(WorkerStep(s).value) < Left(s)
  {
    LockOwners(s.stateLock);
  }

  lemma ChosenStep(s: State) returns (t: State)
    requires Inv(s) && s.fault == NoFault && s.sessionLock == HeldBy(Hal) && s.sessions != []
    ensures Do(s, Choice(s)) == Some(t) && Undisturbed(s, t) && Inv(t)
    ensures t.sessionLock == HeldBy(Hal) ==> Left(t) < Left(s)
  {
    if Choice(s) == HalRuns {
      HalChosen(s);
      t := HalStep(s).value;
      HalKeeps(s, t);
    } else {
      WorkerChosen(s);
      t := WorkerStep(s).value;
      WorkerKeeps(s, t);
    }
  }

  lemma {:induction false} HalLetsGo(s: State) returns (acts: seq<Act>)
    requires Inv(s) && s.fault == NoFault && s.sessionLock == HeldBy(Hal) && s.sessions != []
    ensures forall a | a in acts :: a == HalRuns || a == WorkerRuns
    ensures RunFrom(s, acts).Some?
    ensures var t := RunFrom(s, acts).value; Undisturbed(s, t) && Inv(t) && t.sessionLock == Free
    decreases Left(s)
  {
    var t := ChosenStep(s);
    var rest := [];
    if t.sessionLock == HeldBy(Hal) {
      rest := HalLetsGo(t);
    }
    R.Cons(Do, s, Choice(s), rest);
    acts := [Choice(s)] + rest;
  }

  /** With the session lock free, two steps of the fetcher push the message it holds. */
  lemma FetcherPushes(s: State, msg: Msg)
    requires s.fault == NoFault && s.sessionLock == Free && s.fetcher == FetchLock(msg) && |s.queue| <= QUEUE_LIMIT
    requires s.current.Some? && s.current.value.name == msg.sid
    ensures RunFrom(s, [FetcherRuns, FetcherRuns]).Some?
    ensures var t := RunFrom(s, [FetcherRuns, FetcherRuns]).value;
            && t.fault == NoFault && t.current == s.current && t.fetcher == FetchNotify
            && t.queue != [] && t.queue[|t.queue| - 1] == Item(msg, false)
  {
    var t := Do(s, FetcherRuns).value;
    R.Cons(Do, s, FetcherRuns, [FetcherRuns]);
    R.Cons(Do, t, FetcherRuns, []);
    assert [FetcherRuns] + [FetcherRuns] == [FetcherRuns, FetcherRuns];
    assert [FetcherRuns] + [] == [FetcherRuns];
    TSQ.HalfDroppingPush(s.queue, QUEUE_LIMIT, Item(msg, false));
  }

  predicate ByThread(a: Act) {
    a == HalRuns || a == WorkerRuns || a == FetcherRuns
  }

  predicate ByThreads(acts: seq<Act>) {
    forall a | a in acts :: ByThread(a)
  }

  /** From `s` to `t` the message went to the back of the queue of the session that was current. */
  predicate GotIn(s: State, t: State, msg: Msg) {
    && t.fault == NoFault && t.current == s.current && t.fetcher == FetchNotify
    && t.queue != [] && t.queue[|t.queue| - 1] == Item(msg, false)
  }

  lemma SessionLockFreed(s: State) returns (acts: seq<Act>)
    requires Inv(s) && s.fault == NoFault && s.worker != MakeSession && s.fetcher.FetchLock? && s.current.Some?
    ensures forall a | a in acts :: a == HalRuns || a == WorkerRuns
    ensures RunFrom(s, acts).Some?
    ensures var t := RunFrom(s, acts).value;
            && t.fault == NoFault && t.sessionLock == Free && t.fetcher == s.fetcher
            && t.current == s.current && |t.queue| <= QUEUE_LIMIT
  {
    LockOwners(s.sessionLock);
    acts := [];
    if s.sessionLock != Free {
      acts := HalLetsGo(s);
    }
  }

  lemma PushFrom(s: State, msg: Msg) returns (acts: seq<Act>)
    requires Inv(s) && s.fault == NoFault && s.worker != MakeSession && s.fetcher == FetchLock(msg)
    requires s.current.Some? && s.current.value.name == msg.sid
    ensures ByThreads(acts) && RunFrom(s, acts).Some?
    ensures GotIn(s, RunFrom(s, acts).value, msg)
  {
    var release := SessionLockFreed(s);
    FetcherPushes(RunFrom(s, release).value, msg);
    R.Concat(Do, s, release, [FetcherRuns, FetcherRuns]);
    acts := release + [FetcherRuns, FetcherRuns];
  }

  /** The fetcher that has the session lock pushes with its next step. */
  lemma PushFromLock(s: State, msg: Msg)
    requires Inv(s) && s.fault == NoFault && s.fetcher == FetchHave(msg)
    requires s.current.Some? && s.current.value.name == msg.sid
    ensures RunFrom(s, [FetcherRuns]).Some? && GotIn(s, RunFrom(s, [FetcherRuns]).value, msg)
  {
    R.Cons(Do, s, FetcherRuns, []);
    assert [FetcherRuns] + [] == [FetcherRuns];
    TSQ.HalfDroppingPush(s.queue, QUEUE_LIMIT, Item(msg, false));
  }

  predicate Holds(f: FetcherPc, msg: Msg) {
    f == FetchLock(msg) || f == FetchHave(msg)
  }

  /** From every state of every run in which the fetcher holds a message for the current session, the
      threads can get the message into that session's queue by themselves, exactly unless the worker
      is just replacing the session. */
  lemma FetchedMessageCanBePushed(before: seq<Act>, s: State, msg: Msg)
    requires After(before) == Some(s) && s.fault == NoFault
    requires Holds(s.fetcher, msg) && s.current.Some? && s.current.value.name == msg.sid
    ensures (exists acts: seq<Act> ::
               ByThreads(acts) && RunFrom(s, acts).Some? && GotIn(s, RunFrom(s, acts).value, msg))
            <==> s.worker != MakeSession
  {
    EveryRunSound(before);
    if s.worker == MakeSession {
      forall acts: seq<Act> | RunFrom(s, acts).Some?
        ensures !GotIn(s, RunFrom(s, acts).value, msg)
      {
        NeverGetsIn(s, acts);
      }
    } else if s.fetcher == FetchLock(msg) {
      var acts := PushFrom(s, msg);
    } else {
      PushFromLock(s, msg);
      assert ByThreads([FetcherRuns]);
    }
  }

  /** That exception is met: a late message for the first session, while the second one's worker is
      about to replace it. */
  lemma ReplacedWhileHeld() returns (acts: seq<Act>, s: State, msg: Msg)
    ensures After(acts) == Some(s) && s.fault == NoFault
    ensures s.fetcher == FetchLock(msg) && s.current.Some? && s.current.value.name == msg.sid
    ensures s.worker == MakeSession
  {
    msg := Abort(ConfUiRuns.NAME);
    var held;
    acts, held := HeldLate();
    ConfUiRuns.CallRuns(held, false);
    var called := ConfUiRuns.Called(held, false);
    ConfUiRuns.Then(INIT, acts, held, ConfUiRuns.Call(false), called);
    acts := acts + ConfUiRuns.Call(false);
    s := called.(worker := MakeSession, sessionLock := HeldBy(Worker));
    ConfUiRuns.Snoc(INIT, acts, WorkerRuns, called, s);
    acts := acts + [WorkerRuns];
  }

  /** The first session is over, its object is still there, and the fetcher has a message for it. */
  lemma HeldLate() returns (acts: seq<Act>, s: State)
    ensures After(acts) == Some(s) && ConfUiRuns.Rests(s)
    ensures s.fetcher == FetchLock(Abort(ConfUiRuns.NAME)) && s.current == Some(Current(0, ConfUiRuns.NAME))
  {
    var msg, over := Abort(ConfUiRuns.NAME), INIT;
    acts, over := ConfUiRuns.FirstRefused();
    acts, over := ConfUiRuns.SessionEnds(acts, over);
    s := HostSend(over, msg);
    ConfUiRuns.Snoc(INIT, acts, HostSends(msg), over, s);
    acts := acts + [HostSends(msg)];
  }

  /** The worker replaces the current session before anyone else gets the session lock, or has done so. */
  predicate Overtaken(s: State, t: State)
    requires s.current.Some?
  {
    || (t.fault == NoFault && t.worker == MakeSession && t.sessionLock == HeldBy(Worker)
        && t.fetcher == s.fetcher && t.current == s.current)
    || (t.current.Some? && t.current.value.serial > s.current.value.serial)
  }

  lemma OvertakenStays(s: State, t: State, a: Act, u: State)
    requires s.current.Some? && s.fetcher.FetchLock?
    requires Inv(t) && t.fault == NoFault && Overtaken(s, t) && Do(t, a) == Some(u)
    ensures Overtaken(s, u)
  {
    match a
    case HalRuns => HalSpares(t, u);
    case WorkerRuns => WorkerReplaces(t, u);
    case FetcherRuns => FetcherSpares(t, u);
    case _ => EnvironmentData(t, a, u);
  }

  lemma FetcherSpares(t: State, u: State)
    requires FetcherStep(t) == Some(u)
    ensures u.current == t.current && !(t.fetcher.FetchLock? && t.sessionLock == HeldBy(Worker))
  {
  }

  lemma HalSpares(t: State, u: State)
    requires ControlInv(t) && t.fault == NoFault && HalStep(t) == Some(u)
    ensures u.current == t.current && u.fetcher == t.fetcher
    ensures t.worker == MakeSession ==> u.worker == MakeSession && u.sessionLock == t.sessionLock && u.fault == NoFault
  {
    if t.worker == MakeSession {
      assert HalStep(t) == HalAwaitSetup(t);
    }
  }

  lemma WorkerReplaces(t: State, u: State)
    requires t.sessions != [] && ObjectOk(t.current, t.worker, t.sessions) && ListenerOk(t.listener, t.worker)
    requires WorkerStep(t) == Some(u)
    ensures t.worker == MakeSession ==> u.current.Some? && u.current.value.serial == |t.sessions| - 1
    ensures t.worker != MakeSession ==> u.current == t.current
  {
  }

  lemma {:induction false} NeverGetsIn(s: State, acts: seq<Act>)
    requires Inv(s) && s.fault == NoFault && s.worker == MakeSession && s.fetcher.FetchLock? && s.current.Some?
    requires RunFrom(s, acts).Some?
    ensures Sound(RunFrom(s, acts).value)
    ensures Overtaken(s, RunFrom(s, acts).value)
    decreases |acts|
  {
    if acts != [] {
      var before, a := acts[..|acts| - 1], acts[|acts| - 1];
      NeverGetsIn(s, before);
      DoKeeps(RunFrom(s, before).value, a, RunFrom(s, acts).value);
      OvertakenStays(s, RunFrom(s, before).value, a, RunFrom(s, acts).value);
    }
  }

  // ---------- the threads alone come to rest ----------

  function HalHeight(h: HalPc): nat {
    match h
    case Idle => 0
    case PromptTry(_, _) => 8
    case PromptSwitch(_, _) => 7
    case PromptJoinOld(_, _) => 6
    case PromptSpawn(_, _) => 5
    case PromptWait(notified) => if notified then 4 else 2
    case PromptCheck => 3
    case PromptJoinNew => 1
    case DeliverLockSession(_) | AbortLockSession => 9
    case DeliverFind(_) | AbortFind => 8
    case DeliverLockState(_) | AbortLockState => 7
    case DeliverWait(_, notified) => if notified then 6 else 4
    case DeliverCheck(_) | AbortBody => 5
    case DeliverNotify | AbortNotify => 1
  }

  function WorkerHeight(w: WorkerPc): nat {
    match w
    case NoThread => 0
    case Done => 1
    case Callback(_) | NotifyEnd => 2
    case End(_) => 3
    case LockEnd(_) => 4
    case Decide(_) => 5
    case LockInput(_) => 6
    case PopInput => 7
    case NotifyInteractive => 8
    case SetInteractive => 9
    case LockInteractive => 10
    case NotifySetup => 11
    case PopFirst => 12
    case Start => 13
    case LockStart => 14
    case MakeSession => 15
    case LockSession => 16
  }

  function FetcherHeight(f: FetcherPc): nat {
    match f
    case FetchLock(_) => 3
    case FetchHave(_) => 2
    case FetchNotify => 1
    case Receive | Stopped => 0
  }

  predicate BeforeSpawn(h: HalPc) {
    h.PromptTry? || h.PromptSwitch? || h.PromptJoinOld? || h.PromptSpawn?
  }

  /** What the threads can still do by themselves: a new worker weighs most, then the worker's steps,
      then the fetcher's, then the HAL's. */
  function Energy(s: State): nat {
    if s.fault != NoFault then 0
    else
      1 + 680 * (if BeforeSpawn(s.hal) then 1 else 0) + 40 * WorkerHeight(s.worker)
      + 10 * FetcherHeight(s.fetcher) + HalHeight(s.hal)
  }

  lemma HalSpends(s: State, t: State)
    requires ControlInv(s) && s.fault == NoFault && HalStep(s) == Some(t)
    ensures Energy(t) < Energy(s)
  {
  }

  lemma WorkerSpends(s: State, t: State)
    requires ControlInv(s) && s.fault == NoFault && s.sessions != [] && WorkerStep(s) == Some(t)
    ensures Energy(t) < Energy(s)
  {
    WorkerGoesDown(s, t);
  }

  lemma WorkerGoesDown(s: State, t: State)
    requires s.sessions != [] && s.fault == NoFault && WorkerStep(s) == Some(t)
    ensures t.fault == NoFault ==> WorkerHeight(t.worker) < WorkerHeight(s.worker)
    ensures (t.hal == s.hal || t.hal == Notified(s.hal)) && t.fetcher == s.fetcher
  {
    if WorkerOpening(s) == Some(t) {
      OpeningGoesDown(s, t);
    } else if WorkerStart(s) == Some(t) {
      StartGoesDown(s, t);
    } else if WorkerGrace(s) == Some(t) {
      GraceGoesDown(s, t);
    } else if WorkerInput(s) == Some(t) {
      InputGoesDown(s, t);
    } else {
      ClosingGoesDown(s, t);
    }
  }

  lemma OpeningGoesDown(s: State, t: State)
    requires s.sessions != [] && WorkerOpening(s) == Some(t)
    ensures t.fault == NoFault ==> WorkerHeight(t.worker) < WorkerHeight(s.worker)
    ensures t.hal == s.hal && t.fetcher == s.fetcher
  {
  }

  lemma StartGoesDown(s: State, t: State)
    requires s.sessions != [] && WorkerStart(s) == Some(t)
    ensures t.fault == NoFault ==> WorkerHeight(t.worker) < WorkerHeight(s.worker)
    ensures t.hal == s.hal && t.fetcher == s.fetcher
  {
  }

  lemma GraceGoesDown(s: State, t: State)
    requires s.sessions != [] && WorkerGrace(s) == Some(t)
    ensures WorkerHeight(t.worker) < WorkerHeight(s.worker)
    ensures (t.hal == s.hal || t.hal == Notified(s.hal)) && t.fetcher == s.fetcher
  {
  }

  lemma InputGoesDown(s: State, t: State)
    requires s.sessions != [] && WorkerInput(s) == Some(t)
    ensures WorkerHeight(t.worker) < WorkerHeight(s.worker)
    ensures t.hal == s.hal && t.fetcher == s.fetcher
  {
  }

  lemma ClosingGoesDown(s: State, t: State)
    requires s.sessions != [] && WorkerClosing(s) == Some(t)
    ensures WorkerHeight(t.worker) < WorkerHeight(s.worker)
    ensures (t.hal == s.hal || t.hal == Notified(s.hal)) && t.fetcher == s.fetcher
  {
  }

  lemma FetcherSpends(s: State, t: State)
    requires s.fault == NoFault && FetcherStep(s) == Some(t)
    ensures Energy(t) < Energy(s)
  {
  }

  lemma StepSpends(s: State, a: Act)
    ensures R.Spends(Do, Sound, Energy, ByThread, s, a)
  {
    if Sound(s) && ByThread(a) && Do(s, a).Some? {
      var t := Do(s, a).value;
      DoKeeps(s, a, t);
      match a
      case HalRuns => HalSpends(s, t);
      case WorkerRuns => WorkerSpends(s, t);
      case FetcherRuns => FetcherSpends(s, t);
    }
  }

  predicate AtRest(s: State) {
    s.fault == NoFault && !CanMove(s, HalRuns) && !CanMove(s, WorkerRuns) && !CanMove(s, FetcherRuns)
  }

  lemma NothingHeldAtRest(s: State)
    requires Sound(s) && AtRest(s)
    ensures s.fetcher == Receive || s.fetcher == Stopped
  {
    NobodyMoves(s);
  }

  /** In every run, whatever the threads do by themselves ends within 1400 steps, however they are
      scheduled; and when none of them can move any more, the fetcher has disposed of the message it
      held. */
  lemma ThreadsComeToRest(before: seq<Act>, s: State, acts: seq<Act>, t: State)
    requires After(before) == Some(s) && ByThreads(acts) && RunFrom(s, acts) == Some(t)
    ensures |acts| <= Energy(s) <= 1400
    ensures AtRest(t) ==> t.fetcher == Receive || t.fetcher == Stopped
  {
    EveryRunSound(before);
    EnergyBound(s);
    ThreadsRunOut(s, acts, t);
    if AtRest(t) {
      NothingHeldAtRest(t);
    }
  }

  lemma ThreadsRunOut(s: State, acts: seq<Act>, t: State)
    requires Sound(s) && ByThreads(acts) && RunFrom(s, acts) == Some(t)
    ensures Sound(t) && |acts| + Energy(t) <= Energy(s)
  {
    forall x: State, a: Act
      ensures R.Spends(Do, Sound, Energy, ByThread, x, a)
    {
      StepSpends(x, a);
    }
    R.RunSpends(Do, Sound, Energy, ByThread, s, acts);
  }

  lemma EnergyBound(s: State)
    ensures Energy(s) <= 1400
  {
  }
}
