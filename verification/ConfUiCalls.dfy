/** What the three client calls of the confirmation UI bring about. */
module ConfUiCalls {
  import opened Wrappers
  import opened ConfUiSession
  import opened ConfUiSafety
  import opened ConfUiProgress
  import R = Runs
  import TSQ = ThreadSafeQueue

  lemma AppendedLast(queue: seq<Item>, item: Item)
    requires |queue| <= QUEUE_LIMIT
    ensures var q := PushItem(queue, item); q != [] && q[|q| - 1] == item
    ensures |queue| < QUEUE_LIMIT ==> PushItem(queue, item) == queue + [item]
  {
    TSQ.HalfDroppingPush(queue, QUEUE_LIMIT, item);
  }

  // ---------- abort ----------

  function LocalAbort(s: State): Item {
    Item(Abort(SessionName(s)), true)
  }

  /** In every run, an abort call that finds its session set up or interactive puts an abort for that session
      at the back of its queue and tells the host; one that does not changes nothing but its own position. */
  lemma AbortIsPushed(acts: seq<Act>, s: State)
    requires After(acts) == Some(s) && s.fault == NoFault && s.hal == AbortBody
    ensures Do(s, HalRuns).Some? && AbortDid(s, Do(s, HalRuns).value)
  {
    EveryRunSound(acts);
    AbortDoes(s);
  }

  predicate AbortDid(s: State, t: State) {
    if s.listener == SetupDone || s.listener == Interactive then
      && s.sessions != [] && SessionName(s) == MakeName(Newest(s).id)
      && t.queue != [] && t.queue[|t.queue| - 1] == LocalAbort(s)
      && (|s.queue| < 20 ==> t.queue == s.queue + [LocalAbort(s)])
      && t.told == s.told + [TellAbort(SessionName(s))]
      && t == s.(hal := AbortNotify, stateLock := Free, queue := t.queue, told := t.told)
    else t == s.(hal := AbortNotify, stateLock := Free)
  }

  lemma AbortDoes(s: State)
    requires Inv(s) && s.fault == NoFault && s.hal == AbortBody
    ensures Do(s, HalRuns).Some? && AbortDid(s, Do(s, HalRuns).value)
  {
    AbortBodyDoes(s);
  }

  lemma AbortBodyDoes(s: State)
    requires ListenerOk(s.listener, s.worker) && ObjectOk(s.current, s.worker, s.sessions)
    requires s.hal == AbortBody && |s.queue| <= QUEUE_LIMIT
    ensures HalStep(s).Some? && AbortDid(s, HalStep(s).value)
  {
    AppendedLast(s.queue, LocalAbort(s));
  }

  /** The worker of a session that was set up and has not taken its second message. */
  predicate AwaitsInput(w: WorkerPc) {
    InGrace(w) || w == PopInput
  }

  predicate PastInput(w: WorkerPc) {
    w.LockInput? || w.Decide? || w.LockEnd? || w.End? || w.Callback? || w == NotifyEnd || w == Done
  }

  /** The abort is about to be pushed, or the worker has something to take or has taken it. */
  predicate Aborting(u: State, n: nat) {
    && u.fault == NoFault && |u.sessions| == n
    && (AwaitsInput(u.worker) || PastInput(u.worker))
    && (|| (u.hal == AbortBody && Live(u.listener))
        || ((u.hal == AbortNotify || u.hal == Idle) && (AwaitsInput(u.worker) ==> u.queue != [])))
  }

  lemma AbortingHal(u: State, v: State, n: nat)
    requires Inv(u) && Aborting(u, n) && HalStep(u) == Some(v)
    ensures Aborting(v, n)
  {
    if u.hal == AbortBody {
      AbortBodyDoes(u);
    } else {
      AbortedGoesOn(u, v, n);
    }
  }

  lemma AbortedGoesOn(u: State, v: State, n: nat)
    requires u.hal != AbortBody && Aborting(u, n) && HalStep(u) == Some(v)
    ensures Aborting(v, n)
  {
  }

  lemma AbortingWorker(u: State, v: State, n: nat)
    requires ControlInv(u) && u.sessions != [] && Aborting(u, n) && WorkerStep(u) == Some(v)
    ensures Aborting(v, n)
  {
    if WorkerGrace(u) == Some(v) {
      AbortingGrace(u, v, n);
    } else if WorkerInput(u) == Some(v) {
      AbortingInput(u, v, n);
    }
  }

  lemma AbortingGrace(u: State, v: State, n: nat)
    requires ControlInv(u) && u.sessions != [] && Aborting(u, n) && WorkerGrace(u) == Some(v)
    ensures Aborting(v, n)
  {
  }

  lemma AbortingInput(u: State, v: State, n: nat)
    requires ControlInv(u) && u.sessions != [] && Aborting(u, n) && WorkerInput(u) == Some(v)
    ensures Aborting(v, n)
  {
  }

  lemma AbortingFetcher(u: State, v: State, n: nat)
    requires QueueOk(u.queue, u.current, u.sessions) && Aborting(u, n) && FetcherStep(u) == Some(v)
    ensures Aborting(v, n)
  {
    if u.fetcher.FetchHave? {
      AppendedLast(u.queue, Item(u.fetcher.msg, false));
    }
  }

  lemma AbortingStep(u: State, a: Act, n: nat)
    requires Inv(u) && Aborting(u, n) && ByThread(a) && Do(u, a).Some?
    ensures Inv(Do(u, a).value) && Aborting(Do(u, a).value, n)
  {
    var v := Do(u, a).value;
    DoKeeps(u, a, v);
    match a
    case HalRuns => AbortingHal(u, v, n);
    case WorkerRuns => AbortingWorker(u, v, n);
    case FetcherRuns => AbortingFetcher(u, v, n);
  }

  lemma AbortingRun(s: State, acts: seq<Act>, n: nat)
    requires Inv(s) && Aborting(s, n) && ByThreads(acts) && RunFrom(s, acts).Some?
    ensures Inv(RunFrom(s, acts).value) && Aborting(RunFrom(s, acts).value, n)
  {
    var ok := (u: State) => Inv(u) && Aborting(u, n);
    forall u: State, a: Act
      ensures R.Keeps(Do, ok, ByThread, u, a)
    {
      if ok(u) && ByThread(a) && Do(u, a).Some? {
        AbortingStep(u, a, n);
      }
    }
    R.RunKeeps(Do, ok, ByThread, s, acts);
  }

  /** After such an abort the threads by themselves come to rest only with the session over. */
  lemma AbortEndsSession(before: seq<Act>, s: State, acts: seq<Act>, t: State)
    requires After(before) == Some(s) && s.fault == NoFault && s.hal == AbortBody && Live(s.listener)
    requires ByThreads(acts) && RunFrom(s, acts) == Some(t) && AtRest(t)
    ensures t.worker == Done && t.hal == Idle && |t.sessions| == |s.sessions| > 0
    ensures Newest(t).result.Some? && Due(Newest(t), Newest(t).result.value)
  {
    EveryRunSound(before);
    AbortingStart(s);
    AbortingRun(s, acts, |s.sessions|);
    AbortedRest(t, |s.sessions|);
  }

  lemma AbortingStart(s: State)
    requires Inv(s) && s.fault == NoFault && s.hal == AbortBody && Live(s.listener)
    ensures Aborting(s, |s.sessions|)
  {
  }

  lemma AbortedRest(t: State, n: nat)
    requires Inv(t) && Aborting(t, n) && AtRest(t)
    ensures t.worker == Done && t.hal == Idle && |t.sessions| == n > 0
    ensures Newest(t).result.Some? && Due(Newest(t), Newest(t).result.value)
  {
    RestsDone(t, n);
    ClosedPromise(Newest(t));
  }

  lemma RestsDone(t: State, n: nat)
    requires ControlInv(t) && Aborting(t, n) && AtRest(t) && t.sessions != []
    ensures t.worker == Done && t.hal == Idle
  {
    NobodyMoves(t);
  }

  // ---------- an abort with nothing queued before it ----------

  function InHandCount(f: FetcherPc): nat {
    if f.FetchLock? || f.FetchHave? then 1 else 0
  }

  /** The abort is the next message the worker will take, or the one it took. */
  predicate Doomed(u: State, n: nat, abort: Item) {
    && Aborting(u, n) && n > 0 && LocalAbort(u) == abort
    && (if u.hal == AbortBody then AwaitsInput(u.worker) && u.queue == []
        else && (AwaitsInput(u.worker) ==> |u.queue| + InHandCount(u.fetcher) <= 2 && u.queue[0] == abort)
             && (PastInput(u.worker) ==> |Newest(u).consumed| == 2 && Newest(u).consumed[1] == abort))
  }

  lemma DoomedHal(u: State, v: State, n: nat, abort: Item)
    requires Inv(u) && Doomed(u, n, abort) && HalStep(u) == Some(v) && Aborting(v, n)
    ensures Doomed(v, n, abort)
  {
    if u.hal == AbortBody {
      AbortBodyDoes(u);
      DoomedByAbort(u, v, n, abort);
    } else {
      DoomedLater(u, v, n, abort);
    }
  }

  lemma DoomedByAbort(u: State, v: State, n: nat, abort: Item)
    requires Doomed(u, n, abort) && u.hal == AbortBody && AbortDid(u, v) && Aborting(v, n)
    ensures Doomed(v, n, abort)
  {
  }

  lemma DoomedLater(u: State, v: State, n: nat, abort: Item)
    requires Doomed(u, n, abort) && u.hal != AbortBody && HalStep(u) == Some(v) && Aborting(v, n)
    ensures Doomed(v, n, abort)
  {
  }

  lemma DoomedWorker(u: State, v: State, n: nat, abort: Item)
    requires Inv(u) && u.sessions != [] && Doomed(u, n, abort) && WorkerStep(u) == Some(v) && Aborting(v, n)
    ensures Doomed(v, n, abort)
  {
    if u.worker == PopInput {
      DoomedTakes(u, v, n, abort);
    } else {
      DoomedMoves(u, v, n, abort);
    }
  }

  lemma DoomedTakes(u: State, v: State, n: nat, abort: Item)
    requires u.sessions != []
    requires RunningOk(Newest(u), u.worker, u.listener, u.promptResult) && u.hal != AbortBody
    requires Doomed(u, n, abort) && u.worker == PopInput && WorkerInput(u) == Some(v) && Aborting(v, n)
    ensures Doomed(v, n, abort)
  {
    assert Newest(v).consumed == Newest(u).consumed + [u.queue[0]];
  }

  lemma DoomedMoves(u: State, v: State, n: nat, abort: Item)
    requires u.sessions != [] && Doomed(u, n, abort) && u.worker != PopInput
    requires WorkerStep(u) == Some(v) && Aborting(v, n)
    ensures Doomed(v, n, abort)
  {
    MovesTakeNothing(u, v);
  }

  lemma MovesTakeNothing(u: State, v: State)
    requires u.sessions != [] && WorkerStep(u) == Some(v)
    requires InGrace(u.worker) || (PastInput(u.worker) && u.worker != Done)
    ensures |v.sessions| == |u.sessions| && Newest(v).consumed == Newest(u).consumed
    ensures v.queue == u.queue && v.fetcher == u.fetcher && v.current == u.current
    ensures v.hal == u.hal || v.hal == Notified(u.hal)
    ensures if InGrace(u.worker) then AwaitsInput(v.worker) else PastInput(v.worker)
  {
    if InGrace(u.worker) {
      GraceTakesNothing(u, v);
    }
  }

  lemma GraceTakesNothing(u: State, v: State)
    requires u.sessions != [] && WorkerGrace(u) == Some(v) && InGrace(u.worker)
    ensures v.sessions == u.sessions && v.queue == u.queue && v.fetcher == u.fetcher && v.current == u.current
    ensures v.hal == u.hal || v.hal == Notified(u.hal)
    ensures AwaitsInput(v.worker)
  {
  }

  lemma DoomedFetcher(u: State, v: State, n: nat, abort: Item)
    requires LocksOk(u.stateLock, u.sessionLock, u.hal, u.worker, u.fetcher)
    requires Doomed(u, n, abort) && FetcherStep(u) == Some(v) && Aborting(v, n)
    ensures Doomed(v, n, abort)
  {
    if u.fetcher.FetchHave? && u.queue != [] && AwaitsInput(u.worker) {
      AppendedLast(u.queue, Item(u.fetcher.msg, false));
    }
  }

  lemma DoomedStep(u: State, a: Act, n: nat, abort: Item)
    requires Inv(u) && Doomed(u, n, abort) && ByThread(a) && Do(u, a).Some?
    ensures Inv(Do(u, a).value) && Doomed(Do(u, a).value, n, abort)
  {
    var v := Do(u, a).value;
    AbortingStep(u, a, n);
    match a
    case HalRuns => DoomedHal(u, v, n, abort);
    case WorkerRuns => DoomedWorker(u, v, n, abort);
    case FetcherRuns => DoomedFetcher(u, v, n, abort);
  }

  /** If the session had not taken its second message and none was queued, it ends ABORTED, whatever the
      fetcher still brings. */
  lemma AbortEndsAborted(before: seq<Act>, s: State, acts: seq<Act>, t: State)
    requires After(before) == Some(s) && s.fault == NoFault && s.hal == AbortBody && Live(s.listener)
    requires AwaitsInput(s.worker) && s.queue == []
    requires ByThreads(acts) && RunFrom(s, acts) == Some(t) && AtRest(t)
    ensures |t.sessions| == |s.sessions| > 0 && Newest(t).result == Some(Result(ABORTED, "", ""))
  {
    EveryRunSound(before);
    AbortingStart(s);
    DoomedRun(s, acts, |s.sessions|, LocalAbort(s));
    DoomedRest(t, |s.sessions|, LocalAbort(s));
  }

  lemma DoomedRest(t: State, n: nat, abort: Item)
    requires Inv(t) && Doomed(t, n, abort) && abort.msg.Abort? && AtRest(t)
    ensures |t.sessions| == n > 0 && Newest(t).result == Some(Result(ABORTED, "", ""))
  {
    AbortedRest(t, n);
    AbortIsDue(Newest(t), Newest(t).result.value);
  }

  lemma AbortIsDue(x: Session, r: Result)
    requires Due(x, r) && |x.consumed| == 2 && x.consumed[1].msg.Abort?
    ensures r == Result(ABORTED, "", "")
  {
  }

  lemma DoomedRun(s: State, acts: seq<Act>, n: nat, abort: Item)
    requires Inv(s) && Doomed(s, n, abort) && ByThreads(acts) && RunFrom(s, acts).Some?
    ensures Inv(RunFrom(s, acts).value) && Doomed(RunFrom(s, acts).value, n, abort)
  {
    var ok := (u: State) => Inv(u) && Doomed(u, n, abort);
    forall u: State, a: Act
      ensures R.Keeps(Do, ok, ByThread, u, a)
    {
      if ok(u) && ByThread(a) && Do(u, a).Some? {
        DoomedStep(u, a, n, abort);
      }
    }
    R.RunKeeps(Do, ok, ByThread, s, acts);
  }

  // ---------- prompt ----------

  /** In every run, a prompt call that finds the state lock taken, or a session set up or interactive, goes
      away and leaves everything as it was. */
  lemma PromptIsRefused(acts: seq<Act>, s: State)
    requires After(acts) == Some(s) && s.fault == NoFault && s.hal.PromptTry?
    ensures s.stateLock != Free ==> Do(s, HalRuns) == Some(s.(hal := Idle))
    ensures s.stateLock == Free && Live(s.listener) ==> RunFrom(s, [HalRuns] + [HalRuns]) == Some(s.(hal := Idle))
  {
    if s.stateLock == Free && Live(s.listener) {
      var held := s.(hal := PromptSwitch(s.hal.hasCallback, s.hal.tooLong), stateLock := HeldBy(Hal));
      R.Cons(Do, s, HalRuns, [HalRuns]);
      R.Cons(Do, held, HalRuns, []);
      assert [HalRuns] + [] == [HalRuns];
    }
  }

  /** Session number `n` is about to be made, or is there with the terms it was asked for. */
  predicate Prompted(u: State, n: nat, callback: bool, long: bool) {
    || (Asking(u.hal, callback, long) && |u.sessions| == n && u.fault == NoFault
        && (u.listener == NoSession || u.listener == Terminating))
    || (!BeforeSpawn(u.hal) && HasTerms(u.sessions, n, callback, long))
  }

  predicate Asking(h: HalPc, callback: bool, long: bool) {
    h == PromptSwitch(callback, long) || h == PromptJoinOld(callback, long) || h == PromptSpawn(callback, long)
  }

  predicate HasTerms(sessions: seq<Session>, n: nat, callback: bool, long: bool) {
    |sessions| == n + 1 && sessions[n].hasCallback == callback && sessions[n].tooLong == long
  }

  lemma PromptedHal(u: State, v: State, n: nat, callback: bool, long: bool)
    requires ControlInv(u) && u.fault == NoFault && Prompted(u, n, callback, long) && HalStep(u) == Some(v)
    ensures Prompted(v, n, callback, long)
  {
    if BeforeSpawn(u.hal) {
      PromptedGoesOn(u, v, n, callback, long);
    } else {
      NoNewSession(u, v);
    }
  }

  lemma PromptedGoesOn(u: State, v: State, n: nat, callback: bool, long: bool)
    requires ListenerOk(u.listener, u.worker) && HalOk(u.hal, u.listener, u.worker) && BeforeSpawn(u.hal)
    requires Prompted(u, n, callback, long) && HalPrompt(u) == Some(v)
    ensures Prompted(v, n, callback, long)
  {
  }

  lemma NoNewSession(u: State, v: State)
    requires !BeforeSpawn(u.hal) && HalStep(u) == Some(v)
    ensures v.sessions == u.sessions && !BeforeSpawn(v.hal)
  {
    if HalAwaitSetup(u) == Some(v) {
      AwaitMakesNone(u, v);
    } else if HalDeliver(u) == Some(v) {
      DeliverMakesNone(u, v);
    }
  }

  lemma AwaitMakesNone(u: State, v: State)
    requires HalAwaitSetup(u) == Some(v)
    ensures v.sessions == u.sessions && !BeforeSpawn(v.hal)
  {
  }

  lemma DeliverMakesNone(u: State, v: State)
    requires HalDeliver(u) == Some(v)
    ensures v.sessions == u.sessions && !BeforeSpawn(v.hal)
  {
  }

  /** The worker touches only the newest session, never its terms, and of the HAL only its wait. */
  predicate TermsKept(u: State, v: State)
    requires u.sessions != []
  {
    && |v.sessions| == |u.sessions| && (v.hal == u.hal || v.hal == Notified(u.hal))
    && v.sessions == u.sessions[|u.sessions| - 1 := Newest(v)]
    && Newest(v).hasCallback == Newest(u).hasCallback && Newest(v).tooLong == Newest(u).tooLong
  }

  lemma WorkerKeepsTerms(u: State, v: State)
    requires u.sessions != [] && WorkerStep(u) == Some(v)
    ensures TermsKept(u, v)
  {
    if WorkerOpening(u) == Some(v) {
      OpeningKeepsTerms(u, v);
    } else if WorkerStart(u) == Some(v) {
      StartKeepsTerms(u, v);
    } else if WorkerGrace(u) == Some(v) {
      GraceKeepsTerms(u, v);
    } else if WorkerInput(u) == Some(v) {
      InputKeepsTerms(u, v);
    } else {
      ClosingKeepsTerms(u, v);
    }
  }

  lemma OpeningKeepsTerms(u: State, v: State)
    requires u.sessions != [] && WorkerOpening(u) == Some(v)
    ensures TermsKept(u, v)
  {
  }

  lemma StartKeepsTerms(u: State, v: State)
    requires u.sessions != [] && WorkerStart(u) == Some(v)
    ensures TermsKept(u, v)
  {
  }

  lemma GraceKeepsTerms(u: State, v: State)
    requires u.sessions != [] && WorkerGrace(u) == Some(v)
    ensures TermsKept(u, v)
  {
  }

  lemma InputKeepsTerms(u: State, v: State)
    requires u.sessions != [] && WorkerInput(u) == Some(v)
    ensures TermsKept(u, v)
  {
  }

  lemma ClosingKeepsTerms(u: State, v: State)
    requires u.sessions != [] && WorkerClosing(u) == Some(v)
    ensures TermsKept(u, v)
  {
  }

  lemma ClosingKeepsListener(u: State, v: State)
    requires ListenerOk(u.listener, u.worker) && (u.listener == NoSession || u.listener == Terminating)
    requires u.sessions != [] && u.fault == NoFault && WorkerStep(u) == Some(v)
    ensures v.listener == u.listener && v.fault == NoFault
  {
  }

  lemma PromptedStep(u: State, a: Act, n: nat, callback: bool, long: bool)
    requires Sound(u) && Prompted(u, n, callback, long) && ByThread(a) && Do(u, a).Some?
    ensures Sound(Do(u, a).value) && Prompted(Do(u, a).value, n, callback, long)
  {
    var v := Do(u, a).value;
    DoKeeps(u, a, v);
    match a
    case HalRuns => PromptedHal(u, v, n, callback, long);
    case WorkerRuns => PromptedWorker(u, v, n, callback, long);
    case FetcherRuns => PromptedFetcher(u, v, n, callback, long);
  }

  lemma PromptedWorker(u: State, v: State, n: nat, callback: bool, long: bool)
    requires ListenerOk(u.listener, u.worker) && u.fault == NoFault && u.sessions != []
    requires Prompted(u, n, callback, long) && WorkerStep(u) == Some(v)
    ensures Prompted(v, n, callback, long)
  {
    WorkerKeepsTerms(u, v);
    if BeforeSpawn(u.hal) {
      ClosingKeepsListener(u, v);
    }
  }

  lemma PromptedFetcher(u: State, v: State, n: nat, callback: bool, long: bool)
    requires Prompted(u, n, callback, long) && FetcherStep(u) == Some(v)
    ensures Prompted(v, n, callback, long)
  {
  }

  /** In every run, a prompt call that got the state lock while no session ran, or one was terminating, starts
      a session on its own terms: when the threads by themselves come to rest, it is there. */
  lemma PromptStartsSession(before: seq<Act>, s: State, acts: seq<Act>, t: State)
    requires After(before) == Some(s) && s.fault == NoFault && s.hal.PromptSwitch? && !Live(s.listener)
    requires ByThreads(acts) && RunFrom(s, acts) == Some(t) && AtRest(t)
    ensures |t.sessions| == |s.sessions| + 1
    ensures Newest(t).hasCallback == s.hal.hasCallback && Newest(t).tooLong == s.hal.tooLong
  {
    var n, callback, long := |s.sessions|, s.hal.hasCallback, s.hal.tooLong;
    EveryRunSound(before);
    PromptedStart(s);
    PromptedRun(s, acts, n, callback, long);
    PromptedRest(t, n, callback, long);
  }

  lemma PromptedStart(s: State)
    requires Inv(s) && s.fault == NoFault && s.hal.PromptSwitch? && !Live(s.listener)
    ensures Prompted(s, |s.sessions|, s.hal.hasCallback, s.hal.tooLong)
  {
  }

  lemma PromptedRest(t: State, n: nat, callback: bool, long: bool)
    requires Inv(t) && Prompted(t, n, callback, long) && AtRest(t)
    ensures HasTerms(t.sessions, n, callback, long)
  {
    RestsAsking(t);
  }

  lemma RestsAsking(t: State)
    requires ControlInv(t) && AtRest(t) && (t.worker != NoThread ==> t.sessions != [])
    ensures !BeforeSpawn(t.hal)
  {
    NobodyMoves(t);
  }

  lemma PromptedRun(s: State, acts: seq<Act>, n: nat, callback: bool, long: bool)
    requires Sound(s) && Prompted(s, n, callback, long) && ByThreads(acts) && RunFrom(s, acts).Some?
    ensures Sound(RunFrom(s, acts).value) && Prompted(RunFrom(s, acts).value, n, callback, long)
  {
    var ok := (u: State) => Sound(u) && Prompted(u, n, callback, long);
    forall u: State, a: Act
      ensures R.Keeps(Do, ok, ByThread, u, a)
    {
      if ok(u) && ByThread(a) && Do(u, a).Some? {
        PromptedStep(u, a, n, callback, long);
      }
    }
    R.RunKeeps(Do, ok, ByThread, s, acts);
  }

  // ---------- deliver ----------

  /** In every run, an input event that finds its session interactive goes to the host as that session's
      confirmation or cancellation; it waits while the session is being set up, and is dropped otherwise. */
  lemma InputIsDelivered(acts: seq<Act>, s: State)
    requires After(acts) == Some(s) && s.fault == NoFault && s.hal.DeliverCheck?
    ensures Do(s, HalRuns).Some? && DeliverDid(s, Do(s, HalRuns).value)
  {
    EveryRunSound(acts);
    DeliverDoes(s);
  }

  predicate DeliverDid(s: State, t: State) {
    match s.listener
    case Interactive =>
      && s.sessions != [] && SessionName(s) == MakeName(Newest(s).id)
      && t == s.(hal := DeliverNotify, stateLock := Free, told := t.told)
      && t.told == s.told + [TellSelection(SessionName(s), if s.hal == DeliverCheck(true) then "user_confirm"
                                                           else "user_cancel")]
    case SetupDone =>
      t == s.(hal := if s.hal == DeliverCheck(true) then DeliverWait(true, false) else DeliverWait(false, false),
              stateLock := Free)
    case _ => t == s.(hal := Idle, stateLock := Free, sessionLock := Free)
  }

  lemma DeliverDoes(s: State)
    requires ListenerOk(s.listener, s.worker) && ObjectOk(s.current, s.worker, s.sessions) && s.hal.DeliverCheck?
    ensures HalStep(s).Some? && DeliverDid(s, HalStep(s).value)
  {
  }
}
