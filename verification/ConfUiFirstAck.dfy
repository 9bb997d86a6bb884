/** The CHECK that a session's first message is the start ack.  The queue drops its older half when
    it is full, so a host that keeps talking before the guest takes the ack can push the ack out.
    What counts is how many messages a session is sent before it takes its first one: 20 are safe,
    one more is not.  Names repeat after 2^32 sessions, and then a message left over from the first
    bearer of a name is enough. */
module ConfUiFirstAck {
  import opened Wrappers
  import opened ConfUiSession
  import opened ConfUiRuns
  import opened ConfUiSafety
  import R = Runs

  /** No session was sent more than `b` messages before it took its first, in at most `m` sessions. */
  predicate Within(s: State, b: nat, m: nat) {
    s.mostEarly <= b && |s.sessions| <= m
  }

  // ---------- safety within the limit ----------

  predicate NotYetStarted(w: WorkerPc) {
    w.LockSession? || w.MakeSession? || w.LockStart? || w.Start?
  }

  /** How many sessions have sent their start message, or will never send one. */
  function StartedCount(s: State): int {
    |s.sessions| - (if NotYetStarted(s.worker) then 1 else 0)
  }

  predicate Names(sessions: seq<Session>, bound: int, name: string) {
    exists n | 0 <= n < bound && n < |sessions| :: name == MakeName(sessions[n].id)
  }

  /** Every name the host knows belongs to a session that has sent its start message. */
  predicate KnownNames(s: State) {
    forall name | name in s.sent :: Names(s.sessions, StartedCount(s), name)
  }

  /** The message in the fetcher's hands, if it is for session `name`. */
  function InHand(f: FetcherPc, name: string): seq<Msg> {
    if (f.FetchLock? || f.FetchHave?) && f.msg.sid == name then [f.msg] else []
  }

  /** Before the start message the queue is empty; while the worker awaits the ack, nothing the
      host sent has been lost. */
  predicate NothingLost(worker: WorkerPc, current: Option<Current>, queue: seq<Item>,
                        fetcher: FetcherPc, sent: map<string, nat>, early: nat) {
    && (fetcher.FetchLock? || fetcher.FetchHave? ==> fetcher.msg.sid in sent)
    && (worker == LockStart || worker == Start ==> queue == [])
    && (worker == PopFirst && current.Some? ==>
          var name := current.value.name;
          var hand := InHand(fetcher, name);
          && name in sent
          && sent[name] == early == |queue| + |hand|
          && (queue != [] ==> queue[0].msg.Ack?)
          && (queue == [] && hand != [] ==> hand[0].Ack?))
  }

  predicate HostInv(s: State) {
    && KnownNames(s)
    && NothingLost(s.worker, s.current, s.queue, s.fetcher, s.sent, s.early)
    && s.early <= s.mostEarly
  }

  /** A name not yet announced is unknown to the host. */
  lemma FreshName(s: State)
    requires IdsOk(s.counter, s.sessions) && ObjectOk(s.current, s.worker, s.sessions) && KnownNames(s)
    requires NotYetStarted(s.worker) && HasObject(s.worker) && |s.sessions| <= ID_WRAP
    ensures s.current.value.name !in s.sent
  {
    var last := |s.sessions| - 1;
    if s.current.value.name in s.sent {
      assert Names(s.sessions, last, s.current.value.name);
      var n :| 0 <= n < last && s.current.value.name == MakeName(s.sessions[n].id);
      NameInjective(s.sessions[n].id, s.sessions[last].id);
      SmallIdsDiffer(n, last);
      assert false;
    }
  }

  lemma SmallIdsDiffer(m: nat, n: nat)
    requires m < n < ID_WRAP
    ensures (FIRST_COUNTER + 1 + m) % ID_WRAP != (FIRST_COUNTER + 1 + n) % ID_WRAP
  {
    WrapDifference(FIRST_COUNTER + 1 + m, FIRST_COUNTER + 1 + n);
  }

  /** Sessions keep their names, and started sessions stay started. */
  lemma NamesKept(s: State, t: State)
    requires KnownNames(s) && t.sent == s.sent
    requires StartedCount(s) <= StartedCount(t)
    requires |s.sessions| <= |t.sessions|
    requires forall n | 0 <= n < |s.sessions| :: t.sessions[n].id == s.sessions[n].id
    ensures KnownNames(t)
  {
    forall name | name in t.sent
      ensures Names(t.sessions, StartedCount(t), name)
    {
      var n :| 0 <= n < StartedCount(s) && n < |s.sessions| && name == MakeName(s.sessions[n].id);
      assert name == MakeName(t.sessions[n].id);
    }
  }

  // ---------- the HAL ----------

  predicate SameHost(s: State, t: State) {
    t.sent == s.sent && t.fetcher == s.fetcher && t.early == s.early && t.mostEarly == s.mostEarly
  }

  lemma HalLeavesHost(s: State, t: State)
    requires HalStep(s) == Some(t)
    ensures SameHost(s, t) && (t.queue == s.queue || (Live(s.listener) && t.worker == s.worker))
  {
    if HalStep(s) == HalPrompt(s) {
      PromptLeavesHost(s, t);
    } else if HalStep(s) == HalAwaitSetup(s) {
      AwaitLeavesHost(s, t);
    }
  }

  lemma PromptLeavesHost(s: State, t: State)
    requires HalPrompt(s) == Some(t)
    ensures SameHost(s, t) && t.queue == s.queue
  {
  }

  lemma AwaitLeavesHost(s: State, t: State)
    requires HalAwaitSetup(s) == Some(t)
    ensures SameHost(s, t) && t.queue == s.queue
  {
  }

  lemma HalKeepsHostInv(s: State, t: State)
    requires Inv(s) && s.fault == NoFault && HostInv(s) && HalStep(s) == Some(t)
    ensures HostInv(t)
  {
    HalLeavesHost(s, t);
    HalShape(s, t);
    HalStepsKeepNames(s, t);
    NamesKept(s, t);
  }

  lemma HalStepsKeepNames(s: State, t: State)
    requires SameData(s, t) || Joined(s, t) || Spawned(s, t)
    ensures StartedCount(s) <= StartedCount(t) && |s.sessions| <= |t.sessions|
    ensures forall n | 0 <= n < |s.sessions| :: t.sessions[n].id == s.sessions[n].id
  {
    if Spawned(s, t) {
      assert forall n | 0 <= n < |s.sessions| :: t.sessions[n] == t.sessions[..|s.sessions|][n];
    }
  }

  // ---------- the worker ----------

  lemma WorkerKeepsNames(s: State, t: State)
    requires OnlyNewest(s, t)
    ensures forall n | 0 <= n < |s.sessions| :: t.sessions[n].id == s.sessions[n].id
  {
    var k := |s.sessions| - 1;
    forall n | 0 <= n < |s.sessions|
      ensures t.sessions[n].id == s.sessions[n].id
    {
      if n < k {
        assert t.sessions[n] == t.sessions[..k][n] && s.sessions[n] == s.sessions[..k][n];
      }
    }
  }

  lemma WorkerOtherSteps(s: State, t: State)
    requires s.sessions != [] && WorkerStep(s) == Some(t) && s.worker != Start && s.worker != PopFirst
    ensures t.sent == s.sent && t.fetcher == s.fetcher && t.worker != PopFirst
    ensures t.early == s.early && t.mostEarly == s.mostEarly
    ensures t.worker == LockStart || t.worker == Start
            ==> t.queue == [] || (s.worker == LockStart && t.queue == s.queue)
    ensures NotYetStarted(t.worker) ==> NotYetStarted(s.worker)
    ensures s.fault == NoFault ==> t.fault != FirstNotAck
  {
  }

  lemma WorkerStartSteps(s: State, t: State)
    requires s.fault == NoFault && s.sessions != [] && WorkerStart(s) == Some(t)
    requires s.current.Some? && s.listener == Starting
    requires s.worker == PopFirst && s.queue != [] ==> s.queue[0].msg.Ack?
    ensures t.fault == NoFault && t.fetcher == s.fetcher && t.current == s.current && !NotYetStarted(t.worker)
    ensures t.worker == PopFirst ==> s.worker == Start && t.queue == s.queue
    ensures var name := s.current.value.name;
            t.sent == s.sent || (t.worker == PopFirst && name !in s.sent && t.sent == s.sent[name := 0])
    ensures t.worker == PopFirst ==> s.current.value.name in t.sent
    ensures t.mostEarly == s.mostEarly && t.early == if t.worker == PopFirst then 0 else s.early
  {
  }

  /** The step that sends the start message, or takes the ack. */
  lemma StartKeepsHostInv(s: State, t: State)
    requires s.fault == NoFault && HostInv(s) && s.sessions != [] && WorkerStart(s) == Some(t)
    requires s.current.Some? && s.listener == Starting && OnlyNewest(s, t)
    requires s.current.value.name == MakeName(Newest(s).id)
    requires s.worker == Start ==> s.current.value.name !in s.sent
    ensures t.fault == NoFault && HostInv(t)
  {
    WorkerStartSteps(s, t);
    WorkerKeepsNames(s, t);
    NamesKept(s, t.(sent := s.sent));
    var name := s.current.value.name;
    assert name == MakeName(t.sessions[|t.sessions| - 1].id);
    assert Names(t.sessions, StartedCount(t), name);
    assert KnownNames(t);
  }

  lemma WorkerKeepsHostInv(s: State, t: State)
    requires Inv(s) && s.fault == NoFault && HostInv(s) && s.sessions != [] && WorkerStep(s) == Some(t)
    requires |s.sessions| <= ID_WRAP
    ensures t.fault == NoFault && HostInv(t)
  {
    WorkerOnlyNewest(s, t);
    if s.worker == Start || s.worker == PopFirst {
      StartStepsKeepHostInv(s, t);
    } else {
      WorkerKeeps(s, t);
      WorkerOtherSteps(s, t);
      OtherStepsKeepHostInv(s, t);
    }
  }

  lemma StartStepsKeepHostInv(s: State, t: State)
    requires ListenerOk(s.listener, s.worker) && DataInv(s) && s.fault == NoFault && HostInv(s)
    requires s.sessions != [] && WorkerStart(s) == Some(t) && OnlyNewest(s, t) && |s.sessions| <= ID_WRAP
    ensures t.fault == NoFault && HostInv(t)
  {
    if s.worker == Start {
      FreshName(s);
    }
    StartKeepsHostInv(s, t);
  }

  lemma OtherStepsKeepHostInv(s: State, t: State)
    requires HostInv(s) && s.sessions != [] && WorkerStep(s) == Some(t) && OnlyNewest(s, t)
    requires s.worker != Start && s.worker != PopFirst
    ensures HostInv(t)
  {
    WorkerOtherSteps(s, t);
    LeavesHost(s, t);
  }

  lemma LeavesHost(s: State, t: State)
    requires HostInv(s) && OnlyNewest(s, t) && (NotYetStarted(t.worker) ==> NotYetStarted(s.worker))
    requires t.sent == s.sent && t.fetcher == s.fetcher && t.early == s.early && t.mostEarly == s.mostEarly
    requires t.worker != PopFirst
    requires t.worker == LockStart || t.worker == Start
             ==> t.queue == [] || (s.worker == LockStart && t.queue == s.queue)
    ensures HostInv(t)
  {
    WorkerKeepsNames(s, t);
    NamesKept(s, t);
  }

  // ---------- the fetcher and the host ----------

  /** Pushing the message in hand moves it to the back of a queue that still has room. */
  lemma PushLosesNothing(s: State, msg: Msg)
    requires NothingLost(s.worker, s.current, s.queue, FetchHave(msg), s.sent, s.early) && s.early <= QUEUE_LIMIT
    requires s.current.Some? && s.current.value.name == msg.sid
    requires s.worker != LockStart && s.worker != Start
    ensures NothingLost(s.worker, s.current, PushItem(s.queue, Item(msg, false)), FetchNotify, s.sent, s.early)
  {
    if s.worker == PopFirst {
      assert |s.queue| + 1 <= QUEUE_LIMIT;
      assert PushItem(s.queue, Item(msg, false)) == s.queue + [Item(msg, false)];
    }
  }

  lemma FetcherKeepsHostInv(s: State, t: State)
    requires Inv(s) && s.fault == NoFault && HostInv(s) && FetcherStep(s) == Some(t)
    requires Within(s, QUEUE_LIMIT, ID_WRAP)
    ensures HostInv(t)
  {
    FetcherData(s, t);
    NamesKept(s, t);
    if s.fetcher.FetchHave? && s.current.Some? && s.current.value.name == s.fetcher.msg.sid {
      NotBeforeStart(s);
      PushLosesNothing(s, s.fetcher.msg);
    } else {
      FetcherLosesNothing(s, t);
    }
  }

  /** A step that pushes nothing. */
  lemma FetcherLosesNothing(s: State, t: State)
    requires FetcherStep(s) == Some(t)
    requires !(s.fetcher.FetchHave? && s.current.Some? && s.current.value.name == s.fetcher.msg.sid)
    requires NothingLost(s.worker, s.current, s.queue, s.fetcher, s.sent, s.early)
    ensures NothingLost(t.worker, t.current, t.queue, t.fetcher, t.sent, t.early)
  {
  }

  /** A message for the current session comes after its start message. */
  lemma NotBeforeStart(s: State)
    requires DataInv(s) && HostInv(s) && |s.sessions| <= ID_WRAP
    requires s.fetcher.FetchHave? && s.current.Some? && s.current.value.name == s.fetcher.msg.sid
    ensures s.worker != LockStart && s.worker != Start
  {
    if s.worker == LockStart || s.worker == Start {
      FreshName(s);
    }
  }

  lemma HostKeepsHostInv(s: State, msg: Msg)
    requires HostInv(s) && s.fetcher == Receive && HostMay(s, msg)
    ensures HostInv(HostSend(s, msg))
  {
    var t := HostSend(s, msg);
    assert t.sent.Keys == s.sent.Keys;
    HostLosesNothing(s, msg);
  }

  lemma HostLosesNothing(s: State, msg: Msg)
    requires NothingLost(s.worker, s.current, s.queue, Receive, s.sent, s.early) && HostMay(s, msg)
    ensures var t := HostSend(s, msg);
            NothingLost(t.worker, t.current, t.queue, t.fetcher, t.sent, t.early)
  {
  }

  lemma EnvironmentKeepsHostInv(s: State, a: Act, t: State)
    requires HostInv(s) && FromOutside(a) && Do(s, a) == Some(t)
    ensures HostInv(t)
  {
    if a.HostSends? {
      HostKeepsHostInv(s, a.msg);
    } else {
      EnvironmentData(s, a, t);
      OutsideHost(s, a, t);
      NamesKept(s, t);
    }
  }

  lemma OutsideHost(s: State, a: Act, t: State)
    requires FromOutside(a) && !a.HostSends? && Do(s, a) == Some(t)
    ensures t.sent == s.sent && t.early == s.early && t.mostEarly == s.mostEarly
    ensures t.fetcher == s.fetcher || t.fetcher == Stopped
  {
  }

  // ---------- every run within the limit ----------

  lemma DoGrows(s: State, a: Act, t: State)
    requires Inv(s) && Do(s, a) == Some(t)
    ensures |s.sessions| <= |t.sessions| && s.mostEarly <= t.mostEarly
  {
    match a
    case HalRuns =>
      HalLeavesHost(s, t);
      HalShape(s, t);
      HalStepsKeepNames(s, t);
    case WorkerRuns =>
      WorkerOnlyNewest(s, t);
      WorkerSendsNothing(s, t);
    case FetcherRuns => FetcherData(s, t);
    case _ => EnvironmentData(s, a, t);
  }

  lemma WorkerSendsNothing(s: State, t: State)
    requires s.sessions != [] && WorkerStep(s) == Some(t)
    ensures t.mostEarly == s.mostEarly
  {
  }

  lemma DoKeepsHostInv(s: State, a: Act, t: State)
    requires Inv(s) && s.fault == NoFault && HostInv(s) && Do(s, a) == Some(t)
    requires Within(s, QUEUE_LIMIT, ID_WRAP)
    ensures t.fault == NoFault && HostInv(t)
  {
    match a
    case HalRuns =>
      HalKeeps(s, t);
      HalKeepsHostInv(s, t);
    case WorkerRuns => WorkerKeepsHostInv(s, t);
    case FetcherRuns =>
      FetcherData(s, t);
      FetcherKeepsHostInv(s, t);
    case _ =>
      EnvironmentData(s, a, t);
      EnvironmentKeepsHostInv(s, a, t);
  }

  /** Whatever the host sends once the ack is taken, 20 messages before that are harmless. */
  lemma {:induction false} WithinLimitNeverFaults(acts: seq<Act>)
    requires After(acts).Some? && Within(After(acts).value, QUEUE_LIMIT, ID_WRAP)
    ensures After(acts).value.fault == NoFault && HostInv(After(acts).value)
    decreases |acts|
  {
    if acts != [] {
      var before, a := acts[..|acts| - 1], acts[|acts| - 1];
      EveryRunSound(before);
      DoGrows(After(before).value, a, After(acts).value);
      WithinLimitNeverFaults(before);
      DoKeepsHostInv(After(before).value, a, After(acts).value);
    }
  }

  // ---------- no message at all ----------

  /** As long as no session got a message while it awaited its first, none got any. */
  predicate Silent(s: State) {
    && s.queue == [] && !Live(s.listener) && !s.fetcher.FetchLock? && !s.fetcher.FetchHave? && s.early == 0
    && (forall name | name in s.sent :: Awaits(s, name))
  }

  lemma SilentHal(s: State, t: State)
    requires ControlInv(s) && s.fault == NoFault && Silent(s) && HalStep(s) == Some(t)
    ensures Silent(t)
  {
    HalLeavesHost(s, t);
    HalSparesTheWaiting(s, t);
  }

  lemma HalSparesTheWaiting(s: State, t: State)
    requires ControlInv(s) && s.fault == NoFault && HalStep(s) == Some(t)
    ensures s.worker == PopFirst ==> t.worker == PopFirst
    ensures t.current == s.current && !Live(s.listener) ==> !Live(t.listener) && t.queue == s.queue
  {
  }

  lemma SilentWorker(s: State, t: State)
    requires Inv(s) && s.fault == NoFault && s.sessions != [] && Silent(s) && WorkerStep(s) == Some(t)
    ensures t.fault == NoFault && Silent(t)
  {
    WorkerKeeps(s, t);
    if WorkerStart(s) == Some(t) {
      SilentStart(s, t);
    } else {
      SilentRest(s, t);
    }
  }

  lemma SilentStart(s: State, t: State)
    requires ListenerOk(s.listener, s.worker) && s.fault == NoFault && s.sessions != [] && Silent(s)
    requires ObjectOk(s.current, s.worker, s.sessions) && WorkerStart(s) == Some(t)
    ensures t.fault == NoFault && Silent(t)
  {
  }

  lemma SilentRest(s: State, t: State)
    requires ListenerOk(s.listener, s.worker) && s.fault == NoFault && s.sessions != [] && Silent(s)
    requires WorkerStep(s) == Some(t) && WorkerStart(s) == None && (t.fault == NoFault || t.fault == FirstNotAck)
    ensures t.fault == NoFault && Silent(t)
  {
  }

  lemma SilentEnvironment(s: State, a: Act, t: State)
    requires Silent(s) && FromOutside(a) && Do(s, a) == Some(t) && t.mostEarly == 0
    ensures Silent(t)
  {
    EnvironmentData(s, a, t);
  }

  lemma {:induction false} SilenceNeverFaults(acts: seq<Act>)
    requires After(acts).Some? && After(acts).value.mostEarly == 0
    ensures After(acts).value.fault == NoFault && Silent(After(acts).value)
    decreases |acts|
  {
    if acts != [] {
      var before, a := acts[..|acts| - 1], acts[|acts| - 1];
      var s, t := After(before).value, After(acts).value;
      EveryRunSound(before);
      DoGrows(s, a, t);
      SilenceNeverFaults(before);
      SilentDo(s, a, t);
    }
  }

  lemma SilentDo(s: State, a: Act, t: State)
    requires Inv(s) && s.fault == NoFault && Silent(s) && Do(s, a) == Some(t) && t.mostEarly == 0
    ensures t.fault == NoFault && Silent(t)
  {
    match a
    case HalRuns =>
      HalKeeps(s, t);
      SilentHal(s, t);
    case WorkerRuns => SilentWorker(s, t);
    case FetcherRuns =>
    case _ => SilentEnvironment(s, a, t);
  }

  // ---------- one message more ----------

  /** The host's k-th message: the ack first, aborts from then on. */
  function Talk(k: nat): Msg {
    if k == 0 then Ack(NAME, true, "") else Abort(NAME)
  }

  /** Up to the limit the messages queue up behind the ack. */
  lemma {:induction false} Flood(k: nat) returns (acts: seq<Act>, s: State)
    requires k <= QUEUE_LIMIT
    ensures After(acts) == Some(s) && StillWaiting(s, k)
    ensures |s.queue| == k && forall i | 0 <= i < k :: s.queue[i] == Item(Talk(i), false)
  {
    if k == 0 {
      acts, s := FirstSession();
    } else {
      acts, s := Flood(k - 1);
      acts, s := OneMore(acts, s, k - 1, Talk(k - 1));
    }
  }

  /** The next push drops the older half, the ack with it. */
  lemma OverflowFaults() returns (acts: seq<Act>)
    ensures After(acts).Some? && After(acts).value.fault == FirstNotAck
    ensures Within(After(acts).value, QUEUE_LIMIT + 1, 1)
  {
    var s;
    acts, s := Flood(QUEUE_LIMIT);
    acts, s := OneMore(acts, s, QUEUE_LIMIT, Talk(QUEUE_LIMIT));
    assert s.queue[0] == Item(Talk(QUEUE_LIMIT / 2), false);
    PopFaults(s);
    Snoc(INIT, acts, WorkerRuns, s, Do(s, WorkerRuns).value);
    acts := acts + [WorkerRuns];
  }

  lemma PopFaults(s: State)
    requires s.fault == NoFault && s.sessions != [] && s.worker == PopFirst && s.queue != [] && !s.queue[0].msg.Ack?
    ensures Do(s, WorkerRuns).Some? && Do(s, WorkerRuns).value.fault == FirstNotAck
    ensures var t := Do(s, WorkerRuns).value;
            t.mostEarly == s.mostEarly && |t.sessions| == |s.sessions|
  {
  }

  // ---------- a name comes round again ----------

  /** `n` sessions are over, and the fetcher still holds a message for the first one. */
  predicate Parked(s: State, n: nat) {
    && Rests(s) && s.fetcher == FetchLock(Abort(NAME)) && NAME in s.sent && s.mostEarly <= 1
    && |s.sessions| == n && s.counter == (FIRST_COUNTER + n) % ID_WRAP
  }

  /** The first session is refused by the host, which then sends it one message too many. */
  lemma FirstParked() returns (acts: seq<Act>, s: State)
    ensures After(acts) == Some(s) && Parked(s, 1)
  {
    var over;
    acts, over := FirstRefused();
    acts, over := SessionEnds(acts, over);
    LateMessageParks(over);
    s := HostSend(over, Abort(NAME));
    Snoc(INIT, acts, HostSends(Abort(NAME)), over, s);
    acts := acts + [HostSends(Abort(NAME))];
  }

  lemma LateMessageParks(s: State)
    requires Rests(s) && s.fetcher == Receive && s.sent == map[NAME := 1] && s.early == s.mostEarly == 1
    requires |s.sessions| == 1 && s.counter == 11
    ensures Do(s, HostSends(Abort(NAME))) == Some(HostSend(s, Abort(NAME)))
    ensures Parked(HostSend(s, Abort(NAME)), 1)
  {
  }

  /** A session whose message is too long comes and goes without a word to the host. */
  const ROUND: seq<Act> := Call(true) + OPEN + [WorkerRuns] + END

  lemma TooLong(s: State)
    requires s.fault == NoFault && s.sessions != [] && s.worker == Start && s.listener == Starting && s.current.Some?
    requires Newest(s).tooLong
    ensures Do(s, WorkerRuns) == Some(Return(s, Failure(MESSAGE_TOO_LONG)))
  {
  }

  function Refused(s: State): State {
    Return(Opened(Called(s, true)), Failure(MESSAGE_TOO_LONG))
  }

  lemma RefusedRuns(s: State)
    requires Rests(s)
    ensures RunFrom(s, Call(true) + OPEN + [WorkerRuns]) == Some(Refused(s))
  {
    var called := Called(s, true);
    CallRuns(s, true);
    OpenRuns(called);
    Then(s, Call(true), called, OPEN, Opened(called));
    TooLong(Opened(called));
    Snoc(s, Call(true) + OPEN, WorkerRuns, Opened(called), Refused(s));
  }

  lemma RoundParks(s: State, n: nat)
    requires Parked(s, n)
    ensures Parked(Ended(Refused(s), MESSAGE_TOO_LONG), n + 1)
  {
    NextId(n);
  }

  lemma OneMoreSession(s: State, n: nat)
    requires Parked(s, n)
    ensures RunFrom(s, ROUND).Some? && Parked(RunFrom(s, ROUND).value, n + 1)
  {
    RefusedRuns(s);
    EndRuns(Refused(s));
    Then(s, Call(true) + OPEN + [WorkerRuns], Refused(s), END, Ended(Refused(s), MESSAGE_TOO_LONG));
    RoundParks(s, n);
  }

  lemma Park(n: nat) returns (acts: seq<Act>)
    requires n >= 1
    ensures After(acts).Some? && Parked(After(acts).value, n)
  {
    var first, s := FirstParked();
    forall x: State, k: nat
      ensures R.Advances(Do, ROUND, Parked, x, k)
    {
      if Parked(x, k) {
        OneMoreSession(x, k);
      }
    }
    acts := R.Iterate(Do, INIT, first, ROUND, Parked, n);
  }

  /** The session that bears the first one's name again is about to start. */
  predicate NamedAgain(s: State) {
    && s.fault == NoFault && s.worker == Start && s.listener == Starting && s.sessionLock == Free
    && s.current.Some? && s.current.value.name == NAME && NAME in s.sent && s.queue == []
    && s.fetcher == FetchLock(Abort(NAME)) && s.sessions != [] && !Newest(s).tooLong
  }

  lemma NameComesRound() returns (acts: seq<Act>, s: State)
    ensures After(acts) == Some(s) && NamedAgain(s) && s.mostEarly <= 1 && |s.sessions| == ID_WRAP + 1
  {
    acts := Park(ID_WRAP);
    s := After(acts).value;
    CounterComesRound(s);
    acts, s := SessionOpens(acts, s, false);
  }

  lemma CounterComesRound(s: State)
    requires Parked(s, ID_WRAP)
    ensures var t := Opened(Called(s, false));
            NamedAgain(t) && t.mostEarly == s.mostEarly && |t.sessions| == ID_WRAP + 1
  {
    assert (s.counter + 1) % ID_WRAP == 11;
  }

  /** It is handed the message left over from the first. */
  lemma HandedLeftover(s: State) returns (acts: seq<Act>, t: State)
    requires NamedAgain(s)
    ensures RunFrom(s, acts) == Some(t) && t.fault == NoFault && t.worker == PopFirst
    ensures t.queue == [Item(Abort(NAME), false)] && t.sessions == s.sessions && t.mostEarly == s.mostEarly
  {
    var waiting := s.(worker := PopFirst, told := s.told + [TellStart(NAME)], early := 0);
    var have := waiting.(fetcher := FetchHave(Abort(NAME)), sessionLock := HeldBy(Fetcher));
    t := waiting.(fetcher := FetchNotify, queue := [Item(Abort(NAME), false)]);
    assert PushItem([], Item(Abort(NAME), false)) == t.queue;
    Three(s, WorkerRuns, waiting, FetcherRuns, have, FetcherRuns, t);
    acts := [WorkerRuns] + [FetcherRuns] + [FetcherRuns];
  }

  lemma WrapFaults() returns (acts: seq<Act>)
    ensures After(acts).Some? && After(acts).value.fault == FirstNotAck
    ensures Within(After(acts).value, 1, ID_WRAP + 1)
  {
    var s;
    acts, s := NameComesRound();
    var rest, t := HandedLeftover(s);
    Then(INIT, acts, s, rest, t);
    PopFaults(t);
    Snoc(INIT, acts + rest, WorkerRuns, t, Do(t, WorkerRuns).value);
    acts := acts + rest + [WorkerRuns];
  }

  /** Some run of at most `m` sessions, each sent at most `b` messages before it takes its first, kills
      the process exactly when `b` exceeds the queue's limit of 20, or a message can be left over until
      a name comes round again after 2^32 sessions. */
  lemma FirstAckThreshold(b: nat, m: nat)
    ensures (exists acts: seq<Act> ::
               After(acts).Some? && Within(After(acts).value, b, m) && After(acts).value.fault != NoFault)
            <==> (m >= 1 && b > 20) || (m > 0x1_0000_0000 && b >= 1)
  {
    if m >= 1 && b > QUEUE_LIMIT {
      var acts := OverflowFaults();
      assert Within(After(acts).value, b, m);
    } else if m > ID_WRAP && b >= 1 {
      var acts := WrapFaults();
      assert Within(After(acts).value, b, m);
    } else {
      forall acts: seq<Act> | After(acts).Some? && Within(After(acts).value, b, m)
        ensures After(acts).value.fault == NoFault
      {
        SafeOtherwise(acts, b, m);
      }
    }
  }

  lemma SafeOtherwise(acts: seq<Act>, b: nat, m: nat)
    requires After(acts).Some? && Within(After(acts).value, b, m)
    requires !(m >= 1 && b > QUEUE_LIMIT) && !(m > ID_WRAP && b >= 1)
    ensures After(acts).value.fault == NoFault
  {
    EveryRunSound(acts);
    if b == 0 {
      SilenceNeverFaults(acts);
    } else if m >= 1 {
      WithinLimitNeverFaults(acts);
    }
  }
}
