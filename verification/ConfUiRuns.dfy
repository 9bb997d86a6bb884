/** Pieces that runs of the confirmation UI can be put together from: a prompt call, a session that
    opens or ends, a message on its way from the host. */
module ConfUiRuns {
  import opened Wrappers
  import opened ConfUiSession
  import R = Runs

  lemma Snoc(s: State, acts: seq<Act>, a: Act, mid: State, t: State)
    requires RunFrom(s, acts) == Some(mid) && Do(mid, a) == Some(t)
    ensures RunFrom(s, acts + [a]) == Some(t)
  {
    R.Snoc(Do, s, acts, a);
  }

  /** Three acts in a row. */
  lemma Three(s: State, a: Act, s1: State, b: Act, s2: State, c: Act, s3: State)
    requires Do(s, a) == Some(s1) && Do(s1, b) == Some(s2) && Do(s2, c) == Some(s3)
    ensures RunFrom(s, [a] + [b] + [c]) == Some(s3)
  {
    assert [] + [a] == [a];
    Snoc(s, [], a, s, s1);
    Snoc(s, [a], b, s1, s2);
    Snoc(s, [a] + [b], c, s2, s3);
  }

  lemma Then(s: State, first: seq<Act>, t: State, second: seq<Act>, u: State)
    requires RunFrom(s, first) == Some(t) && RunFrom(t, second) == Some(u)
    ensures RunFrom(s, first + second) == Some(u)
  {
    R.Concat(Do, s, first, second);
  }

  /** No session runs and nobody holds a lock. */
  predicate Rests(s: State) {
    && s.fault == NoFault && s.hal == Idle && s.worker == NoThread && s.listener == NoSession
    && s.stateLock == Free && s.sessionLock == Free
  }

  /** A prompt was called: its worker is about to run, the HAL waits. */
  function Called(s: State, long: bool): State {
    var id := (s.counter + 1) % ID_WRAP;
    s.(listener := Starting, counter := id, worker := LockSession, hal := PromptWait(false),
       sessions := s.sessions + [Session(id, false, long, [], None, [])])
  }

  function Call(long: bool): seq<Act> {
    ([CallPrompt(false, long)] + [HalRuns] + [HalRuns]) + [HalRuns] + [HalRuns]
  }

  lemma CallRuns(s: State, long: bool)
    requires Rests(s)
    ensures RunFrom(s, Call(long)) == Some(Called(s, long))
  {
    var s1 := s.(hal := PromptTry(false, long));
    var s2 := s1.(hal := PromptSwitch(false, long), stateLock := HeldBy(Hal));
    var s3 := s2.(hal := PromptSpawn(false, long));
    var s4 := Called(s, long).(hal := PromptCheck, stateLock := HeldBy(Hal));
    Three(s, CallPrompt(false, long), s1, HalRuns, s2, HalRuns, s3);
    var acts := [CallPrompt(false, long)] + [HalRuns] + [HalRuns];
    Snoc(s, acts, HalRuns, s3, s4);
    Snoc(s, acts + [HalRuns], HalRuns, s4, Called(s, long));
  }

  /** The worker made its session object and is about to send the start message. */
  function Opened(s: State): State
    requires s.sessions != []
  {
    s.(current := Some(Current(|s.sessions| - 1, MakeName(s.counter))), queue := [],
       worker := Start, stateLock := HeldBy(Worker))
  }

  const OPEN: seq<Act> := [WorkerRuns] + [WorkerRuns] + [WorkerRuns]

  lemma OpenRuns(s: State)
    requires s.fault == NoFault && s.worker == LockSession && s.listener == Starting && s.sessions != []
    requires s.stateLock == Free && s.sessionLock == Free
    ensures RunFrom(s, OPEN) == Some(Opened(s))
  {
    var s1 := s.(worker := MakeSession, sessionLock := HeldBy(Worker));
    var s2 := Opened(s).(worker := LockStart, stateLock := Free);
    Three(s, WorkerRuns, s1, WorkerRuns, s2, WorkerRuns, Opened(s));
  }

  /** The session ended without a success and its prompt call returned. */
  function Ended(s: State, rc: ResponseCode): State {
    s.(listener := NoSession, worker := NoThread, hal := Idle, promptResult := rc)
  }

  const END: seq<Act> := ([WorkerRuns] + [WorkerRuns] + [WorkerRuns]) + ([HalRuns] + [HalRuns] + [HalRuns])

  lemma EndRuns(s: State)
    requires s.fault == NoFault && s.worker.LockEnd? && s.listener == Starting && s.hal.PromptWait?
    requires s.stateLock == Free && s.sessions != []
    ensures RunFrom(s, END) == Some(Ended(s, s.worker.result.rc))
  {
    var r := s.worker.result;
    var s1 := s.(worker := End(r), stateLock := HeldBy(Worker));
    var s2 := s.(worker := NotifyEnd, listener := Terminating, promptResult := r.rc);
    var s3 := s2.(worker := Done, hal := PromptWait(true));
    Three(s, WorkerRuns, s1, WorkerRuns, s2, WorkerRuns, s3);
    var s4 := s3.(hal := PromptCheck, stateLock := HeldBy(Hal));
    var s5 := s4.(hal := PromptJoinNew);
    Three(s3, HalRuns, s4, HalRuns, s5, HalRuns, Ended(s, r.rc));
    Then(s, [WorkerRuns] + [WorkerRuns] + [WorkerRuns], s3, [HalRuns] + [HalRuns] + [HalRuns], Ended(s, r.rc));
  }

  lemma SessionOpens(acts: seq<Act>, s: State, long: bool) returns (more: seq<Act>, t: State)
    requires After(acts) == Some(s) && Rests(s)
    ensures t == Opened(Called(s, long)) && After(more) == Some(t)
  {
    var called := Called(s, long);
    CallRuns(s, long);
    OpenRuns(called);
    Then(INIT, acts, s, Call(long), called);
    Then(INIT, acts + Call(long), called, OPEN, Opened(called));
    more, t := acts + Call(long) + OPEN, Opened(called);
  }

  lemma SessionEnds(acts: seq<Act>, s: State) returns (more: seq<Act>, t: State)
    requires After(acts) == Some(s)
    requires s.fault == NoFault && s.worker.LockEnd? && s.listener == Starting && s.hal.PromptWait?
    requires s.stateLock == Free && s.sessions != []
    ensures t == Ended(s, s.worker.result.rc) && After(more) == Some(t)
  {
    t := Ended(s, s.worker.result.rc);
    EndRuns(s);
    Then(INIT, acts, s, END, t);
    more := acts + END;
  }

  /** One message travels from the host into the queue. */
  function Travel(m: Msg): seq<Act> {
    ([HostSends(m)] + [FetcherRuns] + [FetcherRuns]) + [FetcherRuns]
  }

  function Arrived(s: State, m: Msg): State
    requires HostMay(s, m)
  {
    HostSend(s, m).(fetcher := Receive, queue := PushItem(s.queue, Item(m, false)), hal := Notified(s.hal))
  }

  lemma TravelRuns(s: State, m: Msg)
    requires s.fault == NoFault && s.fetcher == Receive && s.sessionLock == Free && HostMay(s, m)
    requires s.current.Some? && s.current.value.name == m.sid
    ensures RunFrom(s, Travel(m)) == Some(Arrived(s, m))
  {
    var s1 := HostSend(s, m);
    var s2 := s1.(fetcher := FetchHave(m), sessionLock := HeldBy(Fetcher));
    var s3 := s1.(queue := PushItem(s.queue, Item(m, false)), fetcher := FetchNotify);
    Three(s, HostSends(m), s1, FetcherRuns, s2, FetcherRuns, s3);
    Snoc(s, [HostSends(m)] + [FetcherRuns] + [FetcherRuns], FetcherRuns, s3, Arrived(s, m));
  }

  // ---------- the first session ----------

  const NAME: string := MakeName(11)

  /** The first session awaits its first message, and `k` messages were sent to it. */
  predicate StillWaiting(s: State, k: nat) {
    && s.fault == NoFault && s.fetcher == Receive && s.sessionLock == Free && s.hal.PromptWait?
    && s.worker == PopFirst && s.listener == Starting && s.current == Some(Current(0, NAME))
    && s.sent == map[NAME := k] && s.early == s.mostEarly == k && |s.sessions| == 1 && s.counter == 11
  }

  lemma FirstSession() returns (acts: seq<Act>, s: State)
    ensures After(acts) == Some(s) && StillWaiting(s, 0) && s.queue == []
  {
    var ready;
    assert R.Run(Do, INIT, []) == Some(INIT);
    acts, ready := SessionOpens([], INIT, false);
    s := ready.(worker := PopFirst, told := [TellStart(NAME)], sent := map[NAME := 0]);
    assert Newest(ready) == Session(11, false, false, [], None, []);
    assert ready.sent[NAME := 0] == map[NAME := 0] && ready.told + [TellStart(NAME)] == s.told;
    Snoc(INIT, acts, WorkerRuns, ready, s);
    acts := acts + [WorkerRuns];
  }

  lemma ArrivalKeepsWaiting(s: State, k: nat, m: Msg)
    requires StillWaiting(s, k) && m.sid == NAME && (k == 0 ==> m.Ack?)
    ensures HostMay(s, m) && StillWaiting(Arrived(s, m), k + 1)
  {
    assert s.sent[NAME := s.sent[NAME] + 1] == map[NAME := k + 1];
  }

  lemma OneMore(acts: seq<Act>, s: State, k: nat, m: Msg) returns (more: seq<Act>, t: State)
    requires After(acts) == Some(s) && StillWaiting(s, k) && m.sid == NAME && (k == 0 ==> m.Ack?)
    ensures After(more) == Some(t) && StillWaiting(t, k + 1)
    ensures t.queue == PushItem(s.queue, Item(m, false)) && t.sessions == s.sessions
  {
    ArrivalKeepsWaiting(s, k, m);
    t := Arrived(s, m);
    TravelRuns(s, m);
    Then(INIT, acts, s, Travel(m), t);
    more := acts + Travel(m);
  }

  /** The host refuses the first session. */
  lemma FirstRefused() returns (acts: seq<Act>, s: State)
    ensures After(acts) == Some(s)
    ensures s.fault == NoFault && s.worker.LockEnd? && s.listener == Starting && s.hal.PromptWait?
    ensures s.stateLock == Free && s.sessionLock == Free && s.fetcher == Receive
    ensures s.sent == map[NAME := 1] && s.early == s.mostEarly == 1 && |s.sessions| == 1 && s.counter == 11
    ensures s.current == Some(Current(0, NAME))
  {
    var m, waiting := Ack(NAME, false, ""), INIT;
    acts, waiting := FirstSession();
    acts, waiting := OneMore(acts, waiting, 0, m);
    assert waiting.queue == [Item(m, false)];
    s := Return(Consume(waiting), Failure(StartError("")));
    RefusalTaken(waiting, m, s);
    Snoc(INIT, acts, WorkerRuns, waiting, s);
    acts := acts + [WorkerRuns];
  }

  lemma RefusalTaken(s: State, m: Msg, t: State)
    requires StillWaiting(s, 1) && m == Ack(NAME, false, "") && s.queue == [Item(m, false)]
    requires t == Return(Consume(s), Failure(StartError("")))
    ensures Do(s, WorkerRuns) == Some(t)
    ensures t.fault == NoFault && t.worker.LockEnd? && t.listener == Starting && t.hal.PromptWait?
    ensures t.stateLock == Free && t.sessionLock == Free && t.fetcher == Receive
    ensures t.sent == map[NAME := 1] && t.early == t.mostEarly == 1 && |t.sessions| == 1 && t.counter == 11
    ensures t.current == Some(Current(0, NAME))
  {
  }
}
