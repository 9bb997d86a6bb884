/** What every interleaving of the confirmation UI threads keeps. */
module ConfUiSafety {
  import opened Wrappers
  import opened Text
  import opened ConfUiSession
  import TSQ = ThreadSafeQueue

  // ---------- who holds which lock at which point ----------

  predicate HalHoldsState(h: HalPc) {
    h.PromptSwitch? || h.PromptJoinOld? || h.PromptSpawn? || h.PromptCheck? || h.PromptJoinNew?
    || h.DeliverCheck? || h.AbortBody?
  }

  predicate HalHoldsSession(h: HalPc) {
    h.DeliverFind? || h.DeliverLockState? || h.DeliverCheck? || h.DeliverWait? || h.DeliverNotify?
    || h.AbortFind? || h.AbortLockState? || h.AbortBody? || h.AbortNotify?
  }

  predicate WorkerHoldsState(w: WorkerPc) {
    w.Start? || w.PopFirst? || w.SetInteractive? || w.Decide? || w.End?
  }

  predicate LocksOk(stateLock: Lock, sessionLock: Lock, hal: HalPc, worker: WorkerPc, fetcher: FetcherPc) {
    && (stateLock == HeldBy(Hal) <==> HalHoldsState(hal))
    && (stateLock == HeldBy(Worker) <==> WorkerHoldsState(worker))
    && stateLock != HeldBy(Fetcher)
    && (sessionLock == HeldBy(Hal) <==> HalHoldsSession(hal))
    && (sessionLock == HeldBy(Worker) <==> worker == MakeSession)
    && (sessionLock == HeldBy(Fetcher) <==> fetcher.FetchHave?)
  }

  // ---------- the listener state as a function of the threads' positions ----------

  /** The start ack came back and was a success. */
  predicate Acked(x: Session) {
    x.consumed != [] && x.consumed[0].msg.Ack? && x.consumed[0].msg.success
  }

  predicate ListenerOk(listener: ListenerState, worker: WorkerPc) {
    match worker
    case NoThread => listener == NoSession
    case LockSession | MakeSession | LockStart | Start | PopFirst => listener == Starting
    case NotifySetup | LockInteractive | SetInteractive => listener == SetupDone
    case NotifyInteractive | PopInput | LockInput(_) | Decide(_) => listener == Interactive
    case LockEnd(_) | End(_) => listener == Interactive || listener == Starting
    case Callback(_) | NotifyEnd | Done => listener == Terminating
  }

  predicate HalOk(hal: HalPc, listener: ListenerState, worker: WorkerPc) {
    && (listener == Starting ==> hal == PromptCheck || hal.PromptWait?)
    && (hal.PromptSpawn? ==> listener == NoSession)
    && (hal.PromptJoinOld? || hal == PromptJoinNew ==> listener == Terminating)
    && (hal == PromptCheck || hal.PromptWait? ==> worker != NoThread)
  }

  /** Every waiting HAL call whose condition has come true is notified, or about to be. */
  predicate NoLostWakeup(hal: HalPc, listener: ListenerState, worker: WorkerPc) {
    && (hal == PromptWait(false) && listener != Starting ==> worker == NotifySetup || worker == NotifyEnd)
    && (hal.DeliverWait? && !hal.notified && listener != SetupDone ==> worker == NotifyInteractive)
  }

  // ---------- the session object and its queue ----------

  predicate HasObject(w: WorkerPc) {
    !(w.NoThread? || w.LockSession? || w.MakeSession?)
  }

  predicate ObjectOk(current: Option<Current>, worker: WorkerPc, sessions: seq<Session>) {
    && (HasObject(worker) ==> current.Some? && current.value.serial == |sessions| - 1)
    && (current.Some? ==>
          && current.value.serial < |sessions|
          && current.value.name == MakeName(sessions[current.value.serial].id)
          && (worker == LockSession || worker == MakeSession ==> current.value.serial < |sessions| - 1))
  }

  predicate QueueOk(queue: seq<Item>, current: Option<Current>, sessions: seq<Session>) {
    && |queue| <= QUEUE_LIMIT
    && (forall i | 0 <= i < |queue| :: ItemOk(queue[i], current, sessions))
  }

  /** A queued item bears the session's name; a local abort waits behind the start ack. */
  predicate ItemOk(item: Item, current: Option<Current>, sessions: seq<Session>) {
    && current.Some?
    && item.msg.sid == current.value.name
    && (item.local ==>
          && item.msg.Abort?
          && current.value.serial < |sessions|
          && sessions[current.value.serial].consumed != [])
  }

  // ---------- history ----------

  /** The identifiers follow the 32-bit counter. */
  predicate IdsOk(counter: nat, sessions: seq<Session>) {
    && counter == (FIRST_COUNTER + |sessions|) % ID_WRAP
    && forall n | 0 <= n < |sessions| :: sessions[n].id == (FIRST_COUNTER + 1 + n) % ID_WRAP
  }

  /** Whatever a session consumed bore its own name; the first message was not a local abort. */
  predicate OwnMessages(x: Session) {
    && (forall i | 0 <= i < |x.consumed| :: x.consumed[i].msg.sid == MakeName(x.id))
    && (forall i | 0 <= i < |x.consumed| :: x.consumed[i].local ==> x.consumed[i].msg.Abort?)
    && (x.consumed != [] ==> !x.consumed[0].local)
  }

  /** The result is the one the consumed messages call for. */
  predicate ResultFits(x: Session, r: Result) {
    if x.tooLong then x.consumed == [] && r == Failure(MESSAGE_TOO_LONG)
    else if Acked(x) then |x.consumed| == 2 && r == Verdict(x.consumed[1].msg)
    else |x.consumed| == 1 && x.consumed[0].msg.Ack? && r == Failure(StartError(x.consumed[0].msg.status))
  }

  /** A session that is over: result fixed, callback made exactly as promised. */
  predicate Closed(x: Session) {
    && OwnMessages(x)
    && x.result.Some?
    && (!x.tooLong ==> x.consumed != [])
    && ResultFits(x, x.result.value)
    && x.calls == if Acked(x) && x.hasCallback then [x.result.value] else []
  }

  predicate Fresh(x: Session) {
    x.consumed == [] && x.result == None && x.calls == []
  }

  predicate InDialog(x: Session) {
    OwnMessages(x) && Acked(x) && x.result == None && x.calls == [] && !x.tooLong
  }

  predicate RunningOk(x: Session, worker: WorkerPc, listener: ListenerState, promptResult: ResponseCode) {
    match worker
    case NoThread | Done => Closed(x)
    case LockSession | MakeSession | LockStart | Start => Fresh(x)
    case PopFirst => Fresh(x) && !x.tooLong
    case NotifySetup | LockInteractive | SetInteractive | NotifyInteractive | PopInput =>
      InDialog(x) && |x.consumed| == 1
    case LockInput(item) => InDialog(x) && |x.consumed| == 2 && x.consumed[1] == item
    case Decide(item) => InDialog(x) && |x.consumed| == 2 && x.consumed[1] == item
    case LockEnd(r) => Reported(x, r) && listener == (if Acked(x) then Interactive else Starting)
    case End(r) => Reported(x, r) && listener == (if Acked(x) then Interactive else Starting)
    case Callback(r) => Reported(x, r) && Acked(x) && x.hasCallback && promptResult == r.rc
    case NotifyEnd => Closed(x)
  }

  predicate Reported(x: Session, r: Result) {
    && OwnMessages(x) && x.result == Some(r) && x.calls == []
    && (!x.tooLong ==> x.consumed != []) && ResultFits(x, r)
  }

  predicate PastOk(sessions: seq<Session>) {
    forall n | 0 <= n < |sessions| - 1 :: Closed(sessions[n])
  }

  predicate DataInv(s: State) {
    && ObjectOk(s.current, s.worker, s.sessions)
    && QueueOk(s.queue, s.current, s.sessions)
    && IdsOk(s.counter, s.sessions)
    && PastOk(s.sessions)
    && (s.worker != NoThread ==> s.sessions != [])
    && (s.sessions != [] ==> RunningOk(Newest(s), s.worker, s.listener, s.promptResult))
  }

  /** The threads' positions, the locks and the listener state. */
  predicate ControlInv(s: State) {
    && LocksOk(s.stateLock, s.sessionLock, s.hal, s.worker, s.fetcher)
    && ListenerOk(s.listener, s.worker)
    && HalOk(s.hal, s.listener, s.worker)
    && NoLostWakeup(s.hal, s.listener, s.worker)
  }

  predicate Inv(s: State) {
    ControlInv(s) && DataInv(s)
  }

  /** The one fault left is the CHECK on the first message, which a host can provoke. */
  predicate Sound(s: State) {
    if s.fault == NoFault then Inv(s) else s.fault == FirstNotAck && Halted(s)
  }

  /** The history left behind by that CHECK: the running session reported nothing. */
  predicate Halted(s: State) {
    && IdsOk(s.counter, s.sessions) && PastOk(s.sessions) && s.sessions != []
    && NothingReported(Newest(s))
  }

  predicate NothingReported(x: Session) {
    OwnMessages(x) && !Acked(x) && x.result == None && x.calls == []
  }

  // ---------- frames: what DataInv needs to survive a step ----------

  /** A step of the HAL's deliver and abort calls or of the fetcher: data kept but for the queue. */
  predicate SameData(s: State, t: State) {
    && t.current == s.current && t.worker == s.worker && t.sessions == s.sessions
    && t.counter == s.counter && t.listener == s.listener && t.promptResult == s.promptResult
    && t.fault == s.fault
  }

  /** A step of the worker: of the history, only the newest session changes, never its id. */
  predicate OnlyNewest(s: State, t: State) {
    && |t.sessions| == |s.sessions| > 0
    && t.sessions[..|s.sessions| - 1] == s.sessions[..|s.sessions| - 1]
    && Newest(t).id == Newest(s).id
    && t.counter == s.counter
  }

  /** The HAL joins a finished worker. */
  predicate Joined(s: State, t: State) {
    && s.worker == Done && t.worker == NoThread && t.fault == s.fault
    && t.current == s.current && t.sessions == s.sessions && t.counter == s.counter
  }

  /** The HAL starts a worker for a new session. */
  predicate Spawned(s: State, t: State) {
    && s.worker == NoThread && t.worker == LockSession && t.fault == s.fault
    && t.current == s.current && t.counter == (s.counter + 1) % ID_WRAP
    && |t.sessions| == |s.sessions| + 1 && t.sessions[..|s.sessions|] == s.sessions
    && Newest(t).id == t.counter && Fresh(Newest(t))
  }

  lemma SameDataKeeps(s: State, t: State)
    requires DataInv(s) && SameData(s, t) && QueueOk(t.queue, t.current, t.sessions)
    ensures DataInv(t)
  {
  }

  lemma JoinedKeeps(s: State, t: State)
    requires DataInv(s) && Joined(s, t) && t.queue == s.queue
    ensures DataInv(t)
  {
  }

  lemma SpawnedKeeps(s: State, t: State)
    requires DataInv(s) && Spawned(s, t) && t.queue == s.queue
    ensures DataInv(t)
  {
    SpawnedHistory(s, t);
    QueueStaysOk(s.queue, s.current, s.sessions, t.sessions);
    SpawnedObject(s, t);
  }

  lemma SpawnedHistory(s: State, t: State)
    requires IdsOk(s.counter, s.sessions) && Spawned(s, t)
    ensures IdsOk(t.counter, t.sessions) && s.sessions <= t.sessions
  {
    var n := |s.sessions|;
    assert forall i | 0 <= i < n :: t.sessions[i] == t.sessions[..n][i];
    NextId(n);
  }

  lemma SpawnedObject(s: State, t: State)
    requires ObjectOk(s.current, s.worker, s.sessions) && Spawned(s, t)
    ensures ObjectOk(t.current, t.worker, t.sessions)
  {
    assert forall i | 0 <= i < |s.sessions| :: t.sessions[i] == t.sessions[..|s.sessions|][i];
  }

  lemma QueueStaysOk(queue: seq<Item>, current: Option<Current>, sessions: seq<Session>, more: seq<Session>)
    requires QueueOk(queue, current, sessions) && sessions <= more
    ensures QueueOk(queue, current, more)
  {
    forall i | 0 <= i < |queue|
      ensures ItemOk(queue[i], current, more)
    {
      assert ItemOk(queue[i], current, sessions);
    }
  }

  lemma NextId(n: nat)
    ensures ((FIRST_COUNTER + n) % ID_WRAP + 1) % ID_WRAP == (FIRST_COUNTER + n + 1) % ID_WRAP
  {
  }

  lemma OnlyNewestKeeps(s: State, t: State)
    requires IdsOk(s.counter, s.sessions) && PastOk(s.sessions) && OnlyNewest(s, t)
    ensures IdsOk(t.counter, t.sessions) && PastOk(t.sessions)
  {
    forall n | 0 <= n < |t.sessions| - 1
      ensures t.sessions[n] == s.sessions[n]
    {
      assert t.sessions[n] == t.sessions[..|s.sessions| - 1][n];
      assert s.sessions[n] == s.sessions[..|s.sessions| - 1][n];
    }
  }

  lemma PushKeeps(queue: seq<Item>, item: Item, current: Option<Current>, sessions: seq<Session>)
    requires QueueOk(queue, current, sessions) && ItemOk(item, current, sessions)
    ensures QueueOk(PushItem(queue, item), current, sessions)
  {
    var kept, all := PushItem(queue, item), queue + [item];
    var dropped := PushDrops(queue, item);
    forall i | 0 <= i < |kept|
      ensures ItemOk(kept[i], current, sessions)
    {
      assert kept[i] == all[|dropped| + i];
      if |dropped| + i < |queue| {
        assert ItemOk(queue[|dropped| + i], current, sessions);
      }
    }
  }

  /** A push puts the item at the back and drops some of the front, or nothing. */
  lemma PushDrops(queue: seq<Item>, item: Item) returns (dropped: seq<Item>)
    requires |queue| <= QUEUE_LIMIT
    ensures queue + [item] == dropped + PushItem(queue, item) && |PushItem(queue, item)| <= QUEUE_LIMIT
  {
    TSQ.HalfDroppingPush(queue, QUEUE_LIMIT, item);
    var kept, all := PushItem(queue, item), queue + [item];
    dropped := all[..|all| - |kept|];
  }

  // ---------- every step keeps it ----------

  lemma PromptControl(s: State, t: State)
    requires s.fault == NoFault && ControlInv(s) && HalPrompt(s) == Some(t)
    ensures t.fault == NoFault && ControlInv(t)
  {
    if s.hal.PromptTry? || s.hal.PromptSwitch? {
      PromptEnters(s, t);
    } else {
      PromptSpawns(s, t);
    }
  }

  lemma PromptEnters(s: State, t: State)
    requires s.fault == NoFault && ControlInv(s) && HalPrompt(s) == Some(t)
    requires s.hal.PromptTry? || s.hal.PromptSwitch?
    ensures t.fault == NoFault && ControlInv(t)
  {
  }

  lemma PromptSpawns(s: State, t: State)
    requires s.fault == NoFault && ControlInv(s) && HalPrompt(s) == Some(t)
    requires !(s.hal.PromptTry? || s.hal.PromptSwitch?)
    ensures t.fault == NoFault && ControlInv(t)
  {
  }

  lemma AwaitControl(s: State, t: State)
    requires s.fault == NoFault && ControlInv(s) && HalAwaitSetup(s) == Some(t)
    ensures t.fault == NoFault && ControlInv(t)
  {
    if s.hal == PromptCheck {
      AwaitChecks(s, t);
    } else {
      AwaitWakes(s, t);
    }
  }

  lemma AwaitChecks(s: State, t: State)
    requires s.fault == NoFault && ControlInv(s) && s.hal == PromptCheck && HalAwaitSetup(s) == Some(t)
    ensures t.fault == NoFault && ControlInv(t)
  {
  }

  lemma AwaitWakes(s: State, t: State)
    requires s.fault == NoFault && ControlInv(s) && s.hal != PromptCheck && HalAwaitSetup(s) == Some(t)
    ensures t.fault == NoFault && ControlInv(t)
  {
  }

  lemma DeliverControl(s: State, t: State)
    requires s.fault == NoFault && ControlInv(s) && HalDeliver(s) == Some(t)
    ensures t.fault == NoFault && ControlInv(t)
  {
    if s.hal.DeliverLockSession? || s.hal.DeliverFind? || s.hal.DeliverLockState? {
      DeliverEnters(s, t);
    } else {
      DeliverActs(s, t);
    }
  }

  lemma DeliverEnters(s: State, t: State)
    requires s.fault == NoFault && ControlInv(s) && HalDeliver(s) == Some(t)
    requires s.hal.DeliverLockSession? || s.hal.DeliverFind? || s.hal.DeliverLockState?
    ensures t.fault == NoFault && ControlInv(t)
  {
  }

  lemma DeliverActs(s: State, t: State)
    requires s.fault == NoFault && ControlInv(s) && HalDeliver(s) == Some(t)
    requires !(s.hal.DeliverLockSession? || s.hal.DeliverFind? || s.hal.DeliverLockState?)
    ensures t.fault == NoFault && ControlInv(t)
  {
  }

  lemma AbortControl(s: State, t: State)
    requires s.fault == NoFault && ControlInv(s) && HalAbort(s) == Some(t)
    ensures t.fault == NoFault && ControlInv(t)
  {
    if s.hal.AbortLockSession? || s.hal.AbortFind? || s.hal.AbortLockState? {
      AbortEnters(s, t);
    } else {
      AbortActs(s, t);
    }
  }

  lemma AbortEnters(s: State, t: State)
    requires s.fault == NoFault && ControlInv(s) && HalAbort(s) == Some(t)
    requires s.hal.AbortLockSession? || s.hal.AbortFind? || s.hal.AbortLockState?
    ensures t.fault == NoFault && ControlInv(t)
  {
  }

  lemma AbortActs(s: State, t: State)
    requires s.fault == NoFault && ControlInv(s) && HalAbort(s) == Some(t)
    requires !(s.hal.AbortLockSession? || s.hal.AbortFind? || s.hal.AbortLockState?)
    ensures t.fault == NoFault && ControlInv(t)
  {
  }

  lemma FetcherControl(s: State, t: State)
    requires s.fault == NoFault && ControlInv(s) && FetcherStep(s) == Some(t)
    ensures t.fault == NoFault && ControlInv(t)
  {
    match s.fetcher
    case FetchLock(_) => FetcherEnters(s, t);
    case FetchHave(_) => FetcherLeaves(s, t);
    case FetchNotify =>
      assert ControlInv(s.(hal := Notified(s.hal)));
    case _ =>
  }

  lemma FetcherEnters(s: State, t: State)
    requires ControlInv(s) && s.fetcher.FetchLock? && FetcherStep(s) == Some(t)
    ensures t.fault == s.fault && ControlInv(t)
  {
  }

  lemma FetcherLeaves(s: State, t: State)
    requires ControlInv(s) && s.fetcher.FetchHave? && FetcherStep(s) == Some(t)
    ensures t.fault == s.fault && ControlInv(t)
  {
  }

  lemma PromptData(s: State, t: State)
    requires s.fault == NoFault && HalPrompt(s) == Some(t)
    requires HalOk(s.hal, s.listener, s.worker) && ListenerOk(s.listener, s.worker)
    ensures t.queue == s.queue && (SameData(s, t) || Joined(s, t) || Spawned(s, t))
  {
  }

  lemma AwaitData(s: State, t: State)
    requires s.fault == NoFault && HalAwaitSetup(s) == Some(t)
    requires HalOk(s.hal, s.listener, s.worker) && ListenerOk(s.listener, s.worker)
    ensures t.queue == s.queue && (SameData(s, t) || Joined(s, t))
  {
  }

  lemma DeliverData(s: State, t: State)
    requires s.fault == NoFault && HalDeliver(s) == Some(t)
    ensures SameData(s, t) && t.queue == s.queue
  {
  }

  lemma AbortData(s: State, t: State)
    requires s.fault == NoFault && ListenerOk(s.listener, s.worker) && DataInv(s) && HalAbort(s) == Some(t)
    ensures SameData(s, t) && QueueOk(t.queue, t.current, t.sessions)
  {
    if s.hal == AbortBody && Live(s.listener) && s.current.Some? {
      LocalAbortOk(s);
    }
  }

  lemma LocalAbortOk(s: State)
    requires Live(s.listener) && ListenerOk(s.listener, s.worker) && DataInv(s) && s.current.Some?
    ensures QueueOk(PushItem(s.queue, Item(Abort(s.current.value.name), true)), s.current, s.sessions)
  {
    PushKeeps(s.queue, Item(Abort(s.current.value.name), true), s.current, s.sessions);
  }

  lemma FetcherData(s: State, t: State)
    requires s.fault == NoFault && DataInv(s) && FetcherStep(s) == Some(t)
    ensures SameData(s, t) && QueueOk(t.queue, t.current, t.sessions)
  {
    if s.fetcher.FetchHave? && s.current.Some? && s.current.value.name == s.fetcher.msg.sid {
      PushKeeps(s.queue, Item(s.fetcher.msg, false), s.current, s.sessions);
    }
  }

  lemma OpeningControl(s: State, t: State)
    requires s.fault == NoFault && ControlInv(s) && s.sessions != [] && WorkerOpening(s) == Some(t)
    ensures t.fault == NoFault && ControlInv(t)
  {
  }

  lemma OpeningObject(s: State, t: State)
    requires s.fault == NoFault && s.sessions != [] && WorkerOpening(s) == Some(t)
    requires ListenerOk(s.listener, s.worker) && DataInv(s)
    ensures ObjectOk(t.current, t.worker, t.sessions) && QueueOk(t.queue, t.current, t.sessions) && OnlyNewest(s, t)
  {
  }

  lemma OpeningRunning(s: State, t: State)
    requires s.fault == NoFault && s.sessions != [] && WorkerOpening(s) == Some(t)
    requires ListenerOk(s.listener, s.worker) && RunningOk(Newest(s), s.worker, s.listener, s.promptResult)
    ensures t.sessions != [] && RunningOk(Newest(t), t.worker, t.listener, t.promptResult)
  {
  }

  lemma StartControl(s: State, t: State)
    requires s.fault == NoFault && ControlInv(s) && s.current.Some? && s.sessions != [] && WorkerStart(s) == Some(t)
    ensures t.fault == FirstNotAck || (t.fault == NoFault && ControlInv(t))
  {
    if s.worker == Start {
      SendsStart(s, t);
    } else {
      TakesFirst(s, t);
    }
  }

  lemma SendsStart(s: State, t: State)
    requires s.fault == NoFault && ControlInv(s) && s.current.Some? && s.sessions != [] && WorkerStart(s) == Some(t)
    requires s.worker == Start
    ensures t.fault == FirstNotAck || (t.fault == NoFault && ControlInv(t))
  {
  }

  lemma TakesFirst(s: State, t: State)
    requires s.fault == NoFault && ControlInv(s) && s.current.Some? && s.sessions != [] && WorkerStart(s) == Some(t)
    requires !(s.worker == Start)
    ensures t.fault == FirstNotAck || (t.fault == NoFault && ControlInv(t))
  {
  }

  lemma StartObject(s: State, t: State)
    requires s.fault == NoFault && s.sessions != [] && WorkerStart(s) == Some(t)
    requires ListenerOk(s.listener, s.worker) && DataInv(s)
    ensures ObjectOk(t.current, t.worker, t.sessions) && QueueOk(t.queue, t.current, t.sessions) && OnlyNewest(s, t)
  {
    if s.worker == PopFirst {
      FirstObject(s, t);
    }
  }

  lemma FirstObject(s: State, t: State)
    requires s.sessions != [] && s.worker == PopFirst && WorkerStart(s) == Some(t)
    requires ObjectOk(s.current, s.worker, s.sessions) && QueueOk(s.queue, s.current, s.sessions)
    ensures ObjectOk(t.current, t.worker, t.sessions) && QueueOk(t.queue, t.current, t.sessions) && OnlyNewest(s, t)
  {
  }

  lemma StartRunning(s: State, t: State)
    requires s.fault == NoFault && s.sessions != [] && WorkerStart(s) == Some(t)
    requires ListenerOk(s.listener, s.worker) && RunningOk(Newest(s), s.worker, s.listener, s.promptResult)
    requires ObjectOk(s.current, s.worker, s.sessions) && QueueOk(s.queue, s.current, s.sessions)
    ensures t.sessions != []
    ensures t.fault == NoFault ==> RunningOk(Newest(t), t.worker, t.listener, t.promptResult)
    ensures t.fault != NoFault ==> NothingReported(Newest(t))
  {
    if s.worker == PopFirst {
      assert ItemOk(s.queue[0], s.current, s.sessions);
      FirstRunning(s, t);
    }
  }

  lemma FirstRunning(s: State, t: State)
    requires s.fault == NoFault && s.sessions != [] && s.worker == PopFirst && WorkerStart(s) == Some(t)
    requires ListenerOk(s.listener, s.worker) && Fresh(Newest(s)) && !Newest(s).tooLong && s.queue != []
    requires s.queue[0].msg.sid == MakeName(Newest(s).id) && !s.queue[0].local
    ensures t.sessions != []
    ensures t.fault == NoFault ==> RunningOk(Newest(t), t.worker, t.listener, t.promptResult)
    ensures t.fault != NoFault ==> NothingReported(Newest(t))
  {
    var x, y := Newest(s), Newest(t);
    assert y.consumed == x.consumed + [s.queue[0]];
    FirstTaken(x, y, s.queue[0]);
  }

  /** The session took its first message. */
  lemma FirstTaken(x: Session, y: Session, item: Item)
    requires Fresh(x) && y.consumed == x.consumed + [item] && y.id == x.id
    requires item.msg.sid == MakeName(x.id) && !item.local
    ensures OwnMessages(y) && |y.consumed| == 1 && y.consumed[0] == item
  {
  }

  lemma GraceControl(s: State, t: State)
    requires s.fault == NoFault && ControlInv(s) && s.sessions != [] && WorkerGrace(s) == Some(t)
    ensures t.fault == NoFault && ControlInv(t)
  {
  }

  lemma GraceObject(s: State, t: State)
    requires s.fault == NoFault && s.sessions != [] && WorkerGrace(s) == Some(t)
    requires ListenerOk(s.listener, s.worker) && DataInv(s)
    ensures ObjectOk(t.current, t.worker, t.sessions) && QueueOk(t.queue, t.current, t.sessions) && OnlyNewest(s, t)
  {
  }

  lemma GraceRunning(s: State, t: State)
    requires s.fault == NoFault && s.sessions != [] && WorkerGrace(s) == Some(t)
    requires ListenerOk(s.listener, s.worker) && RunningOk(Newest(s), s.worker, s.listener, s.promptResult)
    ensures t.sessions != [] && RunningOk(Newest(t), t.worker, t.listener, t.promptResult)
  {
  }

  lemma InputControl(s: State, t: State)
    requires s.fault == NoFault && ControlInv(s) && s.sessions != [] && WorkerInput(s) == Some(t)
    ensures t.fault == NoFault && ControlInv(t)
  {
  }

  lemma InputObject(s: State, t: State)
    requires s.fault == NoFault && s.sessions != [] && WorkerInput(s) == Some(t)
    requires ListenerOk(s.listener, s.worker) && DataInv(s)
    ensures ObjectOk(t.current, t.worker, t.sessions) && QueueOk(t.queue, t.current, t.sessions) && OnlyNewest(s, t)
  {
  }

  lemma InputRunning(s: State, t: State)
    requires s.fault == NoFault && s.sessions != [] && WorkerInput(s) == Some(t)
    requires ListenerOk(s.listener, s.worker) && RunningOk(Newest(s), s.worker, s.listener, s.promptResult)
    requires ObjectOk(s.current, s.worker, s.sessions) && QueueOk(s.queue, s.current, s.sessions)
    ensures t.sessions != [] && RunningOk(Newest(t), t.worker, t.listener, t.promptResult)
  {
  }

  lemma ClosingControl(s: State, t: State)
    requires s.fault == NoFault && ControlInv(s) && s.sessions != [] && WorkerClosing(s) == Some(t)
    ensures t.fault == NoFault && ControlInv(t)
  {
    if s.worker.LockEnd? || s.worker.End? {
      Ends(s, t);
    } else {
      Reports(s, t);
    }
  }

  lemma Ends(s: State, t: State)
    requires s.fault == NoFault && ControlInv(s) && s.sessions != [] && WorkerClosing(s) == Some(t)
    requires s.worker.LockEnd? || s.worker.End?
    ensures t.fault == NoFault && ControlInv(t)
  {
  }

  lemma Reports(s: State, t: State)
    requires s.fault == NoFault && ControlInv(s) && s.sessions != [] && WorkerClosing(s) == Some(t)
    requires !(s.worker.LockEnd? || s.worker.End?)
    ensures t.fault == NoFault && ControlInv(t)
  {
  }

  lemma ClosingObject(s: State, t: State)
    requires s.fault == NoFault && s.sessions != [] && WorkerClosing(s) == Some(t)
    requires ListenerOk(s.listener, s.worker) && DataInv(s)
    ensures ObjectOk(t.current, t.worker, t.sessions) && QueueOk(t.queue, t.current, t.sessions) && OnlyNewest(s, t)
  {
  }

  lemma ClosingRunning(s: State, t: State)
    requires s.fault == NoFault && s.sessions != [] && WorkerClosing(s) == Some(t)
    requires ListenerOk(s.listener, s.worker) && RunningOk(Newest(s), s.worker, s.listener, s.promptResult)
    ensures t.sessions != [] && RunningOk(Newest(t), t.worker, t.listener, t.promptResult)
  {
    if s.worker.LockEnd? || s.worker.End? {
      EndsRunning(s, t);
    } else if s.worker.Callback? {
      CallsBack(s, t);
    }
  }

  lemma EndsRunning(s: State, t: State)
    requires s.sessions != [] && (s.worker.LockEnd? || s.worker.End?) && WorkerClosing(s) == Some(t)
    requires ListenerOk(s.listener, s.worker) && RunningOk(Newest(s), s.worker, s.listener, s.promptResult)
    ensures t.sessions != [] && RunningOk(Newest(t), t.worker, t.listener, t.promptResult)
  {
  }

  lemma CallsBack(s: State, t: State)
    requires s.sessions != [] && s.worker.Callback? && WorkerClosing(s) == Some(t)
    requires RunningOk(Newest(s), s.worker, s.listener, s.promptResult)
    ensures t.sessions != [] && RunningOk(Newest(t), t.worker, t.listener, t.promptResult)
  {
    assert s.worker.result.(rc := s.promptResult) == s.worker.result;
  }

  lemma HalKeeps(s: State, t: State)
    requires Inv(s) && s.fault == NoFault && HalStep(s) == Some(t)
    ensures t.fault == NoFault && Inv(t)
  {
    if HalPrompt(s) == Some(t) {
      PromptControl(s, t);
      PromptData(s, t);
      if SameData(s, t) {
        SameDataKeeps(s, t);
      } else if Joined(s, t) {
        JoinedKeeps(s, t);
      } else {
        SpawnedKeeps(s, t);
      }
    } else if HalAwaitSetup(s) == Some(t) {
      AwaitControl(s, t);
      AwaitData(s, t);
      if SameData(s, t) {
        SameDataKeeps(s, t);
      } else {
        JoinedKeeps(s, t);
      }
    } else if HalDeliver(s) == Some(t) {
      DeliverControl(s, t);
      DeliverData(s, t);
      SameDataKeeps(s, t);
    } else {
      AbortControl(s, t);
      AbortData(s, t);
      SameDataKeeps(s, t);
    }
  }

  lemma WorkerKeeps(s: State, t: State)
    requires Inv(s) && s.fault == NoFault && s.sessions != [] && WorkerStep(s) == Some(t)
    ensures Sound(t)
  {
    if WorkerOpening(s) == Some(t) {
      OpeningControl(s, t);
      OpeningObject(s, t);
      OpeningRunning(s, t);
    } else if WorkerStart(s) == Some(t) {
      StartControl(s, t);
      StartObject(s, t);
      StartRunning(s, t);
    } else if WorkerGrace(s) == Some(t) {
      GraceControl(s, t);
      GraceObject(s, t);
      GraceRunning(s, t);
    } else if WorkerInput(s) == Some(t) {
      InputControl(s, t);
      InputObject(s, t);
      InputRunning(s, t);
    } else {
      ClosingControl(s, t);
      ClosingObject(s, t);
      ClosingRunning(s, t);
    }
    OnlyNewestKeeps(s, t);
  }

  predicate FromOutside(a: Act) {
    !a.HalRuns? && !a.WorkerRuns? && !a.FetcherRuns?
  }

  /** A client call, a spurious wakeup or an arriving message. */
  lemma EnvironmentData(s: State, a: Act, t: State)
    requires FromOutside(a) && Do(s, a) == Some(t)
    ensures SameData(s, t) && t.queue == s.queue && t.fault == NoFault
    ensures t.stateLock == s.stateLock && t.sessionLock == s.sessionLock
    ensures || (s.hal == Idle && t.fetcher == s.fetcher
                && (t.hal.PromptTry? || t.hal.DeliverLockSession? || t.hal.AbortLockSession?))
            || (t.hal == Notified(s.hal) && t.fetcher == s.fetcher)
            || (t.hal == s.hal && s.fetcher == Receive && !t.fetcher.FetchHave?)
  {
  }

  lemma EnvironmentControl(s: State, a: Act, t: State)
    requires ControlInv(s) && FromOutside(a) && Do(s, a) == Some(t)
    ensures ControlInv(t)
  {
    EnvironmentData(s, a, t);
  }

  lemma EnvironmentKeeps(s: State, a: Act, t: State)
    requires Inv(s) && FromOutside(a) && Do(s, a) == Some(t)
    ensures t.fault == NoFault && Inv(t)
  {
    EnvironmentData(s, a, t);
    EnvironmentControl(s, a, t);
    SameDataKeeps(s, t);
  }

  lemma FetcherKeeps(s: State, t: State)
    requires Inv(s) && s.fault == NoFault && FetcherStep(s) == Some(t)
    ensures t.fault == NoFault && Inv(t)
  {
    FetcherControl(s, t);
    FetcherData(s, t);
    SameDataKeeps(s, t);
  }

  lemma DoKeeps(s: State, a: Act, t: State)
    requires Sound(s) && Do(s, a) == Some(t)
    ensures Sound(t)
  {
    match a
    case HalRuns => HalKeeps(s, t);
    case WorkerRuns => WorkerKeeps(s, t);
    case FetcherRuns => FetcherKeeps(s, t);
    case _ => EnvironmentKeeps(s, a, t);
  }

  /** Every state of every run is sound: no `std::thread` misuse (so never a second worker), no
      CHECK on the listener state, no session object destroyed while live. */
  lemma {:induction false} EveryRunSound(acts: seq<Act>)
    requires After(acts).Some?
    ensures Sound(After(acts).value)
    decreases |acts|
  {
    if acts != [] {
      var before := acts[..|acts| - 1];
      EveryRunSound(before);
      DoKeeps(After(before).value, acts[|acts| - 1], After(acts).value);
    }
  }

  // ---------- the shapes of the threads' steps ----------

  lemma HalShape(s: State, t: State)
    requires Inv(s) && s.fault == NoFault && HalStep(s) == Some(t)
    ensures SameData(s, t) || Joined(s, t) || Spawned(s, t)
  {
    if HalPrompt(s) == Some(t) {
      PromptData(s, t);
    } else if HalAwaitSetup(s) == Some(t) {
      AwaitData(s, t);
    } else if HalDeliver(s) == Some(t) {
      DeliverData(s, t);
    } else {
      AbortData(s, t);
    }
  }

  lemma WorkerOnlyNewest(s: State, t: State)
    requires Inv(s) && s.fault == NoFault && s.sessions != [] && WorkerStep(s) == Some(t)
    ensures OnlyNewest(s, t)
  {
    if WorkerOpening(s) == Some(t) {
      OpeningObject(s, t);
    } else if WorkerStart(s) == Some(t) {
      StartObject(s, t);
    } else if WorkerGrace(s) == Some(t) {
      GraceObject(s, t);
    } else if WorkerInput(s) == Some(t) {
      InputObject(s, t);
    } else {
      ClosingObject(s, t);
    }
  }

  // ---------- the promises, read off the invariant ----------

  /** The session's worker has finished. */
  predicate Over(s: State, n: nat)
    requires n < |s.sessions|
  {
    n < |s.sessions| - 1 || s.worker == NoThread || s.worker == Done
  }

  /** An OK result is owed to a `user_confirm` response that the host sent under the session's own
      name, after a successful start ack, with exactly that response's message and signature. */
  predicate Earned(x: Session, r: Result) {
    && |x.consumed| == 2
    && x.consumed[0].msg.Ack? && x.consumed[0].msg.success
    && x.consumed[1] == Item(Respond(MakeName(x.id), "user_confirm", r.token, r.message), false)
  }

  /** The result a session owes for the messages it consumed: its own refusal if the prompt was too long;
      the code of the host's refusal if the start ack was one; otherwise what its second message says. */
  predicate Due(x: Session, r: Result) {
    && (x.tooLong ==> x.consumed == [] && r == Result(MESSAGE_TOO_LONG, "", ""))
    && (!x.tooLong ==> x.consumed != [] && x.consumed[0].msg.Ack?)
    && (!x.tooLong && x.consumed[0].msg.success ==> |x.consumed| == 2 && Answers(x.consumed[1].msg, r))
    && (!x.tooLong && !x.consumed[0].msg.success ==> |x.consumed| == 1 && Refuses(x.consumed[0].msg.status, r))
  }

  predicate Answers(msg: Msg, r: Result) {
    match msg
    case Abort(_) => r == Result(ABORTED, "", "")
    case Ack(_, _, _) => r == Result(SYSTEM_ERROR, "", "")
    case Respond(_, response, sign, message) =>
      && (response == "user_confirm" ==> r == Result(OK, message, sign))
      && (response == "user_cancel" ==> r == Result(CANCELED, "", ""))
      && (response != "user_confirm" && response != "user_cancel" ==> r == Result(SYSTEM_ERROR, "", ""))
  }

  predicate Refuses(status: string, r: Result) {
    && r.message == "" && r.token == ""
    && (status == "msg_too_long_error" ==> r.rc == MESSAGE_TOO_LONG)
    && (status == "msg_incorrect_utf8" ==> r.rc == MALFORMED_UTF8)
    && (status != "msg_too_long_error" && status != "msg_incorrect_utf8" ==> r.rc == SYSTEM_ERROR)
  }

  lemma ResultIsDue(x: Session, r: Result)
    requires (!x.tooLong ==> x.consumed != []) && ResultFits(x, r)
    ensures Due(x, r)
  {
    StatusesDiffer();
  }

  lemma StatusesDiffer()
    ensures "msg_too_long_error" != "msg_incorrect_utf8" && "user_confirm" != "user_cancel"
  {
    assert "msg_too_long_error"[4] == 't' && "msg_incorrect_utf8"[4] == 'i';
    assert "user_confirm"[6] == 'o' && "user_cancel"[6] == 'a';
  }

  /** What a session promises, in terms of the messages it consumed. */
  predicate PromiseKept(x: Session, over: bool) {
    && (x.result.Some? ==> Due(x, x.result.value))
    && (x.result.Some? && x.result.value.rc == OK ==> Earned(x, x.result.value))
    && |x.calls| <= 1
    && (x.calls != [] ==> Acked(x) && x.hasCallback && x.result == Some(x.calls[0]))
    && (over ==> x.result.Some? && |x.calls| == if Acked(x) && x.hasCallback then 1 else 0)
    && OwnMessages(x)
  }

  lemma ClosedPromise(x: Session)
    requires Closed(x)
    ensures PromiseKept(x, true)
  {
    VerdictEarned(x, x.result.value);
  }

  lemma VerdictEarned(x: Session, r: Result)
    requires OwnMessages(x) && (!x.tooLong ==> x.consumed != []) && ResultFits(x, r)
    ensures Due(x, r) && (r.rc == OK ==> Earned(x, r))
  {
    ResultIsDue(x, r);
  }

  lemma RunningPromise(x: Session, w: WorkerPc, l: ListenerState, p: ResponseCode)
    requires RunningOk(x, w, l, p)
    ensures PromiseKept(x, w == NoThread || w == Done)
  {
    if Closed(x) {
      ClosedPromise(x);
    } else if x.result.Some? {
      VerdictEarned(x, x.result.value);
    }
  }

  /** In every run: a session reports exactly the result that the messages it consumed call for, OK only
      for a `user_confirm` response with that response's fields; its callback is made at most once,
      always with its result, and once it is over exactly when the start ack succeeded and a callback
      was given; all it consumed bore its name, and a local abort never came first. */
  lemma EverySessionKeepsItsPromise(acts: seq<Act>, n: nat)
    requires After(acts).Some? && n < |After(acts).value.sessions|
    ensures var s := After(acts).value;
            PromiseKept(s.sessions[n], Over(s, n) && s.fault == NoFault)
  {
    EveryRunSound(acts);
    SoundKeepsPromise(After(acts).value, n);
  }

  lemma SoundKeepsPromise(s: State, n: nat)
    requires Sound(s) && n < |s.sessions|
    ensures PromiseKept(s.sessions[n], Over(s, n) && s.fault == NoFault)
  {
    if n < |s.sessions| - 1 {
      ClosedPromise(s.sessions[n]);
    } else if s.fault == NoFault {
      RunningPromise(Newest(s), s.worker, s.listener, s.promptResult);
    }
  }

  /** The edges of the session life cycle. */
  predicate Edge(l: ListenerState, m: ListenerState) {
    || l == m
    || (l == NoSession && m == Starting)
    || (l == Starting && m == SetupDone)
    || (l == SetupDone && m == Interactive)
    || (l == Interactive && m == Terminating)
    || (l == Starting && m == Terminating)
    || (l == Terminating && m == NoSession)
  }

  lemma HalMoves(s: State, t: State)
    requires ControlInv(s) && HalStep(s) == Some(t)
    ensures Edge(s.listener, t.listener)
  {
  }

  lemma WorkerMoves(s: State, t: State)
    requires ControlInv(s) && s.sessions != [] && WorkerStep(s) == Some(t)
    ensures Edge(s.listener, t.listener)
  {
  }

  /** Every step of every run moves the listener state along an edge, or leaves it. */
  lemma ListenerMovesAlongEdges(acts: seq<Act>)
    requires acts != [] && After(acts).Some?
    ensures After(acts[..|acts| - 1]).Some?
    ensures Edge(After(acts[..|acts| - 1]).value.listener, After(acts).value.listener)
  {
    var s, a, t := After(acts[..|acts| - 1]).value, acts[|acts| - 1], After(acts).value;
    EveryRunSound(acts[..|acts| - 1]);
    match a
    case HalRuns => HalMoves(s, t);
    case WorkerRuns => WorkerMoves(s, t);
    case FetcherRuns => FetcherData(s, t);
    case _ => EnvironmentData(s, a, t);
  }

  /** Two sessions share a name exactly when a multiple of 2^32 sessions lies between them. */
  lemma NamesRepeatOnlyOnWrap(acts: seq<Act>, m: nat, n: nat)
    requires After(acts).Some? && m <= n < |After(acts).value.sessions|
    ensures var ss := After(acts).value.sessions;
            MakeName(ss[m].id) == MakeName(ss[n].id) <==> (n - m) % ID_WRAP == 0
  {
    EveryRunSound(acts);
    NamesFollowIds(After(acts).value.counter, After(acts).value.sessions, m, n);
  }

  lemma NamesFollowIds(counter: nat, ss: seq<Session>, m: nat, n: nat)
    requires IdsOk(counter, ss) && m <= n < |ss|
    ensures MakeName(ss[m].id) == MakeName(ss[n].id) <==> (n - m) % ID_WRAP == 0
  {
    if MakeName(ss[m].id) == MakeName(ss[n].id) {
      NameInjective(ss[m].id, ss[n].id);
    }
    WrapDifference(FIRST_COUNTER + 1 + m, FIRST_COUNTER + 1 + n);
  }

  lemma NameInjective(i: nat, j: nat)
    requires MakeName(i) == MakeName(j)
    ensures i == j
  {
    var p := |"ConfirmationUiSession"|;
    assert MakeName(i)[p..] == ToDecimal(i) && MakeName(j)[p..] == ToDecimal(j);
    DecimalInjective(i, j);
  }

  lemma WrapDifference(a: nat, b: nat)
    requires a <= b
    ensures a % ID_WRAP == b % ID_WRAP <==> (b - a) % ID_WRAP == 0
  {
  }
}
