/** The guest side of a confirmation UI session as three threads taking atomic steps:

    - the HAL (binder) thread, which serves one call at a time;
    - the worker, which runs one session (`RunSession` and `PromptUserConfirmation`);
    - the fetcher, which moves host messages into the current session's queue.

    A step is a lock operation together with the code up to the next one, a wait, a
    notification, a queue operation or a callback.  The host and the HAL's client are the
    environment.  `sessions` is history: it records what each session consumed and reported. */
module ConfUiSession {
  import opened Wrappers
  import opened Text
  import R = Runs
  import TSQ = ThreadSafeQueue

  datatype ListenerState = NoSession | Starting | SetupDone | Interactive | Terminating

  predicate Live(l: ListenerState) {
    l == SetupDone || l == Interactive
  }

  datatype Thread = Hal | Worker | Fetcher

  datatype Lock = Free | HeldBy(owner: Thread)

  /** The host messages a session can meet. */
  datatype Msg =
    | Ack(sid: string, success: bool, status: string)
    | Respond(sid: string, response: string, sign: string, message: string)
    | Abort(sid: string)

  /** What the guest sends to the host. */
  datatype Note =
    | TellStart(sid: string)
    | TellStop(sid: string)
    | TellAbort(sid: string)
    | TellSelection(sid: string, response: string)

  /** `local` marks the abort that `GuestSession::Abort` pushes itself. */
  datatype Item = Item(msg: Msg, local: bool)

  datatype ResponseCode =
    OK | CANCELED | ABORTED | IGNORED | SYSTEM_ERROR | MESSAGE_TOO_LONG | MALFORMED_UTF8

  datatype Result = Result(rc: ResponseCode, message: string, token: string)

  datatype Session = Session(
    id: nat, hasCallback: bool, tooLong: bool,
    consumed: seq<Item>, result: Option<Result>, calls: seq<Result>)

  /** `current_session_`: which session object exists and under what name. */
  datatype Current = Current(serial: nat, name: string)

  datatype HalPc =
    | Idle
    | PromptTry(hasCallback: bool, tooLong: bool)
    | PromptSwitch(hasCallback: bool, tooLong: bool)
    | PromptJoinOld(hasCallback: bool, tooLong: bool)
    | PromptSpawn(hasCallback: bool, tooLong: bool)
    | PromptCheck
    | PromptWait(notified: bool)
    | PromptJoinNew
    | DeliverLockSession(confirm: bool)
    | DeliverFind(confirm: bool)
    | DeliverLockState(confirm: bool)
    | DeliverCheck(confirm: bool)
    | DeliverWait(confirm: bool, notified: bool)
    | DeliverNotify
    | AbortLockSession | AbortFind | AbortLockState | AbortBody | AbortNotify

  datatype WorkerPc =
    | NoThread
    | LockSession | MakeSession
    | LockStart | Start | PopFirst
    | NotifySetup | LockInteractive | SetInteractive | NotifyInteractive
    | PopInput | LockInput(item: Item) | Decide(item: Item)
    | LockEnd(result: Result) | End(result: Result)
    | Callback(result: Result) | NotifyEnd
    | Done

  datatype FetcherPc = Receive | FetchLock(msg: Msg) | FetchHave(msg: Msg) | FetchNotify | Stopped

  /** Ways the process dies: `std::thread` misuse, failed CHECKs, and destroying the session
      object while its own session is live (the destructor would then call `Abort`). */
  datatype Fault =
    NoFault | ThreadOverwritten | JoinWithoutThread | NotStarting | DestroyedLive | FirstNotAck

  datatype State = State(
    listener: ListenerState,
    stateLock: Lock,
    sessionLock: Lock,
    counter: nat,
    current: Option<Current>,
    queue: seq<Item>,
    promptResult: ResponseCode,
    hal: HalPc,
    worker: WorkerPc,
    fetcher: FetcherPc,
    told: seq<Note>,          // everything the guest sent to the host
    sent: map<string, nat>,   // environment: messages the host sent, for each started session name
    early: nat,               // of those, to the session that awaits its first message
    mostEarly: nat,           // the most that any session was sent while it awaited its first
    sessions: seq<Session>,
    fault: Fault)

  const QUEUE_LIMIT: nat := 20
  const ID_WRAP: nat := 0x1_0000_0000
  const FIRST_COUNTER: nat := 10

  function MakeName(id: nat): string {
    "ConfirmationUiSession" + ToDecimal(id)
  }

  const INIT: State := State(
    NoSession, Free, Free, FIRST_COUNTER, None, [], IGNORED,
    Idle, NoThread, Receive, [], map[], 0, 0, [], NoFault)

  datatype Act =
    | CallPrompt(hasCallback: bool, tooLong: bool) | CallDeliver(confirm: bool) | CallAbort
    | HalRuns | HalWakesSpuriously | WorkerRuns | FetcherRuns
    | HostSends(msg: Msg) | LinkBreaks

  // ---------- shared pieces ----------

  /** What `notify_all` does to a HAL call that waits on the condition variable. */
  function Notified(h: HalPc): HalPc {
    if h.PromptWait? then PromptWait(true)
    else if h.DeliverWait? then DeliverWait(h.confirm, true)
    else h
  }

  function NotifyAll(s: State): State {
    s.(hal := Notified(s.hal))
  }

  /** The name of the session object; the guest only sends while there is one. */
  function SessionName(s: State): string {
    if s.current.Some? then s.current.value.name else ""
  }

  function PushItem(queue: seq<Item>, item: Item): seq<Item> {
    TSQ.Pushed(queue, QUEUE_LIMIT, TSQ.DropFrontHalf, item)
  }

  function TakeState(s: State, t: Thread): Option<State> {
    if s.stateLock == Free then Some(s.(stateLock := HeldBy(t))) else None
  }

  function TakeSession(s: State, t: Thread): Option<State> {
    if s.sessionLock == Free then Some(s.(sessionLock := HeldBy(t))) else None
  }

  function GoHal(s: Option<State>, pc: HalPc): Option<State> {
    if s.Some? then Some(s.value.(hal := pc)) else None
  }

  function GoWorker(s: Option<State>, pc: WorkerPc): Option<State> {
    if s.Some? then Some(s.value.(worker := pc)) else None
  }

  /** The running session is always the newest one. */
  function Newest(s: State): Session
    requires s.sessions != []
  {
    s.sessions[|s.sessions| - 1]
  }

  function SetNewest(s: State, x: Session): State
    requires s.sessions != []
  {
    s.(sessions := s.sessions[|s.sessions| - 1 := x])
  }

  function Consume(s: State): State
    requires s.queue != [] && s.sessions != []
  {
    SetNewest(s.(queue := s.queue[1..]),
              Newest(s).(consumed := Newest(s).consumed + [s.queue[0]]))
  }

  // ---------- the HAL thread ----------

  /** `callback_thread_.join()`, made with the state lock held. */
  function Join(s: State): Option<State> {
    match s.worker
    case NoThread => Some(s.(fault := JoinWithoutThread))
    case Done => Some(s.(worker := NoThread, listener := NoSession))
    case _ => None
  }

  function HalPrompt(s: State): Option<State> {
    match s.hal
    case PromptTry(cb, long) =>
      if s.stateLock == Free then GoHal(TakeState(s, Hal), PromptSwitch(cb, long))
      else Some(s.(hal := Idle))
    case PromptSwitch(cb, long) =>
      (match s.listener
       case NoSession => Some(s.(hal := PromptSpawn(cb, long)))
       case Terminating => Some(s.(hal := PromptJoinOld(cb, long)))
       case _ => Some(s.(hal := Idle, stateLock := Free)))
    case PromptJoinOld(cb, long) => GoHal(Join(s), PromptSpawn(cb, long))
    case PromptSpawn(cb, long) =>
      if s.worker != NoThread then Some(s.(fault := ThreadOverwritten))
      else
        var id := (s.counter + 1) % ID_WRAP;
        Some(s.(listener := Starting, counter := id, worker := LockSession, hal := PromptCheck,
                sessions := s.sessions + [Session(id, cb, long, [], None, [])]))
    case _ => None
  }

  function HalAwaitSetup(s: State): Option<State> {
    match s.hal
    case PromptCheck =>
      (match s.listener
       case Terminating => Some(s.(hal := PromptJoinNew))
       case SetupDone => Some(s.(hal := Idle, stateLock := Free))
       case Interactive => Some(s.(hal := Idle, stateLock := Free))
       case _ => Some(s.(hal := PromptWait(false), stateLock := Free)))
    case PromptWait(notified) =>
      if notified then GoHal(TakeState(s, Hal), PromptCheck) else None
    case PromptJoinNew =>
      var j := GoHal(Join(s), Idle);
      if j.Some? then Some(j.value.(stateLock := Free)) else None
    case _ => None
  }

  function HalDeliver(s: State): Option<State> {
    match s.hal
    case DeliverLockSession(confirm) => GoHal(TakeSession(s, Hal), DeliverFind(confirm))
    case DeliverFind(confirm) =>
      if s.current == None then Some(s.(hal := Idle, sessionLock := Free))
      else Some(s.(hal := DeliverLockState(confirm)))
    case DeliverLockState(confirm) => GoHal(TakeState(s, Hal), DeliverCheck(confirm))
    case DeliverCheck(confirm) =>
      (match s.listener
       case SetupDone => Some(s.(hal := DeliverWait(confirm, false), stateLock := Free))
       case Interactive =>
         var response := if confirm then "user_confirm" else "user_cancel";
         Some(s.(hal := DeliverNotify, stateLock := Free, told := s.told + [TellSelection(SessionName(s), response)]))
       case _ => Some(s.(hal := Idle, stateLock := Free, sessionLock := Free)))
    case DeliverWait(confirm, notified) =>
      if notified then GoHal(TakeState(s, Hal), DeliverCheck(confirm)) else None
    case DeliverNotify => Some(s.(hal := Idle, sessionLock := Free))  // nobody else waits to be notified
    case _ => None
  }

  function HalAbort(s: State): Option<State> {
    match s.hal
    case AbortLockSession => GoHal(TakeSession(s, Hal), AbortFind)
    case AbortFind =>
      if s.current == None then Some(s.(hal := Idle, sessionLock := Free))
      else Some(s.(hal := AbortLockState))
    case AbortLockState => GoHal(TakeState(s, Hal), AbortBody)
    case AbortBody =>
      if Live(s.listener) && s.current.Some? then
        Some(s.(hal := AbortNotify, stateLock := Free, told := s.told + [TellAbort(SessionName(s))],
                queue := PushItem(s.queue, Item(Abort(SessionName(s)), true))))
      else Some(s.(hal := AbortNotify, stateLock := Free))
    case AbortNotify => Some(s.(hal := Idle, sessionLock := Free))  // nobody else waits to be notified
    case _ => None
  }

  function HalStep(s: State): Option<State> {
    if s.hal.PromptTry? || s.hal.PromptSwitch? || s.hal.PromptJoinOld? || s.hal.PromptSpawn?
    then HalPrompt(s)
    else if s.hal.PromptCheck? || s.hal.PromptWait? || s.hal.PromptJoinNew? then HalAwaitSetup(s)
    else if s.hal.DeliverLockSession? || s.hal.DeliverFind? || s.hal.DeliverLockState?
            || s.hal.DeliverCheck? || s.hal.DeliverWait? || s.hal.DeliverNotify? then HalDeliver(s)
    else HalAbort(s)
  }

  // ---------- the worker ----------

  function Failure(rc: ResponseCode): Result {
    Result(rc, "", "")
  }

  function StartError(status: string): ResponseCode {
    if status == "msg_incorrect_utf8" then MALFORMED_UTF8
    else if status == "msg_too_long_error" then MESSAGE_TOO_LONG
    else SYSTEM_ERROR
  }

  /** The session's result from the message that ends the interactive phase. */
  function Verdict(msg: Msg): Result {
    match msg
    case Abort(_) => Failure(ABORTED)
    case Ack(_, _, _) => Failure(SYSTEM_ERROR)
    case Respond(_, response, sign, message) =>
      if response == "user_cancel" then Failure(CANCELED)
      else if response == "user_confirm" then Result(OK, message, sign)
      else Failure(SYSTEM_ERROR)
  }

  /** The stop message that goes out when the user has confirmed or cancelled. */
  function Farewell(s: State, msg: Msg): seq<Note> {
    if msg.Respond? && (msg.response == "user_cancel" || msg.response == "user_confirm")
    then [TellStop(SessionName(s))] else []
  }

  /** `PromptUserConfirmation` returns `r`, dropping the state lock on the way out. */
  function Return(s: State, r: Result): State
    requires s.sessions != []
  {
    SetNewest(s, Newest(s).(result := Some(r))).(worker := LockEnd(r), stateLock := Free)
  }

  function WorkerOpening(s: State): Option<State>
    requires s.sessions != []
  {
    match s.worker
    case LockSession => GoWorker(TakeSession(s, Worker), MakeSession)
    case MakeSession =>
      if s.current.Some? && Live(s.listener)
      then Some(s.(fault := DestroyedLive))
      else Some(s.(current := Some(Current(|s.sessions| - 1, MakeName(s.counter))),
                   queue := [], sessionLock := Free, worker := LockStart))
    case LockStart => GoWorker(TakeState(s, Worker), Start)
    case _ => None
  }

  /** The starting phase, with the state lock held across the blocking pop. */
  function WorkerStart(s: State): Option<State>
    requires s.sessions != []
  {
    match s.worker
    case Start =>
      if s.listener != Starting || s.current == None then Some(s.(fault := NotStarting))
      else if Newest(s).tooLong then Some(Return(s, Failure(MESSAGE_TOO_LONG)))
      else
        var name := s.current.value.name;
        Some(s.(worker := PopFirst, told := s.told + [TellStart(name)], early := 0,
                sent := if name in s.sent then s.sent else s.sent[name := 0]))
    case PopFirst =>
      if s.queue == [] then None
      else
        var msg := s.queue[0].msg;
        if !msg.Ack? then Some(Consume(s).(fault := FirstNotAck))
        else if !msg.success then Some(Return(Consume(s), Failure(StartError(msg.status))))
        else Some(Consume(s).(listener := SetupDone, stateLock := Free, worker := NotifySetup))
    case _ => None
  }

  function WorkerGrace(s: State): Option<State>
    requires s.sessions != []
  {
    match s.worker
    case NotifySetup => Some(NotifyAll(s).(worker := LockInteractive))
    case LockInteractive => GoWorker(TakeState(s, Worker), SetInteractive)
    case SetInteractive =>
      Some(s.(listener := Interactive, stateLock := Free, worker := NotifyInteractive))
    case NotifyInteractive => Some(NotifyAll(s).(worker := PopInput))
    case _ => None
  }

  function WorkerInput(s: State): Option<State>
    requires s.sessions != []
  {
    match s.worker
    case PopInput =>
      if s.queue == [] then None else Some(Consume(s).(worker := LockInput(s.queue[0])))
    case LockInput(item) => GoWorker(TakeState(s, Worker), Decide(item))
    case Decide(item) => Some(Return(s, Verdict(item.msg)).(told := s.told + Farewell(s, item.msg)))
    case _ => None
  }

  function WorkerClosing(s: State): Option<State>
    requires s.sessions != []
  {
    match s.worker
    case LockEnd(r) => GoWorker(TakeState(s, Worker), End(r))
    case End(r) =>
      var doCallback := Live(s.listener) && Newest(s).hasCallback;
      Some(s.(listener := Terminating, stateLock := Free, promptResult := r.rc,
              worker := if doCallback then Callback(r) else NotifyEnd))
    case Callback(r) =>
      Some(SetNewest(s, Newest(s).(calls := Newest(s).calls + [r.(rc := s.promptResult)])).(worker := Done))
    case NotifyEnd => Some(NotifyAll(s).(worker := Done))
    case _ => None
  }

  function WorkerStep(s: State): Option<State>
    requires s.sessions != []
  {
    if s.worker.LockSession? || s.worker.MakeSession? || s.worker.LockStart? then WorkerOpening(s)
    else if s.worker.Start? || s.worker.PopFirst? then WorkerStart(s)
    else if s.worker.NotifySetup? || s.worker.LockInteractive? || s.worker.SetInteractive?
            || s.worker.NotifyInteractive? then WorkerGrace(s)
    else if s.worker.PopInput? || s.worker.LockInput? || s.worker.Decide? then WorkerInput(s)
    else WorkerClosing(s)
  }

  // ---------- the fetcher and the environment ----------

  function FetcherStep(s: State): Option<State> {
    match s.fetcher
    case FetchLock(msg) =>
      var t := TakeSession(s, Fetcher);
      if t.Some? then Some(t.value.(fetcher := FetchHave(msg))) else None
    case FetchHave(msg) =>
      if s.current.Some? && s.current.value.name == msg.sid then
        Some(s.(queue := PushItem(s.queue, Item(msg, false)),
                sessionLock := Free, fetcher := FetchNotify))
      else Some(s.(sessionLock := Free, fetcher := Receive))
    case FetchNotify => Some(NotifyAll(s).(fetcher := Receive))
    case _ => None
  }

  /** The host speaks only of sessions it was asked to start, and opens each with an ack. */
  predicate HostMay(s: State, msg: Msg) {
    msg.sid in s.sent && (s.sent[msg.sid] == 0 ==> msg.Ack?)
  }

  /** The running session has sent its start message under `name` and taken nothing yet. */
  predicate Awaits(s: State, name: string) {
    s.worker == PopFirst && s.current.Some? && s.current.value.name == name
  }

  function HostSend(s: State, msg: Msg): State
    requires HostMay(s, msg)
  {
    var early := if Awaits(s, msg.sid) then s.early + 1 else s.early;
    s.(fetcher := FetchLock(msg), sent := s.sent[msg.sid := s.sent[msg.sid] + 1],
       early := early, mostEarly := if early > s.mostEarly then early else s.mostEarly)
  }

  function Do(s: State, a: Act): Option<State> {
    if s.fault != NoFault then None
    else
      match a
      case CallPrompt(cb, long) => if s.hal == Idle then Some(s.(hal := PromptTry(cb, long))) else None
      case CallDeliver(confirm) => if s.hal == Idle then Some(s.(hal := DeliverLockSession(confirm))) else None
      case CallAbort => if s.hal == Idle then Some(s.(hal := AbortLockSession)) else None
      case HalRuns => HalStep(s)
      case HalWakesSpuriously => if s.hal.PromptWait? || s.hal.DeliverWait? then Some(NotifyAll(s)) else None
      case WorkerRuns => if s.sessions == [] then None else WorkerStep(s)
      case FetcherRuns => FetcherStep(s)
      case HostSends(msg) =>
        if s.fetcher == Receive && HostMay(s, msg) then Some(HostSend(s, msg)) else None
      case LinkBreaks => if s.fetcher == Receive then Some(s.(fetcher := Stopped)) else None
  }

  function RunFrom(s: State, acts: seq<Act>): Option<State> {
    R.Run(Do, s, acts)
  }

  function After(acts: seq<Act>): Option<State> {
    RunFrom(INIT, acts)
  }
}
