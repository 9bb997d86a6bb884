/** What passes between the guest and the host: the notes the guest sends, and the messages that reach a
    session. */
module ConfUiTraffic {
  import opened Wrappers
  import opened Sequences
  import opened ConfUiSession
  import opened ConfUiSafety

  // ---------- what the guest sends ----------

  predicate FromWorker(n: Note) {
    n.TellStart? || n.TellStop?
  }

  function WorkerNotes(told: seq<Note>): seq<Note> {
    if told == [] then []
    else
      var before, n := WorkerNotes(told[..|told| - 1]), told[|told| - 1];
      if FromWorker(n) then before + [n] else before
  }

  function HalNotes(told: seq<Note>): seq<Note> {
    if told == [] then []
    else
      var before, n := HalNotes(told[..|told| - 1]), told[|told| - 1];
      if FromWorker(n) then before else before + [n]
  }

  lemma NotesSnoc(told: seq<Note>, n: Note)
    ensures WorkerNotes(told + [n]) == WorkerNotes(told) + (if FromWorker(n) then [n] else [])
    ensures HalNotes(told + [n]) == HalNotes(told) + (if FromWorker(n) then [] else [n])
  {
    assert (told + [n])[..|told|] == told;
  }

  /** The worker of the newest session has not sent its start message yet. */
  predicate Unannounced(w: WorkerPc) {
    w.LockSession? || w.MakeSession? || w.LockStart? || w.Start?
  }

  /** What a session sends: a start message once it is announced, and a stop message once the user has
      confirmed or cancelled. */
  function Owed(x: Session, announced: bool): seq<Note> {
    if !announced then []
    else
      var answered := x.result.Some? && (x.result.value.rc == OK || x.result.value.rc == CANCELED);
      [TellStart(MakeName(x.id))] + (if answered then [TellStop(MakeName(x.id))] else [])
  }

  function OwedByAll(sessions: seq<Session>): seq<Note> {
    if sessions == [] then []
    else
      var x := sessions[|sessions| - 1];
      OwedByAll(sessions[..|sessions| - 1]) + Owed(x, !x.tooLong)
  }

  function OwedNow(sessions: seq<Session>, w: WorkerPc): seq<Note> {
    if sessions == [] then []
    else
      var x := sessions[|sessions| - 1];
      OwedByAll(sessions[..|sessions| - 1]) + Owed(x, !x.tooLong && !Unannounced(w))
  }

  /** What one worker step adds to the notes is what it adds to what its session owes. */
  predicate SentWhatIsOwed(s: State, t: State)
    requires s.sessions != [] && t.sessions != []
  {
    var due := Owed(Newest(s), !Newest(s).tooLong && !Unannounced(s.worker));
    var dueAfter := Owed(Newest(t), !Newest(t).tooLong && !Unannounced(t.worker));
    || (t.told == s.told && dueAfter == due)
    || (t.told != [] && var n := t.told[|t.told| - 1];
          FromWorker(n) && t.told == s.told + [n] && dueAfter == due + [n])
  }

  lemma OpeningSends(s: State, t: State)
    requires s.sessions != [] && WorkerOpening(s) == Some(t) && t.fault == NoFault
    ensures t.sessions != [] && SentWhatIsOwed(s, t)
  {
  }

  lemma StartSends(s: State, t: State)
    requires s.sessions != [] && s.fault == NoFault && s.listener == Starting && WorkerStart(s) == Some(t)
    requires RunningOk(Newest(s), s.worker, s.listener, s.promptResult)
    requires s.current.Some? && SessionName(s) == MakeName(Newest(s).id)
    ensures t.sessions != [] && SentWhatIsOwed(s, t)
  {
    if t.worker == PopFirst && s.worker == Start {
      assert FromWorker(TellStart(SessionName(s)));
      assert [] + [TellStart(SessionName(s))] == [TellStart(SessionName(s))];
      assert Owed(Newest(t), true) == [TellStart(SessionName(s))] + [];
    } else if s.worker == PopFirst {
      assert Newest(t).id == Newest(s).id;
    }
  }

  lemma GraceSends(s: State, t: State)
    requires s.sessions != [] && WorkerGrace(s) == Some(t)
    ensures t.sessions != [] && SentWhatIsOwed(s, t)
  {
  }

  lemma InputSends(s: State, t: State)
    requires s.sessions != [] && WorkerInput(s) == Some(t)
    requires RunningOk(Newest(s), s.worker, s.listener, s.promptResult)
    requires SessionName(s) == MakeName(Newest(s).id)
    ensures t.sessions != [] && SentWhatIsOwed(s, t)
  {
    if s.worker.Decide? {
      StatusesDiffer();
      assert Newest(t).id == Newest(s).id && Newest(t).result == Some(Verdict(s.worker.item.msg));
      assert t.told == s.told + Farewell(s, s.worker.item.msg);
      if Farewell(s, s.worker.item.msg) == [] {
        assert t.told == s.told;
      } else {
        assert FromWorker(TellStop(SessionName(s)));
      }
    }
  }

  lemma ClosingSends(s: State, t: State)
    requires s.sessions != [] && WorkerClosing(s) == Some(t)
    ensures t.sessions != [] && SentWhatIsOwed(s, t)
  {
  }

  lemma WorkerSends(s: State, t: State)
    requires Inv(s) && s.fault == NoFault && s.sessions != [] && WorkerStep(s) == Some(t)
    ensures t.sessions != [] && SentWhatIsOwed(s, t)
  {
    WorkerKeeps(s, t);
    if WorkerOpening(s) == Some(t) {
      OpeningSends(s, t);
    } else if WorkerStart(s) == Some(t) {
      StartSends(s, t);
    } else if WorkerGrace(s) == Some(t) {
      GraceSends(s, t);
    } else if WorkerInput(s) == Some(t) {
      InputSends(s, t);
    } else {
      ClosingSends(s, t);
    }
  }

  predicate NotesOk(s: State) {
    WorkerNotes(s.told) == OwedNow(s.sessions, s.worker)
  }

  lemma WorkerKeepsNotes(s: State, t: State)
    requires NotesOk(s) && s.sessions != [] && t.sessions != [] && OnlyNewest(s, t) && SentWhatIsOwed(s, t)
    ensures NotesOk(t)
  {
    if t.told != s.told {
      NotesSnoc(s.told, t.told[|t.told| - 1]);
    }
  }

  /** The steps in which a client's call sends something. */
  predicate MayTell(s: State) {
    (s.hal == AbortBody && Live(s.listener)) || (s.hal.DeliverCheck? && s.listener == Interactive)
  }

  lemma HalTells(s: State, t: State)
    requires HalStep(s) == Some(t)
    ensures WorkerNotes(t.told) == WorkerNotes(s.told)
    ensures t.told == s.told || MayTell(s)
  {
    if HalDeliver(s) == Some(t) {
      DeliverTells(s, t);
    } else if HalAbort(s) == Some(t) {
      AbortTells(s, t);
    }
  }

  lemma DeliverTells(s: State, t: State)
    requires HalDeliver(s) == Some(t)
    ensures WorkerNotes(t.told) == WorkerNotes(s.told)
    ensures t.told == s.told || MayTell(s)
  {
    if t.told != s.told {
      NotesSnoc(s.told, t.told[|t.told| - 1]);
    }
  }

  lemma AbortTells(s: State, t: State)
    requires HalAbort(s) == Some(t)
    ensures WorkerNotes(t.told) == WorkerNotes(s.told)
    ensures t.told == s.told || MayTell(s)
  {
    if t.told != s.told {
      NotesSnoc(s.told, t.told[|t.told| - 1]);
    }
  }

  lemma HalKeepsNotes(s: State, t: State)
    requires NotesOk(s) && WorkerNotes(t.told) == WorkerNotes(s.told)
    requires SameData(s, t) || Joined(s, t) || Spawned(s, t)
    ensures NotesOk(t)
  {
    if Spawned(s, t) {
      assert t.sessions[..|t.sessions| - 1] == s.sessions;
      assert OwedNow(s.sessions, NoThread) == OwedByAll(s.sessions);
    }
  }

  lemma OthersTellNothing(s: State, a: Act, t: State)
    requires a != HalRuns && a != WorkerRuns && Do(s, a) == Some(t)
    ensures t.told == s.told && t.sessions == s.sessions && t.worker == s.worker
  {
  }

  /** In every run, the start and stop messages the guest has sent are, session after session, exactly a start
      message for each session whose prompt was not too long, and a stop message for each whose result is OK
      or CANCELED, in that order. */
  lemma {:induction false} StartsAndStopsAreOwed(acts: seq<Act>)
    requires After(acts).Some?
    ensures var s := After(acts).value; WorkerNotes(s.told) == OwedNow(s.sessions, s.worker)
    decreases |acts|
  {
    if acts != [] {
      var before, a := acts[..|acts| - 1], acts[|acts| - 1];
      EveryRunSound(before);
      StartsAndStopsAreOwed(before);
      NotesStep(After(before).value, a, After(acts).value);
    }
  }

  lemma NotesStep(s: State, a: Act, t: State)
    requires Sound(s) && NotesOk(s) && Do(s, a) == Some(t)
    ensures NotesOk(t)
  {
    match a
    case HalRuns =>
      HalShape(s, t);
      HalTells(s, t);
      HalKeepsNotes(s, t);
    case WorkerRuns =>
      WorkerOnlyNewest(s, t);
      WorkerSends(s, t);
      WorkerKeepsNotes(s, t);
    case _ => OthersTellNothing(s, a, t);
  }

  /** In every run, the guest sends an abort or a selection only in the step of an abort call that finds its
      session set up or interactive, or of an input event that finds it interactive. */
  lemma OnlyCallsTellTheRest(acts: seq<Act>)
    requires acts != [] && After(acts).Some?
    ensures After(acts[..|acts| - 1]).Some?
    ensures var s, a, t := After(acts[..|acts| - 1]).value, acts[|acts| - 1], After(acts).value;
            HalNotes(t.told) == HalNotes(s.told) || (a == HalRuns && MayTell(s))
  {
    var s, a, t := After(acts[..|acts| - 1]).value, acts[|acts| - 1], After(acts).value;
    EveryRunSound(acts[..|acts| - 1]);
    match a
    case HalRuns => HalTells(s, t);
    case WorkerRuns =>
      WorkerSends(s, t);
      if t.told != s.told {
        NotesSnoc(s.told, t.told[|t.told| - 1]);
      }
    case _ => OthersTellNothing(s, a, t);
  }

  // ---------- what reaches a session ----------

  /** The messages the host sent under a name, in order. */
  function SentTo(acts: seq<Act>, name: string): seq<Msg> {
    if acts == [] then []
    else
      var before, a := SentTo(acts[..|acts| - 1], name), acts[|acts| - 1];
      if a.HostSends? && a.msg.sid == name then before + [a.msg] else before
  }

  /** The messages that came from the host, without the aborts the guest put in itself. */
  function FromHost(items: seq<Item>): seq<Msg> {
    if items == [] then []
    else
      var before, x := FromHost(items[..|items| - 1]), items[|items| - 1];
      if x.local then before else before + [x.msg]
  }

  lemma {:induction false} FromHostConcat(a: seq<Item>, b: seq<Item>)
    ensures FromHost(a + b) == FromHost(a) + FromHost(b)
    decreases |b|
  {
    if b == [] {
      assert a + b == a;
    } else {
      var n := |b| - 1;
      assert (a + b)[..|a| + n] == a + b[..n];
      FromHostConcat(a, b[..n]);
    }
  }

  predicate Holds(f: FetcherPc) {
    f.FetchLock? || f.FetchHave?
  }

  function InHand(f: FetcherPc, name: string): seq<Msg> {
    if Holds(f) && f.msg.sid == name then [f.msg] else []
  }

  /** What a session took, what waits in the queue, and what the fetcher is bringing. */
  function Line(consumed: seq<Item>, queue: seq<Item>, f: FetcherPc, name: string): seq<Msg> {
    FromHost(consumed + queue) + InHand(f, name)
  }

  lemma DropKeepsLine(consumed: seq<Item>, dropped: seq<Item>, kept: seq<Item>)
    ensures Subsequence(FromHost(consumed + kept), FromHost(consumed + (dropped + kept)))
  {
    FromHostConcat(dropped, kept);
    FromHostConcat(consumed, kept);
    FromHostConcat(consumed, dropped + kept);
    SubsequenceSuffix(FromHost(dropped), FromHost(kept));
    SubsequencePrepend(FromHost(consumed), FromHost(kept), FromHost(dropped) + FromHost(kept));
  }

  lemma PushKeepsLine(consumed: seq<Item>, queue: seq<Item>, item: Item)
    requires |queue| <= QUEUE_LIMIT
    ensures Subsequence(FromHost(consumed + PushItem(queue, item)),
                        FromHost(consumed + queue) + (if item.local then [] else [item.msg]))
  {
    var kept, all := PushItem(queue, item), queue + [item];
    var dropped := PushDrops(queue, item);
    DropKeepsLine(consumed, dropped, kept);
    assert consumed + all == (consumed + queue) + [item];
    FromHostConcat(consumed + queue, [item]);
    assert [item][..0] == [];
  }

  predicate HandOk(f: FetcherPc, acts: seq<Act>) {
    Holds(f) ==> f.msg in SentTo(acts, f.msg.sid)
  }

  predicate LineOk(s: State, acts: seq<Act>) {
    s.current.Some? && s.current.value.serial < |s.sessions| ==>
      var name := s.current.value.name;
      Subsequence(Line(s.sessions[s.current.value.serial].consumed, s.queue, s.fetcher, name), SentTo(acts, name))
  }

  predicate TakenOk(x: Session, acts: seq<Act>) {
    Subsequence(FromHost(x.consumed), SentTo(acts, MakeName(x.id)))
  }

  predicate FlowOk(s: State, acts: seq<Act>) {
    && HandOk(s.fetcher, acts) && LineOk(s, acts)
    && (forall n | 0 <= n < |s.sessions| :: TakenOk(s.sessions[n], acts))
  }

  // ---------- what a step does to the line ----------

  /** The worker takes the message at the front of its queue. */
  predicate Takes(s: State, t: State) {
    && s.sessions != [] && |t.sessions| == |s.sessions| && s.queue != [] && t.fetcher == s.fetcher
    && s.current.Some? && s.current.value.serial == |s.sessions| - 1
    && s.current.value.name == MakeName(Newest(s).id)
    && t.current == s.current && t.queue == s.queue[1..]
    && t.sessions == s.sessions[|s.sessions| - 1 := Newest(t)]
    && Newest(t).consumed == Newest(s).consumed + [s.queue[0]] && Newest(t).id == Newest(s).id
  }

  /** No session takes anything; the queue is kept. */
  predicate TakesNothing(s: State, t: State) {
    && t.current == s.current && t.queue == s.queue && t.fetcher == s.fetcher
    && |t.sessions| >= |s.sessions|
    && (forall n | 0 <= n < |s.sessions| :: t.sessions[n].consumed == s.sessions[n].consumed
                                         && t.sessions[n].id == s.sessions[n].id)
    && (forall n | |s.sessions| <= n < |t.sessions| :: t.sessions[n].consumed == [])
  }

  /** A new session object, with nothing queued, for a session that took nothing. */
  predicate Made(s: State, t: State) {
    && t.sessions == s.sessions && t.fetcher == s.fetcher && t.queue == []
    && t.current.Some? && t.current.value.serial < |t.sessions|
    && t.sessions[t.current.value.serial].consumed == []
  }

  lemma TakesKeepsFlow(s: State, t: State, acts: seq<Act>)
    requires FlowOk(s, acts) && Takes(s, t)
    ensures FlowOk(t, acts)
  {
    var name, took, left := s.current.value.name, Newest(t).consumed, t.queue;
    assert took + left == Newest(s).consumed + s.queue;
    FromHostConcat(took, left);
    var rest := FromHost(left) + InHand(s.fetcher, name);
    assert FromHost(took) + rest == Line(took, left, s.fetcher, name);
    SubsequencePrefix(FromHost(took), rest);
    SubsequenceTransitive(FromHost(took), FromHost(took) + rest, SentTo(acts, name));
    assert TakenOk(Newest(t), acts);
  }

  lemma TakesNothingKeepsFlow(s: State, t: State, acts: seq<Act>)
    requires FlowOk(s, acts) && TakesNothing(s, t)
    requires s.current.Some? ==> s.current.value.serial < |s.sessions|
    ensures FlowOk(t, acts)
  {
    forall n | 0 <= n < |t.sessions|
      ensures TakenOk(t.sessions[n], acts)
    {
      if n < |s.sessions| {
        assert TakenOk(s.sessions[n], acts);
      }
    }
  }

  lemma MadeKeepsFlow(s: State, t: State, acts: seq<Act>)
    requires FlowOk(s, acts) && Made(s, t)
    ensures FlowOk(t, acts)
  {
    var name := t.current.value.name;
    var hand := InHand(t.fetcher, name);
    assert Line([], [], t.fetcher, name) == hand;
    if hand != [] {
      SubsequenceOne(hand[0], SentTo(acts, name));
    }
  }

  /** The HAL puts an abort of its own into the queue. */
  predicate Aborts(s: State, t: State) {
    && t.current == s.current && t.sessions == s.sessions && t.fetcher == s.fetcher && s.current.Some?
    && t.queue == PushItem(s.queue, Item(Abort(SessionName(s)), true))
  }

  lemma AbortsKeepsFlow(s: State, t: State, acts: seq<Act>)
    requires FlowOk(s, acts) && Aborts(s, t) && |s.queue| <= QUEUE_LIMIT
    ensures FlowOk(t, acts)
  {
    if s.current.value.serial < |s.sessions| {
      var name, consumed := s.current.value.name, s.sessions[s.current.value.serial].consumed;
      PushKeepsLine(consumed, s.queue, Item(Abort(name), true));
      assert FromHost(consumed + s.queue) + [] == FromHost(consumed + s.queue);
      SubsequenceAppend(FromHost(consumed + t.queue), FromHost(consumed + s.queue), InHand(s.fetcher, name));
      SubsequenceTransitive(Line(consumed, t.queue, t.fetcher, name), Line(consumed, s.queue, s.fetcher, name),
                            SentTo(acts, name));
    }
  }

  /** The fetcher puts the message it holds into the queue. */
  predicate Puts(s: State, t: State) {
    && t.current == s.current && t.sessions == s.sessions && s.current.Some?
    && s.fetcher.FetchHave? && s.fetcher.msg.sid == s.current.value.name && !Holds(t.fetcher)
    && t.queue == PushItem(s.queue, Item(s.fetcher.msg, false))
  }

  lemma PutsKeepsFlow(s: State, t: State, acts: seq<Act>)
    requires FlowOk(s, acts) && Puts(s, t) && |s.queue| <= QUEUE_LIMIT
    ensures FlowOk(t, acts)
  {
    if s.current.value.serial < |s.sessions| {
      var name, consumed := s.current.value.name, s.sessions[s.current.value.serial].consumed;
      PushKeepsLine(consumed, s.queue, Item(s.fetcher.msg, false));
      assert Line(consumed, t.queue, t.fetcher, name) == FromHost(consumed + t.queue);
      SubsequenceTransitive(FromHost(consumed + t.queue), Line(consumed, s.queue, s.fetcher, name),
                            SentTo(acts, name));
    }
  }

  /** The fetcher moves on; what it holds for the current session it keeps. */
  predicate HandsOn(s: State, t: State) {
    && t.current == s.current && t.sessions == s.sessions && t.queue == s.queue
    && (Holds(t.fetcher) ==> Holds(s.fetcher) && t.fetcher.msg == s.fetcher.msg)
    && (s.current.Some? ==> InHand(t.fetcher, s.current.value.name) == InHand(s.fetcher, s.current.value.name))
  }

  lemma HandsOnKeepsFlow(s: State, t: State, acts: seq<Act>)
    requires FlowOk(s, acts) && HandsOn(s, t)
    ensures FlowOk(t, acts)
  {
  }

  lemma FetcherPasses(s: State, t: State)
    requires FetcherStep(s) == Some(t)
    ensures Puts(s, t) || HandsOn(s, t)
  {
  }

  lemma HalPasses(s: State, t: State)
    requires HalStep(s) == Some(t)
    ensures Aborts(s, t) || TakesNothing(s, t)
  {
    if HalPrompt(s) == Some(t) {
      PromptPasses(s, t);
    } else if HalAwaitSetup(s) == Some(t) {
      AwaitPasses(s, t);
    } else if HalDeliver(s) == Some(t) {
      DeliverPasses(s, t);
    } else {
      AbortPasses(s, t);
    }
  }

  lemma PromptPasses(s: State, t: State)
    requires HalPrompt(s) == Some(t)
    ensures TakesNothing(s, t)
  {
  }

  lemma AwaitPasses(s: State, t: State)
    requires HalAwaitSetup(s) == Some(t)
    ensures TakesNothing(s, t)
  {
  }

  lemma DeliverPasses(s: State, t: State)
    requires HalDeliver(s) == Some(t)
    ensures TakesNothing(s, t)
  {
  }

  lemma AbortPasses(s: State, t: State)
    requires HalAbort(s) == Some(t)
    ensures Aborts(s, t) || TakesNothing(s, t)
  {
  }

  lemma WorkerPasses(s: State, t: State)
    requires s.sessions != [] && WorkerStep(s) == Some(t) && t.fault != DestroyedLive && t.fault != NotStarting
    requires ObjectOk(s.current, s.worker, s.sessions)
    requires RunningOk(Newest(s), s.worker, s.listener, s.promptResult)
    ensures Takes(s, t) || TakesNothing(s, t) || Made(s, t)
  {
    if WorkerOpening(s) == Some(t) {
      OpeningPasses(s, t);
    } else if WorkerStart(s) == Some(t) {
      StartPasses(s, t);
    } else if WorkerInput(s) == Some(t) {
      InputPasses(s, t);
    }
  }

  lemma OpeningPasses(s: State, t: State)
    requires s.sessions != [] && WorkerOpening(s) == Some(t) && t.fault != DestroyedLive
    requires RunningOk(Newest(s), s.worker, s.listener, s.promptResult)
    ensures TakesNothing(s, t) || Made(s, t)
  {
  }

  lemma StartPasses(s: State, t: State)
    requires s.sessions != [] && WorkerStart(s) == Some(t) && ObjectOk(s.current, s.worker, s.sessions)
    ensures TakesNothing(s, t) || Takes(s, t)
  {
  }

  lemma InputPasses(s: State, t: State)
    requires s.sessions != [] && WorkerInput(s) == Some(t) && ObjectOk(s.current, s.worker, s.sessions)
    ensures TakesNothing(s, t) || Takes(s, t)
  {
  }

  // ---------- acts ----------

  lemma SentLater(acts: seq<Act>, a: Act, name: string)
    ensures SentTo(acts + [a], name)
         == SentTo(acts, name) + (if a.HostSends? && a.msg.sid == name then [a.msg] else [])
  {
    assert (acts + [a])[..|acts|] == acts;
  }

  lemma SendsNothing(s: State, acts: seq<Act>, a: Act)
    requires FlowOk(s, acts) && !a.HostSends?
    ensures FlowOk(s, acts + [a])
  {
    assert (acts + [a])[..|acts|] == acts;
    forall n | 0 <= n < |s.sessions|
      ensures TakenOk(s.sessions[n], acts + [a])
    {
      assert TakenOk(s.sessions[n], acts);
    }
  }

  lemma HostSendKeepsFlow(s: State, acts: seq<Act>, msg: Msg)
    requires FlowOk(s, acts) && s.fetcher == Receive && HostMay(s, msg)
    ensures FlowOk(HostSend(s, msg), acts + [HostSends(msg)])
  {
    var t, later := HostSend(s, msg), acts + [HostSends(msg)];
    SentLater(acts, HostSends(msg), msg.sid);
    if s.current.Some? && s.current.value.serial < |s.sessions| {
      var name, consumed := s.current.value.name, s.sessions[s.current.value.serial].consumed;
      SentLater(acts, HostSends(msg), name);
      var line := FromHost(consumed + s.queue);
      assert Line(consumed, s.queue, s.fetcher, name) == line;
      SubsequenceSnoc(line, SentTo(acts, name), msg);
      assert line + [] == line;
    }
    forall n | 0 <= n < |t.sessions|
      ensures TakenOk(t.sessions[n], later)
    {
      TakenLater(t.sessions[n], acts, msg);
    }
  }

  lemma TakenLater(x: Session, acts: seq<Act>, msg: Msg)
    requires TakenOk(x, acts)
    ensures TakenOk(x, acts + [HostSends(msg)])
  {
    SentLater(acts, HostSends(msg), MakeName(x.id));
    SubsequenceSnoc(FromHost(x.consumed), SentTo(acts, MakeName(x.id)), msg);
  }

  lemma HalKeepsFlow(s: State, t: State, acts: seq<Act>)
    requires FlowOk(s, acts) && HalStep(s) == Some(t)
    requires ObjectOk(s.current, s.worker, s.sessions) && QueueOk(s.queue, s.current, s.sessions)
    ensures FlowOk(t, acts)
  {
    HalPasses(s, t);
    if Aborts(s, t) {
      AbortsKeepsFlow(s, t, acts);
    } else {
      TakesNothingKeepsFlow(s, t, acts);
    }
  }

  lemma WorkerKeepsFlow(s: State, t: State, acts: seq<Act>)
    requires FlowOk(s, acts) && s.sessions != [] && WorkerStep(s) == Some(t)
    requires t.fault != DestroyedLive && t.fault != NotStarting && ObjectOk(s.current, s.worker, s.sessions)
    requires RunningOk(Newest(s), s.worker, s.listener, s.promptResult)
    ensures FlowOk(t, acts)
  {
    WorkerPasses(s, t);
    if Takes(s, t) {
      TakesKeepsFlow(s, t, acts);
    } else if Made(s, t) {
      MadeKeepsFlow(s, t, acts);
    } else {
      TakesNothingKeepsFlow(s, t, acts);
    }
  }

  lemma FetcherKeepsFlow(s: State, t: State, acts: seq<Act>)
    requires FlowOk(s, acts) && FetcherStep(s) == Some(t) && QueueOk(s.queue, s.current, s.sessions)
    ensures FlowOk(t, acts)
  {
    FetcherPasses(s, t);
    if Puts(s, t) {
      PutsKeepsFlow(s, t, acts);
    } else {
      HandsOnKeepsFlow(s, t, acts);
    }
  }

  lemma CallKeepsFlow(s: State, a: Act, t: State, acts: seq<Act>)
    requires FlowOk(s, acts) && Do(s, a) == Some(t)
    requires a.CallPrompt? || a.CallDeliver? || a.CallAbort? || a.HalWakesSpuriously? || a.LinkBreaks?
    ensures FlowOk(t, acts)
  {
    HandsOnKeepsFlow(s, t, acts);
  }

  lemma FlowStep(s: State, acts: seq<Act>, a: Act, t: State)
    requires Inv(s) && s.fault == NoFault && FlowOk(s, acts) && Do(s, a) == Some(t)
    ensures FlowOk(t, acts + [a])
  {
    if a.HostSends? {
      HostSendKeepsFlow(s, acts, a.msg);
    } else {
      SendsNothing(s, acts, a);
      match a
      case HalRuns => HalKeepsFlow(s, t, acts + [a]);
      case WorkerRuns =>
        WorkerKeeps(s, t);
        WorkerKeepsFlow(s, t, acts + [a]);
      case FetcherRuns => FetcherKeepsFlow(s, t, acts + [a]);
      case _ => CallKeepsFlow(s, a, t, acts + [a]);
    }
  }

  lemma {:induction false} EveryRunFlows(acts: seq<Act>)
    requires After(acts).Some?
    ensures FlowOk(After(acts).value, acts)
    decreases |acts|
  {
    if acts != [] {
      var before, a := acts[..|acts| - 1], acts[|acts| - 1];
      EveryRunSound(before);
      EveryRunFlows(before);
      FlowStep(After(before).value, before, a, After(acts).value);
      assert before + [a] == acts;
    }
  }

  /** In every run, what a session took from its queue, less the guest's own aborts, the host sent under that
      session's name, in that order and no more often than it sent it. */
  lemma SessionsTakeWhatTheHostSent(acts: seq<Act>, n: nat)
    requires After(acts).Some? && n < |After(acts).value.sessions|
    ensures var x := After(acts).value.sessions[n];
            Subsequence(FromHost(x.consumed), SentTo(acts, MakeName(x.id)))
  {
    EveryRunFlows(acts);
    assert TakenOk(After(acts).value.sessions[n], acts);
  }
}
