/** The camera capture loop: requests come out of a priority queue, lowest frame number first; a pass
    answers some buffers, defers others and puts the request back with the deferred ones.  What a
    pass sees of the caches, the flush flag, the frame provider and the clock is input, so every
    interleaving with the other threads is covered.  `records` is history. */
module CameraSession {
  import opened Wrappers
  import R = Runs
  import Cache = StreamBufferCache

  datatype Format = Yuv | Blob | OtherFormat

  /** What the loop finds when it reaches one buffer. */
  datatype Sighting = Sighting(
    found: bool,        // cached, and its stream configured
    flushing: bool,
    format: Format,
    jpegPending: bool,
    copied: bool)       // the frame or JPEG copy succeeded

  datatype Request = Request(serial: nat, frame: nat, ids: seq<nat>, timestamp: int, filled: bool)

  datatype Reply = Reply(id: nat, ok: bool)

  datatype Outcome = Active | Finished | RequestError | DeviceError

  /** `given`: the client's settings already carried a sensor timestamp. */
  datatype Record = Record(
    frame: nat, ids: seq<nat>, given: bool,
    shutters: seq<int>, metadata: nat, returned: seq<Reply>, outcome: Outcome)

  datatype State = State(
    pending: map<nat, Request>,   // the priority queue, by submission number
    inHand: Option<Request>,
    alive: bool,
    clock: int,
    shutters: seq<nat>,           // frame numbers in the order their shutters were sent
    records: seq<Record>)

  const MAX_WAIT_NS: int := 2000000000
  const INIT: State := State(map[], None, true, 0, [], [])

  // ---------- one buffer ----------

  datatype Fate = Invalid | Defer | Answer(ok: bool)

  function FateOf(b: Sighting, elapsed: int): Fate {
    if !b.found then Invalid
    else if b.flushing then Answer(false)
    else
      match b.format
      case Yuv => Answer(b.copied)
      case Blob =>
        if elapsed == 0 then Defer
        else if b.jpegPending then (if elapsed < MAX_WAIT_NS then Defer else Answer(false))
        else Answer(b.copied)
      case OtherFormat => Answer(false)
  }

  // ---------- one pass over a request's buffers ----------

  datatype Sorted = Failed | Sorted(replies: seq<Reply>, deferred: seq<nat>)

  /** Walks the buffers in order; an invalid one fails the whole pass. */
  function Sort(ids: seq<nat>, seen: seq<Sighting>, elapsed: int): Sorted
    requires |seen| == |ids|
  {
    if ids == [] then Sorted([], [])
    else
      var n := |ids| - 1;
      match Sort(ids[..n], seen[..n], elapsed)
      case Failed => Failed
      case Sorted(replies, deferred) =>
        match FateOf(seen[n], elapsed)
        case Invalid => Failed
        case Defer => Sorted(replies, deferred + [ids[n]])
        case Answer(ok) => Sorted(replies + [Reply(ids[n], ok)], deferred)
  }

  function Ids(replies: seq<Reply>): seq<nat> {
    seq(|replies|, i requires 0 <= i < |replies| => replies[i].id)
  }

  // ---------- what a pass owes, buffer by buffer ----------

  /** The buffer waits for its JPEG: just asked for, or pending and not yet timed out. */
  predicate Waits(b: Sighting, elapsed: int) {
    && !b.flushing && b.format == Blob
    && (elapsed == 0 || (b.jpegPending && elapsed < 2000000000))
  }

  /** The buffer goes back with a picture in it. */
  predicate Filled(b: Sighting) {
    && !b.flushing && b.copied
    && (b.format == Yuv || (b.format == Blob && !b.jpegPending))
  }

  /** The buffers that wait, in order. */
  function Waiting(ids: seq<nat>, seen: seq<Sighting>, elapsed: int): seq<nat>
    requires |seen| == |ids|
  {
    if ids == [] then []
    else
      var n := |ids| - 1;
      Waiting(ids[..n], seen[..n], elapsed) + (if Waits(seen[n], elapsed) then [ids[n]] else [])
  }

  /** The replies for the others, in order. */
  function Answers(ids: seq<nat>, seen: seq<Sighting>, elapsed: int): seq<Reply>
    requires |seen| == |ids|
  {
    if ids == [] then []
    else
      var n := |ids| - 1;
      Answers(ids[..n], seen[..n], elapsed) + (if Waits(seen[n], elapsed) then [] else [Reply(ids[n], Filled(seen[n]))])
  }

  predicate AllFound(seen: seq<Sighting>) {
    forall i | 0 <= i < |seen| :: seen[i].found
  }

  /** A pass over buffers that are all found defers exactly those that wait and answers exactly the
      others, each in order and with its own status. */
  lemma {:induction false} SortIsOwed(ids: seq<nat>, seen: seq<Sighting>, elapsed: int)
    requires |seen| == |ids| && AllFound(seen)
    ensures Sort(ids, seen, elapsed) == Sorted(Answers(ids, seen, elapsed), Waiting(ids, seen, elapsed))
    decreases |ids|
  {
    if ids != [] {
      var n := |ids| - 1;
      SortIsOwed(ids[..n], seen[..n], elapsed);
    }
  }

  method SortBuffers(ids: seq<nat>, seen: seq<Sighting>, elapsed: int) returns (sorted: Sorted)
    requires |seen| == |ids|
    ensures sorted == Sort(ids, seen, elapsed)
    ensures sorted == if AllFound(seen) then Sorted(Answers(ids, seen, elapsed), Waiting(ids, seen, elapsed))
                      else Failed
    ensures sorted.Sorted? ==> multiset(Ids(sorted.replies)) + multiset(sorted.deferred) == multiset(ids)
  {
    var replies: seq<Reply>, deferred: seq<nat> := [], [];
    for i := 0 to |ids|
      invariant Sort(ids[..i], seen[..i], elapsed) == Sorted(replies, deferred)
      invariant forall j | 0 <= j < i :: seen[j].found
    {
      SortStep(ids, seen, elapsed, i);
      match FateOf(seen[i], elapsed) {
        case Invalid =>
          SortFails(ids, seen, elapsed, i);
          return Failed;
        case Defer => deferred := deferred + [ids[i]];
        case Answer(ok) => replies := replies + [Reply(ids[i], ok)];
      }
    }
    assert ids[..|ids|] == ids && seen[..|ids|] == seen;
    SortConserves(ids, seen, elapsed);
    SortIsOwed(ids, seen, elapsed);
    sorted := Sorted(replies, deferred);
  }

  lemma IdsSnoc(replies: seq<Reply>, r: Reply)
    ensures Ids(replies + [r]) == Ids(replies) + [r.id]
  {
  }

  lemma SortStep(ids: seq<nat>, seen: seq<Sighting>, elapsed: int, i: nat)
    requires |seen| == |ids| && i < |ids|
    ensures ids[..i + 1][..i] == ids[..i] && seen[..i + 1][..i] == seen[..i]
    ensures ids[..i + 1][i] == ids[i] && seen[..i + 1][i] == seen[i]
  {
  }

  /** A pass that fails at one buffer stays failed. */
  lemma {:induction false} SortFails(ids: seq<nat>, seen: seq<Sighting>, elapsed: int, i: nat)
    requires |seen| == |ids| && i < |ids| && !seen[i].found
    ensures Sort(ids, seen, elapsed) == Failed
    decreases |ids|
  {
    var n := |ids| - 1;
    if i < n {
      SortFails(ids[..n], seen[..n], elapsed, i);
    }
  }

  /** Whatever is not failed is conserved: each buffer is answered or deferred, as often as asked. */
  lemma {:induction false} SortConserves(ids: seq<nat>, seen: seq<Sighting>, elapsed: int)
    requires |seen| == |ids| && Sort(ids, seen, elapsed).Sorted?
    ensures var s := Sort(ids, seen, elapsed);
            multiset(Ids(s.replies)) + multiset(s.deferred) == multiset(ids)
    decreases |ids|
  {
    if ids != [] {
      var n := |ids| - 1;
      SortConserves(ids[..n], seen[..n], elapsed);
      assert ids == ids[..n] + [ids[n]];
      assert multiset(ids) == multiset(ids[..n]) + multiset{ids[n]};
      var before, after := Sort(ids[..n], seen[..n], elapsed), Sort(ids, seen, elapsed);
      var fate := FateOf(seen[n], elapsed);
      if fate.Answer? {
        IdsSnoc(before.replies, Reply(ids[n], fate.ok));
        assert multiset(Ids(after.replies)) == multiset(Ids(before.replies)) + multiset{ids[n]};
      } else {
        assert multiset(after.deferred) == multiset(before.deferred) + multiset{ids[n]};
      }
    }
  }

  lemma {:induction false} NoneDeferredLate(ids: seq<nat>, seen: seq<Sighting>, elapsed: int)
    requires |seen| == |ids| && Sort(ids, seen, elapsed).Sorted? && elapsed >= MAX_WAIT_NS
    ensures Sort(ids, seen, elapsed).deferred == []
    decreases |ids|
  {
    if ids != [] {
      var n := |ids| - 1;
      NoneDeferredLate(ids[..n], seen[..n], elapsed);
    }
  }

  // ---------- the session's steps ----------

  datatype Act =
    | Submit(frame: nat, ids: seq<nat>, given: bool)
    | Take(serial: nat)
    | Pass(now: int, running: bool, seen: seq<Sighting>)
    | Close

  function DoSubmit(s: State, frame: nat, ids: seq<nat>, given: bool): State {
    var k := |s.records|;
    s.(records := s.records + [Record(frame, ids, given, [], 0, [], Active)],
       pending := s.pending[k := Request(k, frame, ids, 0, given)])
  }

  /** The queue's top is a request with the lowest frame number. */
  predicate IsTop(pending: map<nat, Request>, k: nat) {
    k in pending && forall j | j in pending :: pending[k].frame <= pending[j].frame
  }

  function DoTake(s: State, k: nat): State
    requires k in s.pending
  {
    s.(pending := s.pending - {k}, inHand := Some(s.pending[k]))
  }

  /** The request as it stands once its shutter is out. */
  function Stamped(r: Request, now: int): Request {
    if r.timestamp == 0 then r.(timestamp := now) else r
  }

  /** What a pass makes of a request: its record, and the request to put back, if any. */
  datatype Passed = Passed(record: Record, again: Option<Request>)

  /** How a pass ends, once the shutter is out and the buffers are sorted. */
  function Settled(r: Request, x: Record, sorted: Sorted): Passed {
    match sorted
    case Failed => Passed(x.(outcome := RequestError), None)
    case Sorted(replies, deferred) =>
      var y := x.(metadata := x.metadata + (if r.filled then 0 else 1), returned := x.returned + replies);
      if deferred == [] then Passed(y.(outcome := Finished), None)
      else Passed(y, Some(r.(ids := deferred, filled := true)))
  }

  function PassOver(r: Request, x: Record, now: int, running: bool, seen: seq<Sighting>): Passed
    requires |seen| == |r.ids|
  {
    if !running then Passed(x.(outcome := DeviceError), None)
    else
      var q := Stamped(r, now);
      var y := if r.timestamp == 0 then x.(shutters := x.shutters + [now]) else x;
      Settled(q, y, Sort(r.ids, seen, now - q.timestamp))
  }

  function DoPass(s: State, r: Request, now: int, running: bool, seen: seq<Sighting>): State
    requires r.serial < |s.records| && |seen| == |r.ids|
  {
    var p := PassOver(r, s.records[r.serial], now, running, seen);
    State(if p.again.Some? then s.pending[r.serial := p.again.value] else s.pending,
          None, s.alive && running, now,
          if running && r.timestamp == 0 then s.shutters + [r.frame] else s.shutters,
          s.records[r.serial := p.record])
  }

  function Do(s: State, a: Act): Option<State> {
    match a
    case Submit(frame, ids, given) => Some(DoSubmit(s, frame, ids, given))
    case Take(k) =>
      if s.alive && s.inHand == None && IsTop(s.pending, k) then Some(DoTake(s, k)) else None
    case Pass(now, running, seen) =>
      if s.alive && s.inHand.Some? && now > 0 && now >= s.clock
         && s.inHand.value.serial < |s.records| && |seen| == |s.inHand.value.ids|
      then Some(DoPass(s, s.inHand.value, now, running, seen)) else None
    case Close => if s.inHand == None then Some(s.(alive := false)) else None
  }

  function After(acts: seq<Act>): Option<State> {
    R.Run(Do, INIT, acts)
  }

  // ---------- the session object ----------

  lemma TopExists(pending: map<nat, Request>) returns (k: nat)
    requires pending != map[]
    ensures IsTop(pending, k)
    decreases |pending|
  {
    var j: nat :| j in pending;
    var rest := pending - {j};
    if rest == map[] {
      assert forall i | i in pending :: i == j || i in rest;
      k := j;
    } else {
      k := TopExists(rest);
      if pending[j].frame < pending[k].frame {
        k := j;
      }
      assert forall i | i in pending :: i == j || i in rest;
    }
  }

  /** Camera settings, as far as the loop looks at them. */
  datatype Metadata = NoEntries | Entries(timestamped: bool)

  /** The settings a request comes with: unreadable, none, or new ones. */
  datatype Settings = Corrupt | Unchanged | Fresh(metadata: Metadata)

  datatype Output = Output(id: nat, stream: int, fence: int)

  function OutputIds(outputs: seq<Output>): (ids: seq<nat>)
    ensures |ids| == |outputs| && forall i | 0 <= i < |ids| :: ids[i] == outputs[i].id
  {
    seq(|outputs|, i requires 0 <= i < |outputs| => outputs[i].id)
  }

  /** Enters a request's buffers into the cache: they are all there afterwards, and nothing else was added,
      replaced or dropped. */
  method UpdateBuffers(cache: Cache.StreamBufferCache, outputs: seq<Output>) returns (ids: seq<nat>)
    requires cache.Valid()
    modifies cache, cache.cache
    ensures cache.Valid() && ids == OutputIds(outputs)
    ensures forall id :: id in cache.Map() <==> id in old(cache.Map()) || id in ids
    ensures forall id | id in old(cache.Map()) :: cache.Map()[id] == old(cache.Map()[id])
  {
    ids := [];
    for i := 0 to |outputs|
      invariant cache.Valid() && ids == OutputIds(outputs)[..i]
      invariant forall j | 0 <= j < |cache.cache| :: cache.cache[j] in old(cache.cache) || fresh(cache.cache[j])
      invariant forall id :: id in cache.Map() <==> id in old(cache.Map()) || id in ids
      invariant forall id | id in old(cache.Map()) :: cache.Map()[id] == old(cache.Map()[id])
    {
      ghost var before := cache.Map();
      cache.Update(outputs[i].id, outputs[i].stream, outputs[i].fence);
      ids := ids + [outputs[i].id];
      assert forall id :: id in cache.Map() <==> id in before.Keys + {outputs[i].id};
    }
  }

  /** The loop's side of `VsockCameraDeviceSession`. */
  class CaptureLoop {
    var pending: map<nat, Request>
    var inHand: Option<Request>
    var alive: bool
    var clock: int
    var shutters: seq<nat>
    var records: seq<Record>
    var latest: Metadata

    function View(): State
      reads this
    {
      State(pending, inHand, alive, clock, shutters, records)
    }

    constructor ()
      ensures View() == INIT && latest == NoEntries
    {
      pending, inHand, alive, clock, shutters, records := map[], None, true, 0, [], [];
      latest := NoEntries;
    }

    /** Refused, with nothing changed, exactly when the settings are corrupt, or none come with the
        request and the latest ones have no entries; otherwise the buffers are cached and the request
        is queued under the latest settings. */
    method ProcessOneCaptureRequest(frame: nat, outputs: seq<Output>, settings: Settings,
                                    cache: Cache.StreamBufferCache) returns (ok: bool)
      requires cache.Valid()
      modifies this, cache, cache.cache
      ensures cache.Valid()
      ensures ok <==> settings != Corrupt && (settings == Unchanged ==> old(latest) != NoEntries)
      ensures !ok ==> View() == old(View()) && latest == old(latest) && cache.cache == old(cache.cache)
      ensures ok ==> latest == if settings.Fresh? then settings.metadata else old(latest)
      ensures ok ==> View() == DoSubmit(old(View()), frame, OutputIds(outputs), latest == Entries(true))
      ensures ok ==> forall id :: id in cache.Map() <==> id in old(cache.Map()) || id in OutputIds(outputs)
    {
      if settings == Corrupt {
        return false;
      }
      if settings.Fresh? {
        latest := settings.metadata;
      } else if latest == NoEntries {
        return false;
      }
      var ids := UpdateBuffers(cache, outputs);
      var k, given := |records|, latest == Entries(true);
      records := records + [Record(frame, ids, given, [], 0, [], Active)];
      pending := pending[k := Request(k, frame, ids, 0, given)];
      ok := true;
    }

    /** Takes a top of the queue, or times out when there is none. */
    method GetRequestFromQueue() returns (got: bool)
      requires alive && inHand == None
      modifies this`pending, this`inHand
      ensures got <==> old(pending) != map[]
      ensures got ==> exists k :: IsTop(old(pending), k) && View() == DoTake(old(View()), k)
      ensures !got ==> View() == old(View())
    {
      if pending == map[] {
        return false;
      }
      ghost var some := TopExists(pending);
      var k :| k in pending && forall j | j in pending :: pending[k].frame <= pending[j].frame;
      inHand, pending := Some(pending[k]), pending - {k};
      assert IsTop(old(pending), k);
      got := true;
    }

    method ProcessRequest(now: int, running: bool, seen: seq<Sighting>)
      requires alive && inHand.Some? && inHand.value.serial < |records| && |seen| == |inHand.value.ids|
      modifies this
      ensures View() == DoPass(old(View()), old(inHand.value), now, running, seen)
    {
      var request := inHand.value;
      var k, x := request.serial, records[request.serial];
      inHand, clock := None, now;
      if !running {
        alive := false;
        records := records[k := x.(outcome := DeviceError)];
        return;
      }
      if request.timestamp == 0 {
        request := request.(timestamp := now);
        shutters := shutters + [request.frame];
        x := x.(shutters := x.shutters + [now]);
      }
      var sorted := SortBuffers(request.ids, seen, now - request.timestamp);
      SendResult(request, x, sorted);
    }

    /** The part of a pass after the buffers are sorted. */
    method SendResult(request: Request, record: Record, sorted: Sorted)
      requires request.serial < |records|
      modifies this`pending, this`records
      ensures var p := Settled(request, record, sorted);
              && records == old(records)[request.serial := p.record]
              && pending == if p.again.Some? then old(pending)[request.serial := p.again.value] else old(pending)
    {
      var k, x := request.serial, record;
      if sorted.Failed? {
        records := records[k := x.(outcome := RequestError)];
        return;
      }
      if !request.filled {
        x := x.(metadata := x.metadata + 1);
      }
      x := x.(returned := x.returned + sorted.replies);
      if sorted.deferred == [] {
        records := records[k := x.(outcome := Finished)];
      } else {
        records, pending := records[k := x], pending[k := request.(ids := sorted.deferred, filled := true)];
      }
    }
  }

  // ---------- exactly once ----------

  function Owed(x: Record): nat {
    if x.given then 0 else 1
  }

  /** How a request in flight matches its record: replies so far and buffers left make up the
      request; shutter and metadata are both out, or neither. */
  predicate InFlight(r: Request, x: Record) {
    && r.frame == x.frame && x.outcome == Active
    && multiset(Ids(x.returned)) + multiset(r.ids) == multiset(x.ids)
    && (if x.shutters == [] then r.timestamp == 0 && x.returned == [] && x.metadata == 0 && r.filled == x.given
        else r.timestamp > 0 && x.shutters == [r.timestamp] && r.filled && x.metadata == Owed(x))
  }

  /** What holds of a request that is over. */
  predicate OverOk(x: Record) {
    match x.outcome
    case Active => true
    case Finished =>
      |x.shutters| == 1 && x.metadata == Owed(x) && multiset(Ids(x.returned)) == multiset(x.ids)
    case _ =>
      |x.shutters| <= 1 && x.metadata <= Owed(x) && multiset(Ids(x.returned)) <= multiset(x.ids)
  }

  predicate Inv(s: State) {
    && (forall k | k in s.pending ::
          k < |s.records| && s.pending[k].serial == k && InFlight(s.pending[k], s.records[k]))
    && (s.inHand.Some? ==>
          var r := s.inHand.value;
          r.serial < |s.records| && r.serial !in s.pending && InFlight(r, s.records[r.serial]))
    && (forall k | 0 <= k < |s.records| ::
          && OverOk(s.records[k])
          && (s.records[k].outcome == Active ==>
                k in s.pending || (s.inHand.Some? && s.inHand.value.serial == k)))
  }

  lemma SubmitKeeps(s: State, frame: nat, ids: seq<nat>, given: bool)
    requires Inv(s)
    ensures Inv(DoSubmit(s, frame, ids, given))
  {
  }

  lemma TakeKeeps(s: State, k: nat)
    requires Inv(s) && k in s.pending && s.inHand == None
    ensures Inv(DoTake(s, k))
  {
  }

  /** Replies of an earlier pass and of this one, and what this one defers. */
  lemma PassesAddUp(earlier: seq<Reply>, ids: seq<nat>, all: seq<nat>, replies: seq<Reply>, deferred: seq<nat>)
    requires multiset(Ids(earlier)) + multiset(ids) == multiset(all)
    requires multiset(Ids(replies)) + multiset(deferred) == multiset(ids)
    ensures multiset(Ids(earlier + replies)) + multiset(deferred) == multiset(all)
    ensures deferred == [] ==> multiset(Ids(earlier + replies)) == multiset(all)
  {
    assert Ids(earlier + replies) == Ids(earlier) + Ids(replies);
  }

  /** One pass, seen from the request: it goes on with the deferred buffers, or it is over. */
  lemma PassOverKeeps(r: Request, x: Record, now: int, running: bool, seen: seq<Sighting>)
    requires InFlight(r, x) && |seen| == |r.ids| && now > 0
    ensures var p := PassOver(r, x, now, running, seen);
            && OverOk(p.record)
            && (p.record.outcome == Active <==> p.again.Some?)
            && (p.again.Some? ==> p.again.value.serial == r.serial && InFlight(p.again.value, p.record))
  {
    var sorted := Sort(r.ids, seen, now - Stamped(r, now).timestamp);
    if running && sorted.Sorted? {
      SortConserves(r.ids, seen, now - Stamped(r, now).timestamp);
      PassesAddUp(x.returned, r.ids, x.ids, sorted.replies, sorted.deferred);
    } else {
      PartOfAll(multiset(Ids(x.returned)), multiset(r.ids), multiset(x.ids));
    }
  }

  lemma PartOfAll(part: multiset<nat>, rest: multiset<nat>, all: multiset<nat>)
    requires part + rest == all
    ensures part <= all
  {
  }

  lemma LatePassEnds(r: Request, x: Record, now: int, running: bool, seen: seq<Sighting>)
    requires |seen| == |r.ids| && r.timestamp != 0 && now - r.timestamp >= MAX_WAIT_NS
    ensures PassOver(r, x, now, running, seen).again == None
  {
    if running && Sort(r.ids, seen, now - r.timestamp).Sorted? {
      NoneDeferredLate(r.ids, seen, now - r.timestamp);
    }
  }

  lemma PassKeeps(s: State, now: int, running: bool, seen: seq<Sighting>)
    requires Inv(s) && s.inHand.Some? && |seen| == |s.inHand.value.ids| && now > 0
    ensures Inv(DoPass(s, s.inHand.value, now, running, seen))
  {
    var r := s.inHand.value;
    PassOverKeeps(r, s.records[r.serial], now, running, seen);
    SettleKeeps(s, PassOver(r, s.records[r.serial], now, running, seen), DoPass(s, r, now, running, seen));
  }

  /** The request in hand is put back or done with, whatever the pass made of it. */
  lemma SettleKeeps(s: State, p: Passed, t: State)
    requires Inv(s) && s.inHand.Some? && OverOk(p.record) && (p.record.outcome == Active <==> p.again.Some?)
    requires p.again.Some? ==> p.again.value.serial == s.inHand.value.serial && InFlight(p.again.value, p.record)
    requires t.inHand == None && t.records == s.records[s.inHand.value.serial := p.record]
    requires t.pending == if p.again.Some? then s.pending[s.inHand.value.serial := p.again.value] else s.pending
    ensures Inv(t)
  {
  }

  lemma {:induction false} EveryRunKeeps(acts: seq<Act>)
    requires After(acts).Some?
    ensures Inv(After(acts).value)
    decreases |acts|
  {
    if acts != [] {
      var before, a := acts[..|acts| - 1], acts[|acts| - 1];
      EveryRunKeeps(before);
      var s := After(before).value;
      match a
      case Submit(frame, ids, given) => SubmitKeeps(s, frame, ids, given);
      case Take(k) => TakeKeeps(s, k);
      case Pass(now, running, seen) => PassKeeps(s, now, running, seen);
      case Close =>
    }
  }

  /** In every run, for every accepted request: its shutter and its metadata are sent at most once,
      and exactly once when it finishes (metadata: unless the settings came with a timestamp, and
      then never); no buffer is returned more often than it was asked for, and when the request
      finishes each one exactly as often; a request that is neither finished nor in error is
      still queued or in hand with the buffers it has left. */
  lemma EveryRequestExactlyOnce(acts: seq<Act>, k: nat)
    requires After(acts).Some? && k < |After(acts).value.records|
    ensures var s := After(acts).value;
            var x := s.records[k];
            && |x.shutters| <= 1 && x.metadata <= Owed(x)
            && multiset(Ids(x.returned)) <= multiset(x.ids)
            && (x.outcome == Finished ==>
                  |x.shutters| == 1 && x.metadata == Owed(x) && multiset(Ids(x.returned)) == multiset(x.ids))
            && (x.outcome == Active ==>
                  exists r: Request :: (r in s.pending.Values || s.inHand == Some(r)) && r.serial == k
                    && multiset(Ids(x.returned)) + multiset(r.ids) == multiset(x.ids))
  {
    EveryRunKeeps(acts);
    var s := After(acts).value;
    if s.records[k].outcome == Active {
      var r := if k in s.pending then s.pending[k] else s.inHand.value;
      assert InFlight(r, s.records[k]);
    }
  }

  /** In every run, a pass two seconds or more after the request's shutter ends the request: it
      finishes with nothing left pending, or an invalid buffer or a stopped provider fails it. */
  lemma NothingPendingAfterTwoSeconds(acts: seq<Act>, now: int, running: bool, seen: seq<Sighting>)
    requires After(acts + [Pass(now, running, seen)]).Some?
    ensures After(acts).Some? && After(acts).value.inHand.Some?
    ensures var s, t := After(acts).value, After(acts + [Pass(now, running, seen)]).value;
            var k := s.inHand.value.serial;
            && k < |s.records| && k < |t.records|
            && (s.records[k].shutters != [] && now - s.records[k].shutters[0] >= MAX_WAIT_NS
                ==> t.records[k].outcome != Active && k !in t.pending)
  {
    assert (acts + [Pass(now, running, seen)])[..|acts|] == acts;
    EveryRunKeeps(acts);
    var s := After(acts).value;
    var r := s.inHand.value;
    PassOverKeeps(r, s.records[r.serial], now, running, seen);
    if r.timestamp != 0 && now - r.timestamp >= MAX_WAIT_NS {
      LatePassEnds(r, s.records[r.serial], now, running, seen);
    }
  }

  /** The requests a list of acts submits, in order. */
  function Submissions(acts: seq<Act>): seq<(nat, seq<nat>, bool)> {
    if acts == [] then []
    else
      var before, a := Submissions(acts[..|acts| - 1]), acts[|acts| - 1];
      if a.Submit? then before + [(a.frame, a.ids, a.given)] else before
  }

  /** In every run the records are those of the requests submitted, each under its own frame number,
      buffers and settings; one that no pass has reached is queued or in hand as it was submitted. */
  lemma {:induction false} RecordsAreSubmitted(acts: seq<Act>, k: nat)
    requires After(acts).Some? && k < |Submissions(acts)|
    ensures var s := After(acts).value;
            && |s.records| == |Submissions(acts)|
            && (s.records[k].frame, s.records[k].ids, s.records[k].given) == Submissions(acts)[k]
            && (k in s.pending && s.records[k].shutters == [] ==>
                  s.pending[k] == Request(k, s.records[k].frame, s.records[k].ids, 0, s.records[k].given))
            && (s.inHand.Some? && s.inHand.value.serial == k && s.records[k].shutters == [] ==>
                  s.inHand.value == Request(k, s.records[k].frame, s.records[k].ids, 0, s.records[k].given))
    decreases |acts|
  {
    var before, a := acts[..|acts| - 1], acts[|acts| - 1];
    EveryRunKeeps(before);
    SubmissionsCounted(before);
    if k < |Submissions(before)| {
      RecordsAreSubmitted(before, k);
    }
    if a.Pass? {
      var r := After(before).value.inHand.value;
      PassDoes(r, After(before).value.records[r.serial], a.now, a.running, a.seen);
    }
  }

  lemma {:induction false} SubmissionsCounted(acts: seq<Act>)
    requires After(acts).Some?
    ensures |After(acts).value.records| == |Submissions(acts)|
    decreases |acts|
  {
    if acts != [] {
      SubmissionsCounted(acts[..|acts| - 1]);
    }
  }

  /** What every pass of every run does to the request in hand.  The device gone: an error and the end of
      the loop.  A buffer not found: an error.  Otherwise the shutter is sent if this is the first pass,
      the buffers that do not wait since then are answered, and the request goes back with those that do,
      or is done if none does.  No other request is touched. */
  lemma EveryPassAnswers(acts: seq<Act>, now: int, running: bool, seen: seq<Sighting>)
    requires After(acts + [Pass(now, running, seen)]).Some?
    ensures After(acts).Some? && After(acts).value.inHand.Some?
    ensures var s, t := After(acts).value, After(acts + [Pass(now, running, seen)]).value;
            var r := s.inHand.value;
            && r.serial < |s.records| == |t.records| && |seen| == |r.ids| && t.inHand == None
            && (forall k | 0 <= k < |s.records| && k != r.serial :: t.records[k] == s.records[k])
            && (t.alive <==> s.alive && running)
            && t.shutters == s.shutters + (if running && s.records[r.serial].shutters == [] then [r.frame] else [])
            && r.frame == s.records[r.serial].frame
            && PassDid(r, s.records[r.serial], now, running, seen, t.records[r.serial])
            && t.pending == if t.records[r.serial].outcome == Active
                            then s.pending[r.serial := Left(r, s.records[r.serial], now, seen)] else s.pending
  {
    var all := acts + [Pass(now, running, seen)];
    assert all[..|acts|] == acts;
    EveryRunKeeps(acts);
    var s := After(acts).value;
    var r := s.inHand.value;
    assert Timed(r, s.records[r.serial]);
    PassDoes(r, s.records[r.serial], now, running, seen);
  }

  /** When the request's shutter was sent, this pass included. */
  function ShutterTime(x: Record, now: int): int {
    if x.shutters == [] then now else x.shutters[0]
  }

  predicate PassDid(r: Request, x: Record, now: int, running: bool, seen: seq<Sighting>, y: Record)
    requires |seen| == |r.ids|
  {
    var elapsed := now - ShutterTime(x, now);
    && (y.frame, y.ids, y.given) == (x.frame, x.ids, x.given)
    && y.shutters == (if running && x.shutters == [] then [now] else x.shutters)
    && y.returned == (if running && AllFound(seen) then x.returned + Answers(r.ids, seen, elapsed) else x.returned)
    && y.outcome == if !running then DeviceError
                    else if !AllFound(seen) then RequestError
                    else if Waiting(r.ids, seen, elapsed) == [] then Finished
                    else Active
  }

  /** The request as it goes back to the queue. */
  function Left(r: Request, x: Record, now: int, seen: seq<Sighting>): Request
    requires |seen| == |r.ids|
  {
    Request(r.serial, r.frame, Waiting(r.ids, seen, now - ShutterTime(x, now)), ShutterTime(x, now), true)
  }

  /** The request carries the time of its shutter. */
  predicate Timed(r: Request, x: Record) {
    && x.outcome == Active
    && if x.shutters == [] then r.timestamp == 0 else r.timestamp != 0 && x.shutters == [r.timestamp]
  }

  lemma PassDoes(r: Request, x: Record, now: int, running: bool, seen: seq<Sighting>)
    requires Timed(r, x) && |seen| == |r.ids|
    ensures var p := PassOver(r, x, now, running, seen);
            && PassDid(r, x, now, running, seen, p.record)
            && (p.record.outcome == Active <==> p.again.Some?)
            && (p.again.Some? ==> p.again.value == Left(r, x, now, seen))
  {
    if running {
      if AllFound(seen) {
        SortIsOwed(r.ids, seen, now - ShutterTime(x, now));
      } else {
        NotAllFound(r.ids, seen, now - ShutterTime(x, now));
      }
    }
  }

  lemma NotAllFound(ids: seq<nat>, seen: seq<Sighting>, elapsed: int)
    requires |seen| == |ids| && !AllFound(seen)
    ensures Sort(ids, seen, elapsed) == Failed
  {
    var i :| 0 <= i < |seen| && !seen[i].found;
    SortFails(ids, seen, elapsed, i);
  }

  // ---------- order ----------

  predicate IncreasingFrames(records: seq<Record>) {
    forall i, j | 0 <= i < j < |records| :: records[i].frame < records[j].frame
  }

  predicate Increasing(xs: seq<nat>) {
    forall i, j | 0 <= i < j < |xs| :: xs[i] < xs[j]
  }

  /** A started request is the last one started; the others come after every shutter. */
  predicate Placed(r: Request, shutters: seq<nat>) {
    if r.timestamp == 0 then forall i | 0 <= i < |shutters| :: shutters[i] < r.frame
    else shutters != [] && shutters[|shutters| - 1] == r.frame
  }

  predicate OrderInv(s: State) {
    && Increasing(s.shutters)
    && (forall k | k in s.pending :: Placed(s.pending[k], s.shutters))
    && (s.inHand.Some? ==>
          && Placed(s.inHand.value, s.shutters)
          && forall k | k in s.pending :: s.inHand.value.frame < s.pending[k].frame)
    && (forall i | 0 <= i < |s.shutters| :: Submitted(s.records, s.shutters[i]))
  }

  predicate Submitted(records: seq<Record>, frame: nat) {
    exists k | 0 <= k < |records| :: records[k].frame == frame
  }

  lemma SubmitKeepsOrder(s: State, frame: nat, ids: seq<nat>, given: bool)
    requires Inv(s) && OrderInv(s) && IncreasingFrames(DoSubmit(s, frame, ids, given).records)
    ensures OrderInv(DoSubmit(s, frame, ids, given))
  {
    var t := DoSubmit(s, frame, ids, given);
    var n := |s.records|;
    forall k | 0 <= k < n
      ensures s.records[k].frame < frame
    {
      assert t.records[k].frame < t.records[n].frame;
    }
    forall i | 0 <= i < |t.shutters|
      ensures Submitted(t.records, t.shutters[i])
    {
      assert Submitted(s.records, s.shutters[i]);
      var k :| 0 <= k < n && s.records[k].frame == s.shutters[i];
      assert t.records[k].frame == t.shutters[i];
    }
  }

  lemma TakeKeepsOrder(s: State, k: nat)
    requires Inv(s) && OrderInv(s) && IncreasingFrames(s.records) && s.inHand == None && IsTop(s.pending, k)
    ensures OrderInv(DoTake(s, k))
  {
    forall j | j in s.pending && j != k
      ensures s.pending[k].frame < s.pending[j].frame
    {
      assert s.pending[k].frame == s.records[k].frame && s.pending[j].frame == s.records[j].frame;
      assert s.records[k].frame != s.records[j].frame;
    }
  }

  lemma PassKeepsOrder(s: State, now: int, running: bool, seen: seq<Sighting>)
    requires Inv(s) && OrderInv(s) && s.inHand.Some? && |seen| == |s.inHand.value.ids| && now > 0
    ensures OrderInv(DoPass(s, s.inHand.value, now, running, seen))
  {
    PassPlaces(s, now, running, seen);
    PassKeepsSubmitted(s, now, running, seen);
  }

  lemma PassPlaces(s: State, now: int, running: bool, seen: seq<Sighting>)
    requires Inv(s) && OrderInv(s) && s.inHand.Some? && |seen| == |s.inHand.value.ids| && now > 0
    ensures var t := DoPass(s, s.inHand.value, now, running, seen);
            Increasing(t.shutters) && forall k | k in t.pending :: Placed(t.pending[k], t.shutters)
  {
  }

  lemma PassKeepsSubmitted(s: State, now: int, running: bool, seen: seq<Sighting>)
    requires Inv(s) && OrderInv(s) && s.inHand.Some? && |seen| == |s.inHand.value.ids|
    ensures var t := DoPass(s, s.inHand.value, now, running, seen);
            forall i | 0 <= i < |t.shutters| :: Submitted(t.records, t.shutters[i])
  {
    var r := s.inHand.value;
    var t := DoPass(s, r, now, running, seen);
    forall i | 0 <= i < |t.shutters|
      ensures Submitted(t.records, t.shutters[i])
    {
      if i < |s.shutters| {
        assert Submitted(s.records, s.shutters[i]);
        var k :| 0 <= k < |s.records| && s.records[k].frame == s.shutters[i];
        assert t.records[k].frame == t.shutters[i];
      } else {
        assert t.records[r.serial].frame == t.shutters[i];
      }
    }
  }

  lemma {:induction false} EveryRunKeepsOrder(acts: seq<Act>)
    requires After(acts).Some? && IncreasingFrames(After(acts).value.records)
    ensures OrderInv(After(acts).value)
    decreases |acts|
  {
    if acts != [] {
      var before, a := acts[..|acts| - 1], acts[|acts| - 1];
      var s, t := After(before).value, After(acts).value;
      EveryRunKeeps(before);
      assert IncreasingFrames(s.records) by {
        forall i, j | 0 <= i < j < |s.records|
          ensures s.records[i].frame < s.records[j].frame
        {
          assert t.records[i].frame < t.records[j].frame;
        }
      }
      EveryRunKeepsOrder(before);
      match a
      case Submit(frame, ids, given) => SubmitKeepsOrder(s, frame, ids, given);
      case Take(k) => TakeKeepsOrder(s, k);
      case Pass(now, running, seen) => PassKeepsOrder(s, now, running, seen);
      case Close =>
    }
  }

  /** If requests are submitted in increasing frame number, shutters come out strictly increasing, and
      whenever a shutter is sent every request still open has a later frame and has not started. */
  lemma ShuttersInOrder(acts: seq<Act>, now: int, running: bool, seen: seq<Sighting>)
    requires After(acts + [Pass(now, running, seen)]).Some?
    requires IncreasingFrames(After(acts + [Pass(now, running, seen)]).value.records)
    ensures After(acts).Some? && After(acts).value.inHand.Some?
    ensures var s, t := After(acts).value, After(acts + [Pass(now, running, seen)]).value;
            && Increasing(t.shutters)
            && (|t.shutters| > |s.shutters| ==>
                  forall k | k in s.pending ::
                    s.pending[k].frame > t.shutters[|t.shutters| - 1] && s.pending[k].timestamp == 0)
  {
    var all := acts + [Pass(now, running, seen)];
    assert all[..|acts|] == acts;
    EveryRunKeepsOrder(all);
    EveryRunKeeps(acts);
    var s, t := After(acts).value, After(all).value;
    assert IncreasingFrames(s.records) by {
      forall i, j | 0 <= i < j < |s.records|
        ensures s.records[i].frame < s.records[j].frame
      {
        assert t.records[i].frame < t.records[j].frame;
      }
    }
    EveryRunKeepsOrder(acts);
  }
}
