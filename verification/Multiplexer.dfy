/** Several queues behind one counting semaphore.  A push enqueues and then posts; a pop waits on the
    semaphore, scans the queues one by one for a non-empty one, and pops it.  Each queue and
    semaphore operation is one atomic step; producers and consumers interleave freely. */
module Multiplexer {
  import opened Wrappers
  import R = Runs

  datatype Consumer = Waiting | Scanning(at: nat) | Selected(queue: int)

  datatype State = State(
    queues: seq<seq<int>>,
    count: nat,            // the semaphore
    capacity: nat,
    unposted: nat,         // pushes past the enqueue but not past the post
    consumers: seq<Consumer>,
    crashed: bool,         // CheckIdx failed on the selector's answer
    popped: seq<seq<int>>) // history: what the pops of each queue returned

  function Empties(n: nat): (s: seq<seq<int>>)
    ensures |s| == n && forall i | 0 <= i < n :: s[i] == []
  {
    seq(n, _ => [])
  }

  function Start(queues: nat, capacity: nat, consumers: nat): State {
    State(Empties(queues), 0, capacity, 0, seq(consumers, _ => Waiting), false,
          Empties(queues))
  }

  datatype Act = Enqueue(queue: nat, item: int) | Post | Step(consumer: nat)

  function DoEnqueue(s: State, q: nat, x: int): State
    requires q < |s.queues|
  {
    s.(queues := s.queues[q := s.queues[q] + [x]], unposted := s.unposted + 1)
  }

  /** `SemPost` waits while the count is above the capacity, so it can leave it one above. */
  function DoPost(s: State): Option<State> {
    if s.unposted > 0 && s.count <= s.capacity
    then Some(s.(unposted := s.unposted - 1, count := s.count + 1)) else None
  }

  function SetConsumer(s: State, c: nat, pc: Consumer): State
    requires c < |s.consumers|
  {
    s.(consumers := s.consumers[c := pc])
  }

  function DoStep(s: State, c: nat): Option<State>
    requires c < |s.consumers|
  {
    match s.consumers[c]
    case Waiting =>
      if s.count > 0 then Some(SetConsumer(s, c, Scanning(0)).(count := s.count - 1)) else None
    case Scanning(at) =>
      if at >= |s.queues| then Some(SetConsumer(s, c, Selected(-1)))
      else if s.queues[at] != [] then Some(SetConsumer(s, c, Selected(at)))
      else Some(SetConsumer(s, c, Scanning(at + 1)))
    case Selected(q) =>
      if !(0 <= q < |s.queues| && q < |s.popped|) then Some(s.(crashed := true))
      else if s.queues[q] == [] then None
      else Some(SetConsumer(s, c, Waiting).(
                  queues := s.queues[q := s.queues[q][1..]],
                  popped := s.popped[q := s.popped[q] + [s.queues[q][0]]]))
  }

  function Do(s: State, a: Act): Option<State> {
    if s.crashed then None
    else
      match a
      case Enqueue(q, x) => if q < |s.queues| then Some(DoEnqueue(s, q, x)) else None
      case Post => DoPost(s)
      case Step(c) => if c < |s.consumers| then DoStep(s, c) else None
  }

  function After(s: State, acts: seq<Act>): Option<State> {
    R.Run(Do, s, acts)
  }

  // ---------- conservation, for any number of producers and consumers ----------

  function Total(queues: seq<seq<int>>): nat {
    if queues == [] then 0 else Total(queues[..|queues| - 1]) + |queues[|queues| - 1]|
  }

  /** Consumers past the semaphore that have not popped yet. */
  function Past(consumers: seq<Consumer>): nat {
    if consumers == [] then 0
    else Past(consumers[..|consumers| - 1]) + (if consumers[|consumers| - 1].Waiting? then 0 else 1)
  }

  predicate Inv(s: State) {
    && Total(s.queues) == s.count + s.unposted + Past(s.consumers)
    && s.count <= s.capacity + 1
    && |s.popped| == |s.queues|
  }

  lemma {:induction false} TotalUpdate(queues: seq<seq<int>>, q: nat, items: seq<int>)
    requires q < |queues|
    ensures Total(queues[q := items]) == Total(queues) - |queues[q]| + |items|
    decreases |queues|
  {
    var n := |queues| - 1;
    if q == n {
      assert queues[q := items][..n] == queues[..n];
    } else {
      assert queues[q := items][..n] == queues[..n][q := items];
      TotalUpdate(queues[..n], q, items);
    }
  }

  lemma {:induction false} PastUpdate(consumers: seq<Consumer>, c: nat, pc: Consumer)
    requires c < |consumers|
    ensures Past(consumers[c := pc]) ==
            Past(consumers) - (if consumers[c].Waiting? then 0 else 1) + (if pc.Waiting? then 0 else 1)
    decreases |consumers|
  {
    var n := |consumers| - 1;
    if c == n {
      assert consumers[c := pc][..n] == consumers[..n];
    } else {
      assert consumers[c := pc][..n] == consumers[..n][c := pc];
      PastUpdate(consumers[..n], c, pc);
    }
  }

  lemma StepKeeps(s: State, c: nat, t: State)
    requires Inv(s) && c < |s.consumers| && DoStep(s, c) == Some(t)
    ensures Inv(t)
  {
    match s.consumers[c]
    case Waiting => PastUpdate(s.consumers, c, Scanning(0));
    case Scanning(_) => PastUpdate(s.consumers, c, t.consumers[c]);
    case Selected(q) =>
      if 0 <= q < |s.queues| && q < |s.popped| {
        PopKeeps(s, c, q, t);
      }
  }

  lemma PopKeeps(s: State, c: nat, q: nat, t: State)
    requires Inv(s) && c < |s.consumers| && s.consumers[c] == Selected(q) && q < |s.queues| && DoStep(s, c) == Some(t)
    ensures Inv(t)
  {
    PastUpdate(s.consumers, c, Waiting);
    TotalUpdate(s.queues, q, s.queues[q][1..]);
  }

  lemma {:induction false} StartTotal(n: nat)
    ensures Total(Empties(n)) == 0
  {
    if n > 0 {
      assert Empties(n)[..n - 1] == Empties(n - 1);
      StartTotal(n - 1);
    }
  }

  lemma {:induction false} StartPast(n: nat)
    ensures Past(seq(n, _ => Waiting)) == 0
  {
    if n > 0 {
      assert seq(n, _ => Waiting)[..n - 1] == seq(n - 1, _ => Waiting);
      StartPast(n - 1);
    }
  }

  /** In every run, with any number of producers and consumers: the items in the queues are the
      semaphore's count, the pushes not yet posted and the pops past the wait, and the count never
      exceeds capacity + 1. */
  lemma {:induction false} EveryRunConserves(queues: nat, capacity: nat, consumers: nat, acts: seq<Act>)
    requires After(Start(queues, capacity, consumers), acts).Some?
    ensures var s := After(Start(queues, capacity, consumers), acts).value;
            Inv(s) && |s.queues| == queues && |s.consumers| == consumers && s.capacity == capacity
    decreases |acts|
  {
    if acts == [] {
      StartTotal(queues);
      StartPast(consumers);
    } else {
      var before, a := acts[..|acts| - 1], acts[|acts| - 1];
      EveryRunConserves(queues, capacity, consumers, before);
      var s := After(Start(queues, capacity, consumers), before).value;
      var t := Do(s, a).value;
      match a
      case Enqueue(q, x) => TotalUpdate(s.queues, q, s.queues[q] + [x]);
      case Post =>
      case Step(c) => StepKeeps(s, c, t);
    }
  }

  /** The items a list of acts pushes to queue `q`, in order. */
  function PushedTo(acts: seq<Act>, q: nat): seq<int> {
    if acts == [] then []
    else
      var before, a := PushedTo(acts[..|acts| - 1], q), acts[|acts| - 1];
      if a.Enqueue? && a.queue == q then before + [a.item] else before
  }

  /** Its pushes that have enqueued and not posted. */
  function Unposted(acts: seq<Act>): int {
    if acts == [] then 0
    else
      var before, a := Unposted(acts[..|acts| - 1]), acts[|acts| - 1];
      if a.Enqueue? then before + 1 else if a.Post? then before - 1 else before
  }

  /** In every run, every queue hands out exactly the items pushed to it, in the order they were pushed:
      what its pops returned and what it still holds are what the acts pushed, none lost, changed,
      repeated or moved. */
  lemma {:induction false} EveryQueueKeepsItsItems(queues: nat, capacity: nat, consumers: nat, acts: seq<Act>, q: nat)
    requires q < queues && After(Start(queues, capacity, consumers), acts).Some?
    ensures var s := After(Start(queues, capacity, consumers), acts).value;
            && |s.queues| == |s.popped| == queues
            && PushedTo(acts, q) == s.popped[q] + s.queues[q]
            && Unposted(acts) == s.unposted
    decreases |acts|
  {
    EveryRunConserves(queues, capacity, consumers, acts);
    if acts != [] {
      var before, a := acts[..|acts| - 1], acts[|acts| - 1];
      EveryRunConserves(queues, capacity, consumers, before);
      EveryQueueKeepsItsItems(queues, capacity, consumers, before, q);
      ItemsMove(After(Start(queues, capacity, consumers), before).value, a, q);
    }
  }

  lemma ItemsMove(s: State, a: Act, q: nat)
    requires Do(s, a).Some? && |s.popped| == |s.queues| && q < |s.queues|
    ensures var t := Do(s, a).value;
            && |t.popped| == |t.queues| == |s.queues|
            && t.popped[q] + t.queues[q] ==
               s.popped[q] + s.queues[q] + (if a.Enqueue? && a.queue == q then [a.item] else [])
            && t.unposted == s.unposted + (if a.Enqueue? then 1 else if a.Post? then -1 else 0)
  {
    var t := Do(s, a).value;
    if a.Step? && t.queues != s.queues {
      var r := s.consumers[a.consumer].queue;
      assert s.queues[r] == [s.queues[r][0]] + s.queues[r][1..];
      assert t.popped[r] + t.queues[r] == s.popped[r] + s.queues[r];
    }
  }

  lemma Snoc(s: State, acts: seq<Act>, a: Act, mid: State, t: State)
    requires After(s, acts) == Some(mid) && Do(mid, a) == Some(t)
    ensures After(s, acts + [a]) == Some(t)
  {
    R.Snoc(Do, s, acts, a);
  }

  /** The bound is tight: with capacity + 1 pushes and no consumer the count gets there. */
  lemma {:induction false} CountReachesCapacityPlusOne(capacity: nat, k: nat) returns (acts: seq<Act>, s: State)
    requires k <= capacity + 1
    ensures After(Start(1, capacity, 0), acts) == Some(s) && s.count == k
    ensures s.unposted == 0 && !s.crashed && |s.queues| == 1 && s.capacity == capacity
  {
    if k == 0 {
      acts, s := [], Start(1, capacity, 0);
    } else {
      acts, s := CountReachesCapacityPlusOne(capacity, k - 1);
      var mid := DoEnqueue(s, 0, 7);
      Snoc(Start(1, capacity, 0), acts, Enqueue(0, 7), s, mid);
      acts := acts + [Enqueue(0, 7)];
      s := mid.(unposted := 0, count := k);
      Snoc(Start(1, capacity, 0), acts, Post, mid, s);
      acts := acts + [Post];
    }
  }

  // ---------- the selector always finds a queue ----------

  /** How many items lie in queue `k` and the queues after it. */
  function ItemsFrom(queues: seq<seq<int>>, k: nat): (n: nat)
    ensures k >= |queues| ==> n == 0
  {
    if |queues| <= k then 0 else ItemsFrom(queues[..|queues| - 1], k) + |queues[|queues| - 1]|
  }

  /** The consumer's scan has got as far as queue `k`; answering -1 is to have got past the end. */
  predicate Reaches(c: Consumer, k: nat) {
    match c
    case Waiting => false
    case Scanning(at) => at >= k
    case Selected(q) => q >= k || q < 0
  }

  function AtOrPast(consumers: seq<Consumer>, k: nat): nat {
    if consumers == [] then 0
    else AtOrPast(consumers[..|consumers| - 1], k) + (if Reaches(consumers[|consumers| - 1], k) then 1 else 0)
  }

  lemma {:induction false} ItemsFromUpdate(queues: seq<seq<int>>, q: nat, items: seq<int>, k: nat)
    requires q < |queues|
    ensures ItemsFrom(queues[q := items], k) ==
            ItemsFrom(queues, k) + (if q >= k then |items| - |queues[q]| else 0)
    decreases |queues|
  {
    var n := |queues| - 1;
    if q == n {
      assert queues[q := items][..n] == queues[..n];
    } else {
      assert queues[q := items][..n] == queues[..n][q := items];
      ItemsFromUpdate(queues[..n], q, items, k);
    }
  }

  lemma {:induction false} AtOrPastUpdate(consumers: seq<Consumer>, c: nat, pc: Consumer, k: nat)
    requires c < |consumers|
    ensures AtOrPast(consumers[c := pc], k) ==
            AtOrPast(consumers, k) - (if Reaches(consumers[c], k) then 1 else 0) + (if Reaches(pc, k) then 1 else 0)
    decreases |consumers|
  {
    var n := |consumers| - 1;
    if c == n {
      assert consumers[c := pc][..n] == consumers[..n];
    } else {
      assert consumers[c := pc][..n] == consumers[..n][c := pc];
      AtOrPastUpdate(consumers[..n], c, pc, k);
    }
  }

  lemma {:induction false} CountedOnce(consumers: seq<Consumer>, c: nat, k: nat)
    requires c < |consumers| && Reaches(consumers[c], k)
    ensures AtOrPast(consumers, k) >= 1
    decreases |consumers|
  {
    var n := |consumers| - 1;
    if c < n {
      CountedOnce(consumers[..n], c, k);
    }
  }

  /** Past an empty queue nothing is left behind. */
  lemma {:induction false} ItemsPastEmpty(queues: seq<seq<int>>, k: nat)
    requires k < |queues| && queues[k] == []
    ensures ItemsFrom(queues, k) == ItemsFrom(queues, k + 1)
    decreases |queues|
  {
    if k < |queues| - 1 {
      ItemsPastEmpty(queues[..|queues| - 1], k);
    }
  }

  /** Whoever moves on from queue `k` was counted there and no further. */
  lemma {:induction false} AtOrPastNext(consumers: seq<Consumer>, c: nat, k: nat)
    requires c < |consumers| && consumers[c] == Scanning(k)
    ensures AtOrPast(consumers, k + 1) + 1 <= AtOrPast(consumers, k)
    decreases |consumers|
  {
    var n := |consumers| - 1;
    if c < n {
      AtOrPastNext(consumers[..n], c, k);
    } else {
      AtOrPastMonotone(consumers[..n], k);
    }
  }

  lemma {:induction false} AtOrPastMonotone(consumers: seq<Consumer>, k: nat)
    ensures AtOrPast(consumers, k + 1) <= AtOrPast(consumers, k)
  {
    if consumers != [] {
      AtOrPastMonotone(consumers[..|consumers| - 1], k);
    }
  }

  lemma {:induction false} FromZero(queues: seq<seq<int>>, consumers: seq<Consumer>)
    ensures ItemsFrom(queues, 0) == Total(queues)
    ensures AtOrPast(consumers, 0) == Past(consumers)
    decreases |queues| + |consumers|
  {
    if queues != [] {
      FromZero(queues[..|queues| - 1], consumers);
    } else if consumers != [] {
      FromZero(queues, consumers[..|consumers| - 1]);
    }
  }

  /** From any queue on, there is an item for every consumer that has got that far. */
  ghost predicate EnoughAhead(s: State) {
    forall k: nat :: AtOrPast(s.consumers, k) <= ItemsFrom(s.queues, k)
  }

  lemma EnqueueKeepsEnough(s: State, q: nat, x: int)
    requires EnoughAhead(s) && q < |s.queues|
    ensures EnoughAhead(DoEnqueue(s, q, x))
  {
    forall k: nat
      ensures ItemsFrom(DoEnqueue(s, q, x).queues, k) >= ItemsFrom(s.queues, k)
    {
      ItemsFromUpdate(s.queues, q, s.queues[q] + [x], k);
    }
  }

  /** No consumer has got past the last queue. */
  lemma InRange(s: State, c: nat)
    requires EnoughAhead(s) && c < |s.consumers|
    ensures !Reaches(s.consumers[c], |s.queues|)
  {
    assert AtOrPast(s.consumers, |s.queues|) <= ItemsFrom(s.queues, |s.queues|);
    if Reaches(s.consumers[c], |s.queues|) {
      CountedOnce(s.consumers, c, |s.queues|);
    }
  }

  lemma StepKeepsEnough(s: State, c: nat, t: State)
    requires Inv(s) && Inv(t) && EnoughAhead(s) && c < |s.consumers| && DoStep(s, c) == Some(t)
    ensures EnoughAhead(t) && t.crashed == s.crashed
  {
    InRange(s, c);
    forall k: nat
      ensures AtOrPast(t.consumers, k) <= ItemsFrom(t.queues, k)
    {
      assert AtOrPast(s.consumers, k) <= ItemsFrom(s.queues, k);
      AtOrPastUpdate(s.consumers, c, t.consumers[c], k);
      match s.consumers[c]
      case Waiting =>
        if k == 0 {
          FromZero(t.queues, t.consumers);
        }
      case Scanning(at) =>
        if s.queues[at] == [] && k == at + 1 {
          ItemsPastEmpty(s.queues, at);
          AtOrPastNext(s.consumers, c, at);
          assert AtOrPast(s.consumers, at) <= ItemsFrom(s.queues, at);
        }
      case Selected(q) => ItemsFromUpdate(s.queues, q, s.queues[q][1..], k);
    }
  }

  lemma {:induction false} NobodyYet(n: nat, k: nat)
    ensures AtOrPast(seq(n, _ => Waiting), k) == 0
  {
    if n > 0 {
      assert seq(n, _ => Waiting)[..n - 1] == seq(n - 1, _ => Waiting);
      NobodyYet(n - 1, k);
    }
  }

  /** In every run, with any number of producers and consumers, the selector never answers -1, so the
      index check behind it never fails. */
  lemma {:induction false} SelectorNeverFails(queues: nat, capacity: nat, consumers: nat, acts: seq<Act>)
    requires After(Start(queues, capacity, consumers), acts).Some?
    ensures var s := After(Start(queues, capacity, consumers), acts).value;
            && !s.crashed && EnoughAhead(s) && |s.queues| == queues && |s.consumers| == consumers
            && forall c | 0 <= c < consumers :: !Reaches(s.consumers[c], queues)
    decreases |acts|
  {
    EveryRunConserves(queues, capacity, consumers, acts);
    var t := After(Start(queues, capacity, consumers), acts).value;
    if acts == [] {
      forall k: nat
        ensures AtOrPast(t.consumers, k) == 0
      {
        NobodyYet(consumers, k);
      }
    } else {
      var before, a := acts[..|acts| - 1], acts[|acts| - 1];
      SelectorNeverFails(queues, capacity, consumers, before);
      EveryRunConserves(queues, capacity, consumers, before);
      var s := After(Start(queues, capacity, consumers), before).value;
      match a {
        case Enqueue(q, x) => EnqueueKeepsEnough(s, q, x);
        case Post =>
        case Step(c) => StepKeepsEnough(s, c, t);
      }
    }
    forall c | 0 <= c < consumers
      ensures !Reaches(t.consumers[c], queues)
    {
      InRange(t, c);
    }
  }

  // ---------- when a consumer can block ----------

  lemma {:induction false} SomeQueueHasItems(queues: seq<seq<int>>) returns (q: nat)
    requires Total(queues) > 0
    ensures q < |queues| && queues[q] != []
  {
    var n := |queues| - 1;
    if queues[n] != [] {
      q := n;
    } else {
      q := SomeQueueHasItems(queues[..n]);
    }
  }

  predicate HasItemsFrom(queues: seq<seq<int>>, at: nat) {
    exists q | at <= q < |queues| :: queues[q] != []
  }

  predicate ConsumerOk(s: State, c: Consumer) {
    match c
    case Waiting => true
    case Scanning(at) => HasItemsFrom(s.queues, at)
    case Selected(q) => 0 <= q < |s.queues| && s.queues[q] != []
  }

  lemma EnqueueKeepsOk(s: State, q: nat, x: int, c: Consumer)
    requires ConsumerOk(s, c) && q < |s.queues|
    ensures ConsumerOk(DoEnqueue(s, q, x), c)
  {
    if c.Scanning? {
      var j :| c.at <= j < |s.queues| && s.queues[j] != [];
      assert DoEnqueue(s, q, x).queues[j] != [];
    }
  }

  lemma StepKeepsOk(s: State, t: State)
    requires Inv(s) && |s.consumers| == 1 && ConsumerOk(s, s.consumers[0]) && DoStep(s, 0) == Some(t)
    ensures |t.consumers| == 1 && ConsumerOk(t, t.consumers[0]) && t.crashed == s.crashed
  {
    match s.consumers[0]
    case Waiting =>
      assert Past(s.consumers) == 0;
      var q := SomeQueueHasItems(s.queues);
      assert HasItemsFrom(t.queues, 0);
    case Scanning(at) =>
      var q :| at <= q < |s.queues| && s.queues[q] != [];
      if s.queues[at] == [] {
        assert HasItemsFrom(t.queues, at + 1);
      }
    case Selected(_) =>
  }

  /** In every run with a single consumer the selector never answers -1, the pop it leads to never
      has to wait, and a consumer past the semaphore can always take its next step. */
  lemma {:induction false} SingleConsumerNeverBlocks(queues: nat, capacity: nat, acts: seq<Act>)
    requires After(Start(queues, capacity, 1), acts).Some?
    ensures var s := After(Start(queues, capacity, 1), acts).value;
            && !s.crashed && |s.consumers| == 1 && ConsumerOk(s, s.consumers[0])
            && (s.consumers[0] != Waiting ==> Do(s, Step(0)).Some?)
    decreases |acts|
  {
    EveryRunConserves(queues, capacity, 1, acts);
    if acts != [] {
      var before, a := acts[..|acts| - 1], acts[|acts| - 1];
      SingleConsumerNeverBlocks(queues, capacity, before);
      EveryRunConserves(queues, capacity, 1, before);
      var s := After(Start(queues, capacity, 1), before).value;
      match a
      case Enqueue(q, x) => EnqueueKeepsOk(s, q, x, s.consumers[0]);
      case Post =>
      case Step(c) => StepKeepsOk(s, Do(s, a).value);
    }
  }

  /** A consumer past the semaphore whose next step has to wait. */
  predicate Blocked(s: State, c: nat) {
    c < |s.consumers| && s.consumers[c] != Waiting && Do(s, Step(c)) == None
  }

  /** Two consumers pass the semaphore while queue 0 holds one item, then another queue gets one. */
  lemma BothPass(queues: nat, capacity: nat, consumers: nat) returns (acts: seq<Act>, s: State)
    requires queues >= 2 && consumers >= 2
    ensures After(Start(queues, capacity, consumers), acts) == Some(s) && !s.crashed
    ensures |s.queues| == |s.popped| == queues && |s.queues[0]| == 1
    ensures |s.consumers| == consumers && s.consumers[0] == s.consumers[1] == Scanning(0)
  {
    var s0 := Start(queues, capacity, consumers);
    var s1 := DoEnqueue(s0, 0, 7);
    var s2 := s1.(unposted := 0, count := 1);
    var s3 := SetConsumer(s2, 0, Scanning(0)).(count := 0);
    var s4 := DoEnqueue(s3, 1, 8);
    var s5 := s4.(unposted := 0, count := 1);
    s := SetConsumer(s5, 1, Scanning(0)).(count := 0);
    Snoc(s0, [], Enqueue(0, 7), s0, s1);
    acts := [] + [Enqueue(0, 7)];
    Snoc(s0, acts, Post, s1, s2);
    acts := acts + [Post];
    Snoc(s0, acts, Step(0), s2, s3);
    acts := acts + [Step(0)];
    Snoc(s0, acts, Enqueue(1, 8), s3, s4);
    acts := acts + [Enqueue(1, 8)];
    Snoc(s0, acts, Post, s4, s5);
    acts := acts + [Post];
    Snoc(s0, acts, Step(1), s5, s);
    acts := acts + [Step(1)];
  }

  /** With a second queue and a second consumer, at any capacity: both select queue 0, one takes its
      only item, and the other waits there although another queue has an item for it. */
  lemma TwoConsumersCanBlock(queues: nat, capacity: nat, consumers: nat) returns (acts: seq<Act>, s: State)
    requires queues >= 2 && consumers >= 2
    ensures After(Start(queues, capacity, consumers), acts) == Some(s) && Blocked(s, 1)
  {
    var s0 := Start(queues, capacity, consumers);
    var s1;
    acts, s1 := BothPass(queues, capacity, consumers);
    var s2 := SetConsumer(s1, 0, Selected(0));
    var s3 := SetConsumer(s2, 1, Selected(0));
    s := SetConsumer(s3, 0, Waiting).(
      queues := s3.queues[0 := s3.queues[0][1..]],
      popped := s3.popped[0 := s3.popped[0] + [s3.queues[0][0]]]);
    Snoc(s0, acts, Step(0), s1, s2);
    acts := acts + [Step(0)];
    Snoc(s0, acts, Step(1), s2, s3);
    acts := acts + [Step(1)];
    Snoc(s0, acts, Step(0), s3, s);
    acts := acts + [Step(0)];
  }

  /** In a run that ends with consumer `c` blocked, there are two queues and two consumers at least. */
  lemma BlockedNeedsTwo(queues: nat, capacity: nat, consumers: nat, acts: seq<Act>, c: nat)
    requires After(Start(queues, capacity, consumers), acts).Some?
    requires Blocked(After(Start(queues, capacity, consumers), acts).value, c)
    ensures queues >= 2 && consumers >= 2
  {
    var s := After(Start(queues, capacity, consumers), acts).value;
    SelectorNeverFails(queues, capacity, consumers, acts);
    assert s.consumers[c].Selected? && s.queues[s.consumers[c].queue] == [];
    assert AtOrPast(s.consumers, 0) <= ItemsFrom(s.queues, 0);
    CountedOnce(s.consumers, c, 0);
    if consumers == 1 {
      SingleConsumerNeverBlocks(queues, capacity, acts);
    }
  }

  /** Some run leaves a consumer blocked past the semaphore exactly when there are two queues and two
      consumers at least, whatever the capacity. */
  lemma BlocksExactlyWhen(queues: nat, capacity: nat, consumers: nat)
    ensures (exists acts: seq<Act>, c: nat ::
               var s := After(Start(queues, capacity, consumers), acts);
               s.Some? && Blocked(s.value, c))
            <==> queues >= 2 && consumers >= 2
  {
    if queues >= 2 && consumers >= 2 {
      var acts, s := TwoConsumersCanBlock(queues, capacity, consumers);
      assert Blocked(After(Start(queues, capacity, consumers), acts).value, 1);
    } else {
      forall acts: seq<Act>, c: nat | After(Start(queues, capacity, consumers), acts).Some?
        ensures !Blocked(After(Start(queues, capacity, consumers), acts).value, c)
      {
        if Blocked(After(Start(queues, capacity, consumers), acts).value, c) {
          BlockedNeedsTwo(queues, capacity, consumers, acts, c);
        }
      }
    }
  }

  /** The default selector on queues nobody else touches: the first non-empty one, or -1. */
  method DefaultSelector(queues: seq<seq<int>>) returns (q: int)
    ensures q == -1 ==> Total(queues) == 0
    ensures q != -1 ==> 0 <= q < |queues| && queues[q] != [] && forall i | 0 <= i < q :: queues[i] == []
  {
    for i := 0 to |queues|
      invariant forall j | 0 <= j < i :: queues[j] == []
    {
      if queues[i] != [] {
        return i;
      }
    }
    if Total(queues) > 0 {
      ghost var some := SomeQueueHasItems(queues);
    }
    q := -1;
  }
}
