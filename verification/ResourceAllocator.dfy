/** The unique resource allocator and its move-only reservations, which give their resource back when
    they are destroyed.  Every operation runs under the allocator's mutex. */
module ResourceAllocator {

  /** A moved-from reservation has no pool. */
  class Reservation {
    var pool: UniqueResourceAllocator?
    const resource: int

    constructor (pool: UniqueResourceAllocator?, resource: int)
      ensures this.pool == pool && this.resource == resource
    {
      this.pool, this.resource := pool, resource;
    }
  }

  ghost function Resources(rs: set<Reservation>): set<int> {
    set r | r in rs :: r.resource
  }

  ghost predicate PairwiseDistinct(rs: set<Reservation>) {
    forall q, r | q in rs && r in rs && q != r :: q.resource != r.resource
  }

  predicate Between(x: int, start: int, end: int) {
    start <= x < end
  }

  ghost function Range(start: int, end: int): set<int> {
    set x: int | start <= x < end && Between(x, start, end)
  }

  /** The `n` values from `a` on are all in `s`. */
  ghost predicate HasRun(s: set<int>, a: int, n: int) {
    Range(a, a + n) <= s
  }

  /** What `ExpandPool` hands back: the items the pool knew by the time it got to them. */
  ghost function Leftover(items: seq<int>, known: set<int>): seq<int> {
    if items == [] then []
    else
      var n := |items| - 1;
      Leftover(items[..n], known)
      + (if items[n] in known || items[n] in items[..n] then [items[n]] else [])
  }

  /** From `before` and `owners` to `after` and `live`: the values `taken` left the available set,
      each under one new reservation of `rs`. */
  ghost predicate Took(before: set<int>, after: set<int>, owners: set<Reservation>, live: set<Reservation>,
                       rs: set<Reservation>, taken: set<int>) {
    && taken <= before && after == before - taken
    && live == owners + rs && Resources(rs) == taken && PairwiseDistinct(rs)
  }

  ghost predicate TookRun(before: set<int>, after: set<int>, owners: set<Reservation>, live: set<Reservation>,
                          rs: set<Reservation>, a: int, n: int) {
    Took(before, after, owners, live, rs, Range(a, a + n))
  }

  lemma ResourcesAdd(rs: set<Reservation>, r: Reservation)
    ensures Resources(rs + {r}) == Resources(rs) + {r.resource}
    ensures PairwiseDistinct(rs) && r.resource !in Resources(rs) ==> PairwiseDistinct(rs + {r})
  {
  }

  /** Taking one more value. */
  lemma TookOneMore(before: set<int>, after: set<int>, owners: set<Reservation>, live: set<Reservation>,
                    rs: set<Reservation>, taken: set<int>, r: Reservation)
    requires Took(before, after, owners, live, rs, taken) && r.resource in after
    ensures Took(before, after - {r.resource}, owners, live + {r}, rs + {r}, taken + {r.resource})
  {
    ResourcesAdd(rs, r);
  }

  method PickOne(s: set<int>) returns (x: int)
    requires s != {}
    ensures x in s
  {
    NotEmpty(s);
    x :| x in s;
  }

  ghost predicate HasElement(s: set<int>) {
    exists x :: x in s
  }

  lemma NotEmpty(s: set<int>)
    requires s != {}
    ensures HasElement(s)
  {
    if !HasElement(s) {
      assert forall x :: x !in s;
    }
  }

  lemma LeftoverStep(items: seq<int>, i: nat, known: set<int>)
    requires i < |items|
    ensures Leftover(items[..i + 1], known) ==
            Leftover(items[..i], known)
            + (if items[i] in known || items[i] in items[..i] then [items[i]] else [])
  {
    assert items[..i + 1][..i] == items[..i];
  }

  ghost function Elements(ts: seq<int>): set<int> {
    set x | x in ts
  }

  ghost predicate Distinct(ts: seq<int>) {
    forall i, j | 0 <= i < j < |ts| :: ts[i] != ts[j]
  }

  lemma ElementsAdd(ts: seq<int>, x: int)
    ensures Elements(ts + [x]) == Elements(ts) + {x}
  {
  }

  lemma ElementsSnoc(ts: seq<int>, i: nat)
    requires i < |ts|
    ensures Elements(ts[..i + 1]) == Elements(ts[..i]) + {ts[i]}
  {
    assert ts[..i + 1] == ts[..i] + [ts[i]];
    ElementsAdd(ts[..i], ts[i]);
  }

  lemma {:induction false} DistinctSize(ts: seq<int>)
    requires Distinct(ts)
    ensures |Elements(ts)| == |ts|
  {
    if ts != [] {
      var n := |ts| - 1;
      DistinctSize(ts[..n]);
      ElementsSnoc(ts, n);
      assert ts[..n + 1] == ts;
    }
  }

  /** `Undefined`: an iterator at the end was dereferenced. */
  datatype Outcome = Taken | Refused | Undefined

  lemma Repeated(ts: seq<int>, i: nat)
    requires i < |ts| && ts[i] in Elements(ts[..i])
    ensures !Distinct(ts)
  {
    var j :| 0 <= j < i && ts[..i][j] == ts[i];
    assert ts[j] == ts[i];
  }

  lemma DistinctSnoc(ts: seq<int>, i: nat)
    requires i < |ts| && Distinct(ts[..i]) && ts[i] !in Elements(ts[..i])
    ensures Distinct(ts[..i + 1])
  {
    assert forall j | 0 <= j < i :: ts[..i][j] in Elements(ts[..i]);
    assert forall j | 0 <= j < i :: ts[..i + 1][j] == ts[..i][j];
  }

  lemma RangeSnoc(start: int, end: int)
    requires start <= end
    ensures Range(start, end + 1) == Range(start, end) + {end}
  {
  }

  class UniqueResourceAllocator {
    var available: set<int>
    var inUse: set<int>
    /** Reservations that own their resource: handed out, not moved from, not destroyed. */
    ghost var live: set<Reservation>
    /** Everything ever put in the pool. */
    ghost var ever: set<int>

    ghost predicate Valid()
      reads this, live
    {
      && available !! inUse
      && available + inUse == ever
      && (forall r | r in live :: r.pool == this)
      && PairwiseDistinct(live)
      && Resources(live) == inUse
    }

    constructor (pool: seq<int>)
      ensures Valid() && live == {} && available == ever == Elements(pool)
    {
      available := set x | x in pool;
      inUse := {};
      live := {};
      ever := Elements(pool);
    }

    method ExpandPool(anotherPool: seq<int>) returns (notSelected: seq<int>)
      requires Valid()
      modifies this
      ensures Valid() && live == old(live) && inUse == old(inUse)
      ensures ever == old(ever) + Elements(anotherPool)
      ensures notSelected == Leftover(anotherPool, old(ever))
    {
      notSelected := [];
      for i := 0 to |anotherPool|
        invariant Valid() && live == old(live) && inUse == old(inUse)
        invariant ever == old(ever) + Elements(anotherPool[..i])
        invariant notSelected == Leftover(anotherPool[..i], old(ever))
      {
        var item := anotherPool[i];
        LeftoverStep(anotherPool, i, old(ever));
        ElementsSnoc(anotherPool, i);
        if item in available || item in inUse {
          notSelected := notSelected + [item];
          assert ever + {item} == ever;
        } else {
          available, ever := available + {item}, ever + {item};
        }
      }
      assert anotherPool[..|anotherPool|] == anotherPool;
    }

    /** Moves one value from available to inUse, under a new reservation. */
    method RemoveFromPool(x: int) returns (r: Reservation)
      requires Valid() && x in available
      modifies this
      ensures Valid() && ever == old(ever)
      ensures available == old(available) - {x} && inUse == old(inUse) + {x}
      ensures fresh(r) && r.resource == x && live == old(live) + {r}
    {
      r := new Reservation(this, x);
      available, inUse := available - {x}, inUse + {x};
      live := live + {r};
    }

    method UniqueItem() returns (r: Reservation?)
      requires Valid()
      modifies this
      ensures Valid() && ever == old(ever)
      ensures r == null <==> old(available) == {}
      ensures r == null ==> available == old(available) && live == old(live)
      ensures r != null ==> fresh(r) && r.resource in old(available) && available == old(available) - {r.resource}
                            && live == old(live) + {r}
    {
      if available == {} {
        return null;
      }
      var x := PickOne(available);
      r := RemoveFromPool(x);
    }

    /** The taking loop of `UniqueItems`; `supply` lists enough available values. */
    method TakeAny(n: nat, ghost supply: seq<int>) returns (rs: set<Reservation>, ghost ts: seq<int>)
      requires Valid() && Distinct(supply) && |supply| == n && Elements(supply) <= available
      modifies this
      ensures Valid() && ever == old(ever) && fresh(rs)
      ensures |ts| == n && Distinct(ts) && Took(old(available), available, old(live), live, rs, Elements(ts))
    {
      rs, ts := {}, [];
      for i := 0 to n
        invariant Valid() && ever == old(ever) && fresh(rs)
        invariant |ts| == i && Distinct(ts)
        invariant Took(old(available), available, old(live), live, rs, Elements(ts))
      {
        SomeLeft(old(available), ts, supply);
        var x := PickOne(available);
        ghost var b, l := available, live;
        var r := RemoveFromPool(x);
        TookOneMore(old(available), b, old(live), l, rs, Elements(ts), r);
        ElementsAdd(ts, x);
        rs, ts := rs + {r}, ts + [x];
      }
    }

    method UniqueItems(n: int) returns (ok: bool, rs: set<Reservation>)
      requires Valid()
      modifies this
      ensures Valid() && ever == old(ever) && fresh(rs)
      ensures ok <==> 0 < n <= |old(available)|
      ensures !ok ==> available == old(available) && live == old(live)
      ensures ok ==> exists ts :: |ts| == n && Distinct(ts)
                                  && Took(old(available), available, old(live), live, rs, Elements(ts))
    {
      if n <= 0 || |available| < n {
        return false, {};
      }
      ghost var supply := Supply(available, n);
      ghost var ts;
      rs, ts := TakeAny(n, supply);
      ok := true;
    }

    method Take(t: int) returns (r: Reservation?)
      requires Valid()
      modifies this
      ensures Valid() && ever == old(ever)
      ensures r != null <==> t in old(available)
      ensures r == null ==> available == old(available) && live == old(live)
      ensures r != null ==> fresh(r) && r.resource == t && available == old(available) - {t} && live == old(live) + {r}
    {
      if t !in available {
        return null;
      }
      r := RemoveFromPool(t);
    }

    /** A repeated item is looked up again after it was taken, and what is found then is undefined. */
    method TakeAll(ts: seq<int>) returns (outcome: Outcome, rs: set<Reservation>)
      requires Valid()
      modifies this
      ensures Valid() && ever == old(ever) && fresh(rs)
      ensures outcome == Refused <==> exists i | 0 <= i < |ts| :: ts[i] !in old(available)
      ensures outcome == Refused ==> available == old(available) && live == old(live)
      ensures outcome == Undefined <==> !Distinct(ts) && forall i | 0 <= i < |ts| :: ts[i] in old(available)
      ensures outcome == Taken ==> Took(old(available), available, old(live), live, rs, Elements(ts))
    {
      rs := {};
      for i := 0 to |ts|
        invariant forall j | 0 <= j < i :: ts[j] in available
      {
        if ts[i] !in available {
          return Refused, {};
        }
      }
      for i := 0 to |ts|
        invariant Valid() && ever == old(ever) && fresh(rs) && Distinct(ts[..i])
        invariant Took(old(available), available, old(live), live, rs, Elements(ts[..i]))
      {
        ElementsSnoc(ts, i);
        if ts[i] !in available {
          Repeated(ts, i);
          return Undefined, rs;
        }
        DistinctSnoc(ts, i);
        ghost var b, l := available, live;
        var r := RemoveFromPool(ts[i]);
        TookOneMore(old(available), b, old(live), l, rs, (Elements(ts[..i])), r);
        rs := rs + {r};
      }
      assert ts[..|ts|] == ts;
      outcome := Taken;
    }

    method TakeRange(start: int, end: int) returns (ok: bool, rs: set<Reservation>)
      requires Valid()
      modifies this
      ensures Valid() && ever == old(ever) && fresh(rs)
      ensures ok <==> Range(start, end) <= old(available)
      ensures !ok ==> available == old(available) && live == old(live)
      ensures ok ==> Took(old(available), available, old(live), live, rs, Range(start, end))
    {
      rs := {};
      var cursor := start;
      while cursor < end
        invariant start <= cursor && (if start < end then cursor <= end else cursor == start)
        invariant Range(start, cursor) <= available
      {
        if cursor !in available {
          assert cursor in Range(start, end);
          return false, {};
        }
        cursor := cursor + 1;
      }
      cursor := start;
      assert Range(start, start) == {};
      while cursor < end
        invariant start <= cursor && (if start < end then cursor <= end else cursor == start)
        invariant Valid() && ever == old(ever) && fresh(rs)
        invariant Took(old(available), available, old(live), live, rs, Range(start, cursor))
      {
        RangeSnoc(start, cursor);
        ghost var b, l := available, live;
        var r := RemoveFromPool(cursor);
        TookOneMore(old(available), b, old(live), l, rs, Range(start, cursor), r);
        rs := rs + {r};
        cursor := cursor + 1;
      }
      assert Range(start, end) == Range(start, cursor);
      ok := true;
    }

    /** The search of `UniqueConsecutiveItems`: tries every available value as the start. */
    method FindRun(n: int) returns (ok: bool, rs: set<Reservation>)
      requires Valid() && n > 0
      modifies this
      ensures Valid() && ever == old(ever) && fresh(rs)
      ensures ok <==> exists a: int :: HasRun(old(available), a, n)
      ensures !ok ==> available == old(available) && live == old(live)
      ensures ok ==> exists a: int :: TookRun(old(available), available, old(live), live, rs, a, n)
    {
      rs := {};
      var todo := available;
      while todo != {}
        invariant todo <= available
        invariant Valid() && ever == old(ever) && available == old(available) && live == old(live) && rs == {}
        invariant forall a | a in available && a !in todo :: !HasRun(available, a, n)
        decreases todo
      {
        var a := PickOne(todo);
        todo := todo - {a};
        ok, rs := TakeRange(a, a + n);
        if ok {
          assert HasRun(old(available), a, n) && TookRun(old(available), available, old(live), live, rs, a, n);
          return;
        }
        rs := {};
      }
      forall a: int
        ensures !HasRun(available, a, n)
      {
        assert a in Range(a, a + n);
      }
      ok := false;
    }

    /** Succeeds exactly when some `n` consecutive values are all available, and takes such a run. */
    method UniqueConsecutiveItems(n: int) returns (ok: bool, rs: set<Reservation>)
      requires Valid()
      modifies this
      ensures Valid() && ever == old(ever) && fresh(rs)
      ensures ok <==> n > 0 && exists a: int :: HasRun(old(available), a, n)
      ensures !ok ==> available == old(available) && live == old(live)
      ensures ok ==> exists a: int :: TookRun(old(available), available, old(live), live, rs, a, n)
    {
      if n <= 0 || |available| < n {
        if n > 0 {
          NoRunInSmallSet(available, n);
        }
        return false, {};
      }
      ok, rs := FindRun(n);
    }

    method Reclaim(t: int)
      modifies this`available, this`inUse
      ensures t in old(inUse) ==> inUse == old(inUse) - {t} && available == old(available) + {t}
      ensures t !in old(inUse) ==> inUse == old(inUse) && available == old(available)
    {
      if t !in inUse {
        return;
      }
      inUse, available := inUse - {t}, available + {t};
    }

    /** The move constructor: the new reservation owns the resource, the old one nothing. */
    method Move(src: Reservation) returns (r: Reservation)
      requires Valid() && (src in live || src.pool == null)
      modifies this, src
      ensures Valid() && fresh(r) && r.resource == src.resource && r.pool == old(src.pool) && src.pool == null
      ensures live == if src in old(live) then old(live) - {src} + {r} else old(live)
      ensures available == old(available) && inUse == old(inUse) && ever == old(ever)
    {
      r := new Reservation(src.pool, src.resource);
      src.pool := null;
      if src in live {
        live := live - {src} + {r};
      }
    }

    /** The destructor gives the resource back to the pool, unless it was moved away. */
    method Destroy(r: Reservation)
      requires Valid() && (r in live || r.pool == null)
      modifies this
      ensures Valid() && live == old(live) - {r} && ever == old(ever)
      ensures r in old(live) ==> available == old(available) + {r.resource} && inUse == old(inUse) - {r.resource}
      ensures r !in old(live) ==> available == old(available) && inUse == old(inUse)
    {
      if r.pool != null {
        Reclaim(r.resource);
        live := live - {r};
      }
    }
  }

  lemma {:induction false} RangeSize(start: int, n: nat)
    ensures |Range(start, start + n)| == n
  {
    if n == 0 {
      assert Range(start, start) == {};
    } else {
      RangeSize(start, n - 1);
      RangeSnoc(start, start + n - 1);
    }
  }

  lemma SubsetSize(a: set<int>, b: set<int>)
    requires a <= b
    ensures |a| <= |b|
  {
    assert b == a + (b - a);
  }

  lemma SomeLeft(s: set<int>, ts: seq<int>, supply: seq<int>)
    requires Distinct(ts) && Distinct(supply) && Elements(supply) <= s && |ts| < |supply|
    ensures s - Elements(ts) != {}
  {
    DistinctSize(ts);
    DistinctSize(supply);
    if s - Elements(ts) == {} {
      assert Elements(supply) <= Elements(ts) by {
        forall x | x in Elements(supply)
          ensures x in Elements(ts)
        {
          assert x !in s - Elements(ts);
        }
      }
      SubsetSize(Elements(supply), Elements(ts));
    }
  }

  lemma {:induction false} Supply(s: set<int>, n: nat) returns (ts: seq<int>)
    requires n <= |s|
    ensures |ts| == n && Distinct(ts) && Elements(ts) <= s
  {
    if n == 0 {
      ts := [];
    } else {
      assert s != {};
      NotEmpty(s);
      var x :| x in s;
      ts := Supply(s - {x}, n - 1);
      ElementsAdd(ts, x);
      assert x !in Elements(ts);
      ts := ts + [x];
    }
  }

  lemma NoRunInSmallSet(s: set<int>, n: nat)
    requires |s| < n
    ensures forall a: int :: !HasRun(s, a, n)
  {
    forall a: int
      ensures !HasRun(s, a, n)
    {
      if HasRun(s, a, n) {
        RangeSize(a, n);
        SubsetSize(Range(a, a + n), s);
      }
    }
  }
}
