/** The camera's buffer cache: a vector of shared buffers that must behave like a map from buffer id
    to buffer.  Buffers are objects, so a caller holding one sees a later fence import. */
module StreamBufferCache {
  import opened Wrappers

  class CachedStreamBuffer {
    const bufferId: nat
    const streamId: int
    var acquireFence: int

    constructor (bufferId: nat, streamId: int, fence: int)
      ensures this.bufferId == bufferId && this.streamId == streamId && acquireFence == fence
    {
      this.bufferId, this.streamId, this.acquireFence := bufferId, streamId, fence;
    }

    method ImportFence(fence: int)
      modifies this
      ensures acquireFence == fence
    {
      acquireFence := fence;
    }
  }

  type Buffers = seq<CachedStreamBuffer>

  ghost predicate DistinctIds(s: Buffers) {
    forall i, j | 0 <= i < j < |s| :: s[i].bufferId != s[j].bufferId
  }

  /** The plain map the vector stands for. */
  ghost function AsMap(s: Buffers): map<nat, CachedStreamBuffer> {
    if s == [] then map[]
    else AsMap(s[..|s| - 1])[s[|s| - 1].bufferId := s[|s| - 1]]
  }

  /** Exactly the ids in the vector are keys. */
  lemma {:induction false} AsMapKeys(s: Buffers, id: nat)
    ensures id in AsMap(s) <==> exists i | 0 <= i < |s| :: s[i].bufferId == id
  {
    if s != [] {
      var n := |s| - 1;
      AsMapKeys(s[..n], id);
      if id in AsMap(s[..n]) {
        var i :| 0 <= i < n && s[..n][i].bufferId == id;
        assert s[i].bufferId == id;
      }
      if i :| 0 <= i < |s| && s[i].bufferId == id && i < n {
        assert s[..n][i].bufferId == id;
      }
    }
  }

  /** With distinct ids, each buffer is found under its own. */
  lemma {:induction false} AsMapFinds(s: Buffers, i: nat)
    requires DistinctIds(s) && i < |s|
    ensures s[i].bufferId in AsMap(s) && AsMap(s)[s[i].bufferId] == s[i]
  {
    var n := |s| - 1;
    if i < n {
      assert s[..n][i] == s[i];
      AsMapFinds(s[..n], i);
    }
  }

  ghost function Without(s: Buffers, at: nat): Buffers
    requires at < |s|
  {
    s[..at] + s[at + 1..]
  }

  lemma WithoutDistinct(s: Buffers, at: nat)
    requires DistinctIds(s) && at < |s|
    ensures DistinctIds(Without(s, at))
  {
    var t := Without(s, at);
    assert forall i | 0 <= i < |t| :: t[i] == if i < at then s[i] else s[i + 1];
  }

  /** Taking one buffer out of a vector of distinct ids takes exactly its id out of the map. */
  lemma {:induction false} AsMapWithout(s: Buffers, at: nat)
    requires DistinctIds(s) && at < |s|
    ensures DistinctIds(Without(s, at))
    ensures AsMap(Without(s, at)) == AsMap(s) - {s[at].bufferId}
  {
    var n := |s| - 1;
    var t := Without(s, at);
    WithoutDistinct(s, at);
    if at == n {
      AsMapKeys(s[..n], s[n].bufferId);
      assert t == s[..n];
      assert forall i | 0 <= i < n :: s[..n][i].bufferId != s[n].bufferId;
    } else {
      assert t[..n - 1] == Without(s[..n], at);
      AsMapWithout(s[..n], at);
      assert s[..n][at] == s[at];
    }
  }

  /** The buffers with another id, in order. */
  ghost function Kept(s: Buffers, id: nat): (k: Buffers)
    ensures |k| <= |s|
  {
    if s == [] then []
    else Kept(s[..|s| - 1], id) + (if s[|s| - 1].bufferId != id then [s[|s| - 1]] else [])
  }

  /** With distinct ids, dropping an id that is there drops exactly one slot. */
  lemma {:induction false} KeptWithout(s: Buffers, at: nat)
    requires DistinctIds(s) && at < |s|
    ensures Kept(s, s[at].bufferId) == Without(s, at)
  {
    var n := |s| - 1;
    if at == n {
      KeptAll(s[..n], s[n].bufferId);
    } else {
      KeptWithout(s[..n], at);
      assert s[..n][at] == s[at];
      assert Without(s, at) == Without(s[..n], at) + [s[n]];
    }
  }

  lemma {:induction false} KeptAll(s: Buffers, id: nat)
    requires forall i | 0 <= i < |s| :: s[i].bufferId != id
    ensures Kept(s, id) == s
  {
    if s != [] {
      KeptAll(s[..|s| - 1], id);
    }
  }

  lemma RemovedOne(s: Buffers, id: nat)
    requires DistinctIds(s) && id in AsMap(s)
    ensures |Kept(s, id)| == |s| - 1 && DistinctIds(Kept(s, id)) && AsMap(Kept(s, id)) == AsMap(s) - {id}
  {
    AsMapKeys(s, id);
    var at :| 0 <= at < |s| && s[at].bufferId == id;
    KeptWithout(s, at);
    AsMapWithout(s, at);
  }

  class StreamBufferCache {
    var cache: Buffers

    ghost predicate Valid()
      reads this
    {
      DistinctIds(cache)
    }

    ghost function Map(): map<nat, CachedStreamBuffer>
      reads this
    {
      AsMap(cache)
    }

    constructor ()
      ensures Valid() && Map() == map[]
    {
      cache := [];
    }

    /** `std::find_if` on the id: the first match, or one past the end. */
    method Find(id: nat) returns (at: nat)
      ensures at <= |cache|
      ensures at < |cache| ==> cache[at].bufferId == id
      ensures forall i | 0 <= i < at :: cache[i].bufferId != id
    {
      at := 0;
      while at < |cache| && cache[at].bufferId != id
        invariant 0 <= at <= |cache|
        invariant forall i | 0 <= i < at :: cache[i].bufferId != id
      {
        at := at + 1;
      }
    }

    method Get(id: nat) returns (buffer: CachedStreamBuffer?)
      requires Valid()
      ensures if id in Map() then buffer == Map()[id] else buffer == null
    {
      AsMapKeys(cache, id);
      var at := Find(id);
      if at < |cache| {
        AsMapFinds(cache, at);
      }
      buffer := if at < |cache| then cache[at] else null;
    }

    method Update(id: nat, stream: int, fence: int)
      requires Valid()
      modifies this, cache
      ensures Valid() && Map().Keys == old(Map()).Keys + {id}
      ensures forall k | k in old(Map()) :: Map()[k] == old(Map()[k])
      ensures Map()[id].acquireFence == fence
      ensures id !in old(Map()) ==> fresh(Map()[id]) && Map()[id].bufferId == id && Map()[id].streamId == stream
      ensures forall b | b in old(cache) && b.bufferId != id :: b.acquireFence == old(b.acquireFence)
      ensures forall j | 0 <= j < |cache| :: cache[j] in old(cache) || fresh(cache[j])
    {
      AsMapKeys(cache, id);
      var at := Find(id);
      if at == |cache| {
        var buffer := new CachedStreamBuffer(id, stream, fence);
        cache := cache + [buffer];
        assert cache[..at] == old(cache);
      } else {
        AsMapFinds(cache, at);
        cache[at].ImportFence(fence);
      }
    }

    method Clear()
      modifies this
      ensures Valid() && Map() == map[]
    {
      cache := [];
    }

    /** `erase(remove_if(...))` with one iterator: `remove_if` moves the kept buffers forward and
        leaves moved-from slots behind; `erase` then drops the single slot it is given.  If the id is
        not there that slot is the end of the vector, and erasing it is undefined. */
    method Remove(id: nat) returns (defined: bool)
      requires Valid()
      modifies this
      ensures Valid() && (defined <==> id in old(Map()))
      ensures defined ==> Map() == old(Map()) - {id} && |cache| == |old(cache)| - 1
      ensures !defined ==> cache == old(cache)
    {
      AsMapKeys(cache, id);
      var slots, kept := RemoveIf(cache, id);
      if id !in Map() {
        KeptAll(cache, id);
      } else {
        RemovedOne(cache, id);
      }
      if kept == |slots| {
        return false;
      }
      slots := slots[..kept] + slots[kept + 1..];
      ghost var rest := Kept(cache, id);
      cache := seq(|slots|, i requires 0 <= i < |slots| && slots[i].Some? => slots[i].value);
      assert cache == rest;
      defined := true;
    }

    method RemoveStreamsExcept(keep: set<int>)
      requires Valid()
      modifies this
      ensures Valid()
      ensures Map() == map k | k in old(Map()) && old(Map())[k].streamId in keep :: old(Map())[k]
    {
      ghost var all := AsMap(cache);
      ghost var dropped := {};
      var at := 0;
      while at < |cache|
        invariant 0 <= at <= |cache|
        invariant DistinctIds(cache)
        invariant AsMap(cache) == all - dropped
        invariant forall k | k in dropped :: k in all && all[k].streamId !in keep
        invariant forall i | 0 <= i < at :: cache[i].streamId in keep
        decreases |cache| - at
      {
        if cache[at].streamId !in keep {
          AsMapFinds(cache, at);
          AsMapWithout(cache, at);
          dropped := dropped + {cache[at].bufferId};
          cache := cache[..at] + cache[at + 1..];
        } else {
          at := at + 1;
        }
      }
      forall k | k in all && k !in dropped
        ensures all[k].streamId in keep
      {
        AsMapKeys(cache, k);
        var i :| 0 <= i < |cache| && cache[i].bufferId == k;
        AsMapFinds(cache, i);
      }
    }
  }

  /** The slots after `remove_if`: kept buffers in order, then whatever was left behind. */
  method RemoveIf(s: Buffers, id: nat) returns (slots: seq<Option<CachedStreamBuffer>>, kept: nat)
    ensures |slots| == |s| && kept == |Kept(s, id)|
    ensures forall i | 0 <= i < kept :: slots[i] == Some(Kept(s, id)[i])
  {
    slots := seq(|s|, i requires 0 <= i < |s| => Some(s[i]));
    kept := 0;
    for i := 0 to |s|
      invariant |slots| == |s| && kept == |Kept(s[..i], id)|
      invariant forall j | 0 <= j < kept :: slots[j] == Some(Kept(s[..i], id)[j])
    {
      assert s[..i + 1][..i] == s[..i];
      if s[i].bufferId != id {
        slots := slots[i := None];
        slots := slots[kept := Some(s[i])];
        kept := kept + 1;
      }
    }
    assert s[..|s|] == s;
  }
}
