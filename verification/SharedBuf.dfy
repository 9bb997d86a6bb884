/** Reading and writing whole buffers over a descriptor that may move fewer bytes than asked. */
module SharedBuf {

  /** A byte stream that holds what was written and not yet read.  `chunk(k)` is how many bytes the k-th
      system call is willing to move; a negative number is an error. */
  class Stream {
    var contents: string
    var calls: nat
    const chunk: nat -> int

    constructor (chunk: nat -> int)
      ensures contents == [] && calls == 0 && this.chunk == chunk
    {
      contents, calls, this.chunk := [], 0, chunk;
    }

    /** Calls are short, never stuck and never in error. */
    ghost predicate Flows() {
      forall k :: chunk(k) > 0
    }

    method Write(buf: string) returns (r: int)
      modifies this
      ensures r <= |buf|
      ensures contents == old(contents) + (if r < 0 then [] else buf[..r])
      ensures Flows() ==> r >= 0 && (buf != [] ==> r > 0)
    {
      r := if chunk(calls) < |buf| then chunk(calls) else |buf|;
      calls := calls + 1;
      contents := contents + (if r < 0 then [] else buf[..r]);
    }

    method Read(size: nat) returns (r: int, buf: string)
      modifies this
      ensures r <= size && r <= |old(contents)|
      ensures r >= 0 ==> |buf| == r && old(contents) == buf + contents
      ensures r < 0 ==> buf == [] && contents == old(contents)
      ensures Flows() && size > 0 && old(contents) != [] ==> r > 0
      ensures Flows() ==> r >= 0
    {
      var ready := if size < |contents| then size else |contents|;
      r := if chunk(calls) < ready then chunk(calls) else ready;
      calls := calls + 1;
      buf := if r < 0 then [] else contents[..r];
      contents := contents[|buf|..];
    }

    /** `WriteAll`: the count says exactly what went in, and it is everything if the stream flows. */
    method WriteAll(buf: string) returns (r: int)
      modifies this
      ensures r <= |buf|
      ensures r >= 0 ==> contents == old(contents) + buf[..r]
      ensures r < 0 ==> exists n | 0 <= n <= |buf| :: contents == old(contents) + buf[..n]
      ensures Flows() ==> r == |buf|
    {
      var total := 0;
      var more := true;
      while more
        invariant 0 <= total <= |buf|
        invariant contents == old(contents) + buf[..total]
        invariant !more ==> total == |buf|
        decreases |buf| - total, more
      {
        var written := Write(buf[total..]);
        if written <= 0 {
          if written < 0 {
            assert contents == old(contents) + buf[..total];
            return written;
          }
          return total;
        }
        assert buf[..total] + buf[total..][..written] == buf[..total + written];
        total := total + written;
        more := total < |buf|;
      }
      return total;
    }

    /** `ReadExact`: takes exactly `size` bytes off the front if they are there and the stream flows. */
    method ReadExact(size: nat) returns (r: int, buf: string)
      modifies this
      ensures r <= size
      ensures old(contents) == buf + contents
      ensures r >= 0 ==> |buf| == r
      ensures Flows() ==> r == if size <= |old(contents)| then size else |old(contents)|
    {
      buf := [];
      var more := true;
      while more
        invariant |buf| <= size
        invariant old(contents) == buf + contents
        invariant !more ==> |buf| == size
        decreases size - |buf|, more
      {
        var read, got := Read(size - |buf|);
        buf := buf + got;
        if read <= 0 {
          if read < 0 {
            return read, buf;
          }
          return |buf|, buf;
        }
        more := |buf| < size;
      }
      return |buf|, buf;
    }
  }
}
