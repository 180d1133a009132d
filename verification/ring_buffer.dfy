/** The single-producer / single-consumer byte ring buffer.

    The buffer keeps two ever-growing offsets. The bytes between them, in
    order, are the buffer's contents: the fill count is their difference and
    the free count is what is left of the capacity. The memory is mapped
    twice back to back, so `address + k` and `address + k + capacity` are the
    same byte; the model keeps one copy of `capacity` bytes and reaches byte
    `offset` at index `offset % capacity`, which is what the double mapping
    makes a contiguous access starting at the write or read pointer do.
 */
module Ring {
  import opened Common
  import Util

  datatype RingBuffer = RingBuffer(
    capacity: int,
    writeOffset: int,
    readOffset: int,
    mem: seq<bv8>)

  /** The state the source's assertions maintain: a mapped buffer, and a fill
      count between zero and the capacity. */
  predicate Valid(rb: RingBuffer)
  {
    && rb.capacity > 0
    && |rb.mem| == rb.capacity
    && 0 <= rb.readOffset
    && 0 <= rb.writeOffset - rb.readOffset <= rb.capacity
  }

  /** `soundio_ring_buffer_init`. `mirrored` is what the operating system's
      mirrored-memory allocation gave back: nothing, or a mapping of some
      capacity at least the requested one (rounded up to whole pages). */
  function Init(requested: int, mirrored: Option<int>): (r: Result<RingBuffer>)
    requires mirrored.Some? ==> mirrored.value > 0 && mirrored.value >= requested
    ensures mirrored.None? <==> r == Err(NoMem)
    ensures r.Ok? ==> Valid(r.value) && r.value.capacity == mirrored.value
    ensures r.Ok? ==> r.value.capacity >= requested
    ensures r.Ok? ==> FillCount(r.value) == 0 && Contents(r.value) == []
  {
    match mirrored
    case None => Err(NoMem)
    case Some(c) => Ok(RingBuffer(c, 0, 0, seq(c, _ => 0)))
  }

  /** `soundio_ring_buffer_fill_count`: bytes written and not yet read. */
  function FillCount(rb: RingBuffer): (n: int)
    requires Valid(rb)
    ensures 0 <= n <= rb.capacity
  {
    rb.writeOffset - rb.readOffset
  }

  /** `soundio_ring_buffer_free_count`: room left for the writer. */
  function FreeCount(rb: RingBuffer): (n: int)
    requires Valid(rb)
    ensures 0 <= n <= rb.capacity
    ensures n + FillCount(rb) == rb.capacity
  {
    rb.capacity - FillCount(rb)
  }

  /** `soundio_ring_buffer_write_ptr`, as an index into the first mapping. */
  function WriteIndex(rb: RingBuffer): (i: int)
    requires Valid(rb)
    ensures 0 <= i < rb.capacity
    ensures i + FreeCount(rb) <= 2 * rb.capacity
  {
    rb.writeOffset % rb.capacity
  }

  /** `soundio_ring_buffer_read_ptr`, as an index into the first mapping. */
  function ReadIndex(rb: RingBuffer): (i: int)
    requires Valid(rb)
    ensures 0 <= i < rb.capacity
    ensures i + FillCount(rb) <= 2 * rb.capacity
  {
    rb.readOffset % rb.capacity
  }

  /** The contents, oldest byte first. */
  function Contents(rb: RingBuffer): (s: seq<bv8>)
    requires Valid(rb)
    ensures |s| == FillCount(rb)
  {
    seq(FillCount(rb), k requires 0 <= k < FillCount(rb) => rb.mem[(rb.readOffset + k) % rb.capacity])
  }

  /** `soundio_ring_buffer_advance_write_ptr`: commits `count` bytes. The
      source asserts that the fill count stays in range afterwards. */
  function AdvanceWrite(rb: RingBuffer, count: int): (r: RingBuffer)
    requires Valid(rb)
    requires 0 <= FillCount(rb) + count <= rb.capacity
    ensures Valid(r)
    ensures FillCount(r) == FillCount(rb) + count
    ensures r.readOffset == rb.readOffset && r.mem == rb.mem
  {
    rb.(writeOffset := rb.writeOffset + count)
  }

  /** `soundio_ring_buffer_advance_read_ptr`: releases `count` bytes. */
  function AdvanceRead(rb: RingBuffer, count: int): (r: RingBuffer)
    requires Valid(rb)
    requires 0 <= FillCount(rb) - count <= rb.capacity
    requires 0 <= rb.readOffset + count
    ensures Valid(r)
    ensures FillCount(r) == FillCount(rb) - count
    ensures r.writeOffset == rb.writeOffset && r.mem == rb.mem
  {
    rb.(readOffset := rb.readOffset + count)
  }

  /** `soundio_ring_buffer_clear`: drops all contents by moving the write
      offset back to the read offset. */
  function Clear(rb: RingBuffer): (r: RingBuffer)
    requires Valid(rb)
    ensures Valid(r)
    ensures Contents(r) == []
    ensures FreeCount(r) == r.capacity == rb.capacity
    ensures r.readOffset == rb.readOffset
  {
    rb.(writeOffset := rb.readOffset)
  }

  /** What a producer does through the write pointer: copy `data` into the
      free region, starting at the write offset, before committing it. */
  function Store(rb: RingBuffer, data: seq<bv8>): (r: RingBuffer)
    requires Valid(rb)
    requires |data| <= FreeCount(rb)
    ensures Valid(r)
    ensures r.writeOffset == rb.writeOffset && r.readOffset == rb.readOffset
  {
    rb.(mem := seq(rb.capacity, j requires 0 <= j < rb.capacity =>
      var i := (j - rb.writeOffset) % rb.capacity;
      if i < |data| then data[i] else rb.mem[j]))
  }

  /** Writing data and then committing it appends exactly that data: the
      producer never overwrites a byte the consumer has yet to read. */
  lemma {:induction false} WriteAppends(rb: RingBuffer, data: seq<bv8>)
    requires Valid(rb)
    requires |data| <= FreeCount(rb)
    ensures Contents(AdvanceWrite(Store(rb, data), |data|)) == Contents(rb) + data
  {
    var st := Store(rb, data);
    var r := AdvanceWrite(st, |data|);
    var c := rb.capacity;
    var fill := FillCount(rb);
    var a := Contents(r);
    var b := Contents(rb) + data;
    assert |a| == |b|;
    forall k | 0 <= k < |a|
      ensures a[k] == b[k]
    {
      var x := rb.readOffset + k;
      var pos := x % c;
      var qx := x / c;
      assert x == qx * c + pos;
      var i := (pos - rb.writeOffset) % c;
      assert a[k] == st.mem[pos];
      if k < fill {
        if fill - k == c {
          assert |data| == 0;
          assert a[k] == rb.mem[pos];
        } else {
          assert pos - rb.writeOffset == (-qx - 1) * c + (k - fill + c);
          Util.DivModUnique(pos - rb.writeOffset, c, -qx - 1, k - fill + c);
          assert i >= |data|;
          assert a[k] == rb.mem[pos];
        }
        assert b[k] == Contents(rb)[k];
      } else {
        assert pos - rb.writeOffset == (-qx) * c + (k - fill);
        Util.DivModUnique(pos - rb.writeOffset, c, -qx, k - fill);
        assert i == k - fill;
        assert b[k] == data[k - fill];
      }
    }
  }

  /** Reading `count` bytes and releasing them drops exactly the oldest
      `count` bytes of the contents. */
  lemma ReadDropsPrefix(rb: RingBuffer, count: int)
    requires Valid(rb)
    requires 0 <= count <= FillCount(rb)
    ensures Contents(AdvanceRead(rb, count)) == Contents(rb)[count..]
  {
  }

  /** Committing bytes leaves the contents already there in front. */
  lemma WriteKeepsContents(rb: RingBuffer, count: int)
    requires Valid(rb)
    requires 0 <= count && FillCount(rb) + count <= rb.capacity
    ensures Contents(AdvanceWrite(rb, count))[..FillCount(rb)] == Contents(rb)
  {
  }

  /** A write of `data` followed by a read of the same length hands the
      consumer exactly `data` when the buffer started empty. */
  lemma {:induction false} EmptyRoundTrip(rb: RingBuffer, data: seq<bv8>)
    requires Valid(rb) && FillCount(rb) == 0
    requires |data| <= rb.capacity
    ensures Contents(AdvanceWrite(Store(rb, data), |data|)) == data
  {
    WriteAppends(rb, data);
  }

  /** First in, first out: once everything that was in the buffer before a
      commit has been read, the byte committed at position `k` of that commit
      is the one under the read pointer after `k` more bytes are read. */
  lemma {:induction false} CommittedByteReachesReadPointer(rb: RingBuffer, data: seq<bv8>, k: int)
    requires Valid(rb)
    requires |data| <= FreeCount(rb)
    requires 0 <= k < |data|
    ensures var w := AdvanceWrite(Store(rb, data), |data|);
            var r := AdvanceRead(w, FillCount(rb) + k);
            r.mem[ReadIndex(r)] == data[k]
  {
    var w := AdvanceWrite(Store(rb, data), |data|);
    WriteAppends(rb, data);
    var r := AdvanceRead(w, FillCount(rb) + k);
    ReadDropsPrefix(w, FillCount(rb) + k);
    assert Contents(r)[0] == Contents(w)[FillCount(rb) + k];
  }
}
