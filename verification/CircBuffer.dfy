/** The growable circular byte buffer of `source/libpurple/circbuffer.c`.

    The fields are those of `PurpleCircBuffer`. The two pointers `inptr` and
    `outptr` are kept as offsets from the start of `buffer`; a buffer that was
    never allocated is an array of length zero, where the null pointers of the
    original behave exactly like offset zero. */
module CircBuffer {

  newtype Byte = x: int | 0 <= x < 256

  const DEFAULT_BUF_SIZE: nat := 256

  /** The possible pointer positions between calls: `inptr` is `used` bytes
      after `outptr`, directly or around the end, or the queue was read empty
      just when `outptr` wrapped at the end. */
  ghost predicate Layout(buflen: nat, used: nat, inptr: nat, outptr: nat) {
    || inptr == outptr + used <= buflen
    || (0 < inptr <= outptr && inptr + buflen == outptr + used)
    || (used == 0 && outptr == 0 && inptr == buflen)
  }

  /** Reading a contiguous piece leads from one such position to another. */
  lemma LayoutAfterRead(buflen: nat, used: nat, inptr: nat, outptr: nat, len: nat)
    requires Layout(buflen, used, inptr, outptr) && len <= used <= buflen && outptr + len <= buflen
    ensures Layout(buflen, used - len, inptr, if outptr + len == buflen then 0 else outptr + len)
  {
  }

  /** The byte `i` places after the start of the allocation, going round the end once. */
  ghost function Cell(data: seq<Byte>, i: nat): (b: Byte)
    requires i < 2 * |data|
  {
    if i < |data| then data[i] else data[i - |data|]
  }

  /** The `used` bytes met when walking from `out` and continuing at offset 0 after the physical end. */
  ghost function Window(data: seq<Byte>, out: nat, used: nat): (w: seq<Byte>)
    requires out <= |data| && used <= |data|
    ensures |w| == used
  {
    if out + used <= |data| then data[out..out + used] else data[out..] + data[..out + used - |data|]
  }

  lemma WindowAt(data: seq<Byte>, out: nat, used: nat)
    requires out <= |data| && used <= |data|
    ensures forall k :: 0 <= k < used ==> Window(data, out, used)[k] == Cell(data, out + k)
  {
  }

  /** Wrapped data whose front part was shifted behind the old end is the same queue. */
  lemma GrownWindow(before: seq<Byte>, after: seq<Byte>, out: nat, used: nat, shift: nat)
    requires out <= |before| <= |after| && used <= |before|
    requires forall i :: out <= i < |before| ==> after[i] == before[i]
    requires |before| < out + used ==>
      var wrapped := out + used - |before|;
      && shift == (if |after| - |before| < wrapped then |after| - |before| else wrapped)
      && (forall i :: 0 <= i < shift ==> after[|before| + i] == before[i])
      && (forall i :: shift <= i < wrapped ==> after[i - shift] == before[i])
    ensures Window(after, out, used) == Window(before, out, used)
  {
    hide Window;
    WindowAt(before, out, used);
    WindowAt(after, out, used);
    forall k | 0 <= k < used ensures Window(after, out, used)[k] == Window(before, out, used)[k] {
      if |before| <= out + k {
        var j := out + k - |before|;
        assert Window(before, out, used)[k] == before[j];
        assert j < shift ==> after[|before| + j] == before[j];
        assert shift <= j ==> after[j - shift] == before[j];
      }
    }
  }

  /** Storing `src` right behind the queue and touching none of its bytes appends to it. */
  lemma AppendedWindow(before: seq<Byte>, after: seq<Byte>, out: nat, used: nat, src: seq<Byte>)
    requires |before| == |after| && out < |after| && used + |src| <= |after|
    requires forall i :: out <= i < out + used ==> Cell(after, i) == Cell(before, i)
    requires forall j :: 0 <= j < |src| ==> Cell(after, out + used + j) == src[j]
    ensures Window(after, out, used + |src|) == Window(before, out, used) + src
  {
    hide Window;
    var w := Window(after, out, used + |src|);
    WindowAt(before, out, used);
    WindowAt(after, out, used + |src|);
    forall k | 0 <= k < used + |src| ensures w[k] == (Window(before, out, used) + src)[k] {
      if used <= k {
        assert Cell(after, out + used + (k - used)) == src[k - used];
      }
    }
  }

  /** Moving `out` forward by `len` drops the first `len` bytes of the queue. */
  lemma WindowTail(data: seq<Byte>, out: nat, used: nat, len: nat, next: nat)
    requires out < |data| && len <= used <= |data|
    requires next == (if out + len == |data| then 0 else out + len) < |data|
    ensures Window(data, next, used - len) == Window(data, out, used)[len..]
  {
    hide Window;
    WindowAt(data, out, used);
    WindowAt(data, next, used - len);
    forall k | 0 <= k < used - len
      ensures Window(data, next, used - len)[k] == Window(data, out, used)[len..][k]
    {
      assert Window(data, out, used)[len + k] == Cell(data, out + len + k);
    }
  }

  /** Growth in steps of `step` until `len` bytes fit beside the `used` ones. */
  function Grown(buflen: nat, used: nat, step: nat, len: nat): (n: nat)
    requires 0 < step
    ensures buflen <= n && len <= n - used
    ensures len <= buflen - used ==> n == buflen
    ensures buflen < n ==> n - step - used < len
    decreases len + used - buflen
  {
    if buflen - used < len then Grown(buflen + step, used, step, len) else buflen
  }

  /** Growth is by the smallest number of whole steps that makes enough room. */
  lemma {:induction false} GrownSteps(buflen: nat, used: nat, step: nat, len: nat) returns (k: nat)
    requires 0 < step && used <= buflen
    ensures Grown(buflen, used, step, len) == buflen + k * step && len <= buflen + k * step - used
    ensures 0 < k ==> buflen + (k - 1) * step - used < len
    decreases len + used - buflen
  {
    if buflen - used < len {
      var j := GrownSteps(buflen + step, used, step, len);
      k := j + 1;
      assert k * step == step + j * step;
      if 0 < j {
        assert (k - 1) * step == step + (j - 1) * step;
      }
    } else {
      k := 0;
    }
  }

  /** The byte at offset `i` once `src` was stored from offset `start` on, going round the end. */
  function Stored(before: seq<Byte>, start: nat, src: seq<Byte>, i: nat): Byte
    requires i < |before| && start <= |before| && |src| <= |before|
  {
    if start <= i < start + |src| then src[i - start]
    else if i + |before| < start + |src| then src[i + |before| - start]
    else before[i]
  }

  /** `g_realloc`: a larger allocation that starts with the old bytes. */
  method Reallocated(buffer: array<Byte>, buflen: nat) returns (grown: array<Byte>)
    requires buffer.Length <= buflen
    ensures fresh(grown) && grown.Length == buflen
    ensures forall i :: 0 <= i < buffer.Length ==> grown[i] == buffer[i]
  {
    grown := new Byte[buflen];
    forall i | 0 <= i < buffer.Length {
      grown[i] := buffer[i];
    }
  }

  class CircBuffer {
    var buffer: array<Byte>
    var growsize: nat
    var buflen: nat
    var bufused: nat
    var inptr: nat
    var outptr: nat

    /** The buffer was read empty just when `outptr` reached the physical end
        and wrapped, while `inptr` stayed behind at the end. */
    predicate DrainedAtEnd()
      reads this
    {
      bufused == 0 && outptr == 0 && inptr == buflen && 0 < buflen
    }

    /** What holds between calls. */
    ghost predicate Valid()
      reads this
    {
      && 0 < growsize
      && buffer.Length == buflen
      && bufused <= buflen && inptr <= buflen
      && (outptr < buflen || outptr == buflen == 0)
      && Layout(buflen, bufused, inptr, outptr)
    }

    /** The queue of bytes not yet read, oldest first. */
    ghost function Contents(): (c: seq<Byte>)
      requires buffer.Length == buflen && outptr <= buflen && bufused <= buflen
      reads this, buffer
      ensures |c| == bufused
    {
      Window(buffer[..], outptr, bufused)
    }

    /** There is room for `len` bytes from `inptr` on, going round the end if the data did not. */
    ghost predicate CanStore(len: nat)
      reads this
    {
      && buffer.Length == buflen && inptr <= buflen && outptr <= buflen && bufused + len <= buflen
      && (outptr <= inptr || inptr + len <= buflen)
    }

    constructor (growsize: nat)
      ensures Valid() && Contents() == [] && buflen == outptr == 0 && fresh(buffer)
      ensures this.growsize == if growsize == 0 then DEFAULT_BUF_SIZE else growsize
    {
      this.growsize := if growsize == 0 then DEFAULT_BUF_SIZE else growsize;
      buffer := new Byte[0];
      buflen, bufused, inptr, outptr := 0, 0, 0, 0;
    }

    /** Enlarges the allocation so that `len` more bytes fit, and moves wrapped
        data so that no byte is lost. From the drained layout `inptr` is left
        in the middle of the new allocation. */
    method Grow(len: nat)
      requires Valid() && buflen - bufused < len
      modifies this`buffer, this`buflen, this`inptr, buffer
      ensures growsize == old(growsize) && fresh(buffer)
      ensures buffer.Length == buflen == Grown(old(buflen), bufused, growsize, len)
      ensures CanStore(len)
      ensures Contents() == old(Contents())
      ensures old(DrainedAtEnd()) ==> inptr == old(buflen)
      ensures !old(DrainedAtEnd()) ==> Valid() && !DrainedAtEnd()
    {
      hide Window;
      var inOffset, outOffset := inptr, outptr;
      var startBuflen := buflen;
      while buflen - bufused < len
        modifies this`buflen
        invariant startBuflen <= buflen
        invariant Grown(startBuflen, bufused, growsize, len) == Grown(buflen, bufused, growsize, len)
        decreases len - (buflen - bufused)
      {
        buflen := buflen + growsize;
      }
      ghost var before := old(buffer[..]);
      buffer := Reallocated(buffer, buflen);
      assert buffer[..startBuflen] == before;
      if inOffset < outOffset || (inOffset == outOffset && 0 < bufused) {
        ShiftWrapped(startBuflen, inOffset);
      } else {
        GrownWindow(before, buffer[..], outptr, bufused, 0);
      }
    }

    /** The second half of growing: the bytes before `inOffset` follow those at
        the old end, and what still does not fit there moves to the front. */
    method ShiftWrapped(startBuflen: nat, inOffset: nat)
      requires startBuflen < buflen == buffer.Length
      requires 0 < inOffset <= outptr < startBuflen && inOffset + startBuflen == outptr + bufused
      modifies this`inptr, buffer
      ensures Contents() == Window(old(buffer[..startBuflen]), outptr, bufused)
      ensures inptr == if inOffset <= buflen - startBuflen then startBuflen + inOffset
        else inOffset - (buflen - startBuflen)
    {
      var shiftN := if buflen - startBuflen < inOffset then buflen - startBuflen else inOffset;
      forall i | 0 <= i < shiftN {
        buffer[startBuflen + i] := buffer[i];
      }
      if shiftN < inOffset {
        forall i | 0 <= i < inOffset - shiftN {
          buffer[i] := buffer[shiftN + i];
        }
        inptr := inOffset - shiftN;
      } else {
        inptr := startBuflen + inOffset;
      }
      GrownWindow(old(buffer[..startBuflen]), buffer[..], outptr, bufused, shiftN);
    }

    /** Adds `src` at the back of the queue. This works from every state but
        one: growing from the drained layout, after which the reading side no
        longer starts where the new bytes were stored. */
    method Append(src: seq<Byte>)
      requires Valid()
      modifies this`buffer, this`buflen, this`bufused, this`inptr, buffer
      ensures buffer == old(buffer) || fresh(buffer)
      ensures buffer.Length == buflen && outptr <= buflen && bufused == old(bufused) + |src| <= buflen
      ensures Valid() <==> !(old(DrainedAtEnd()) && old(buflen) < |src|)
      ensures Valid() ==> Contents() == old(Contents()) + src
      ensures !Valid() ==> MaxRead() != (if bufused <= buflen - outptr then bufused else buflen - outptr)
      ensures buflen == Grown(old(buflen), old(bufused), growsize, |src|)
      ensures !Valid() ==> outptr == 0
      ensures !Valid() ==>
        inptr == if |src| <= buflen - old(buflen) then old(buflen) + |src| else |src| - (buflen - old(buflen))
      ensures !Valid() && buflen - old(buflen) < |src| ==>
        buffer[outptr..outptr + MaxRead()] == src[buflen - old(buflen)..]
    {
      hide Window;
      MakeRoom(|src|);
      Store(src);
    }

    /** Grows the allocation, if necessary. */
    method MakeRoom(len: nat)
      requires Valid()
      modifies this`buffer, this`buflen, this`inptr, buffer
      ensures buffer == old(buffer) || fresh(buffer)
      ensures CanStore(len) && Contents() == old(Contents())
      ensures buflen == Grown(old(buflen), bufused, growsize, len)
      ensures old(DrainedAtEnd()) && old(buflen) < len ==> inptr == old(buflen)
      ensures !(old(DrainedAtEnd()) && old(buflen) < len) ==> Valid()
    {
      hide Window;
      if buflen - bufused < len {
        Grow(len);
      }
    }

    /** The second half of `Append`: `src` follows the queue. */
    method Store(src: seq<Byte>)
      requires CanStore(|src|)
      modifies this`inptr, this`bufused, buffer
      ensures bufused == old(bufused) + |src|
      ensures inptr == if |src| <= buflen - old(inptr) then old(inptr) + |src| else |src| - (buflen - old(inptr))
      ensures old(Valid()) ==> Valid() && Contents() == old(Contents()) + src
      ensures forall i :: 0 <= i < buflen ==> buffer[i] == Stored(old(buffer[..]), old(inptr), src, i)
    {
      hide Window;
      Copy(src);
      bufused := bufused + |src|;
      if old(Valid()) && 0 < |src| {
        AppendedWindow(old(buffer[..]), buffer[..], outptr, bufused - |src|, src);
      } else if |src| == 0 {
        assert buffer[..] == old(buffer[..]) && old(Contents()) + src == old(Contents());
      }
    }

    /** The copying itself: `src` goes to `inptr`, what does not fit before the end to the front. */
    method Copy(src: seq<Byte>)
      requires CanStore(|src|)
      modifies this`inptr, buffer
      ensures inptr == if |src| <= buflen - old(inptr) then old(inptr) + |src| else |src| - (buflen - old(inptr))
      ensures forall i :: 0 <= i < buflen ==> buffer[i] == Stored(old(buffer[..]), old(inptr), src, i)
    {
      var len, lenStored := |src|, |src|;
      if inptr >= outptr {
        lenStored := if len < buflen - inptr then len else buflen - inptr;
      }
      forall i | 0 <= i < lenStored {
        buffer[inptr + i] := src[i];
      }
      if lenStored < len {
        forall i | 0 <= i < len - lenStored {
          buffer[i] := src[lenStored + i];
        }
        inptr := len - lenStored;
      } else {
        inptr := inptr + lenStored;
      }
    }

    /** `purple_circ_buffer_get_max_read` as an expression. */
    function MaxRead(): (n: nat)
      requires bufused == 0 || outptr < inptr || outptr <= buflen
      reads this
    {
      if bufused == 0 then 0
      else if outptr >= inptr then buflen - outptr
      else inptr - outptr
    }

    /** What is offered to the reader is the longest part of the queue that
        does not pass the physical end, and nothing only when the queue is empty. */
    lemma MaxReadIsContiguous()
      requires Valid()
      ensures MaxRead() == if bufused <= buflen - outptr then bufused else buflen - outptr
      ensures MaxRead() == 0 <==> Contents() == []
      ensures buffer[outptr..outptr + MaxRead()] == Contents()[..MaxRead()]
    {
    }

    lemma MaxReadFits()
      requires Valid()
      ensures MaxRead() <= bufused && MaxRead() <= buflen - outptr
      ensures 0 < bufused ==> 0 < MaxRead()
    {
    }

    /** Takes `len` bytes from the front of the queue, or refuses when they do not lie in one piece. */
    method MarkRead(len: nat) returns (ok: bool)
      requires Valid()
      modifies this`outptr, this`bufused
      ensures Valid()
      ensures ok <==> len <= old(MaxRead())
      ensures Contents() == if ok then old(Contents())[len..] else old(Contents())
    {
      hide Window, Layout;
      if MaxRead() < len {
        return false;
      }
      ghost var start, used := outptr, bufused;
      MaxReadFits();
      outptr := outptr + len;
      bufused := bufused - len;
      if outptr == buflen {
        outptr := 0;
      }
      LayoutAfterRead(buflen, used, inptr, start, len);
      if 0 < buflen {
        WindowTail(buffer[..], start, used, len, outptr);
      }
      return true;
    }

    /** What is offered is taken. */
    method ReadPiece() returns (piece: seq<Byte>)
      requires Valid()
      modifies this`outptr, this`bufused
      ensures Valid() && old(Contents()) == piece + Contents()
      ensures 0 < old(bufused) ==> bufused < old(bufused)
    {
      hide Window, Layout, CircBuffer.Contents, CircBuffer.MaxRead;
      MaxReadFits();
      MaxReadIsContiguous();
      SizeOfQueue();
      var n := MaxRead();
      ghost var contents := Contents();
      piece := buffer[outptr..outptr + n];
      assert piece == contents[..n];
      var ok := MarkRead(n);
      SizeOfQueue();
      assert contents[..n] + contents[n..] == contents;
    }

    /** Reads the whole queue the way its users do, one contiguous piece at a time. */
    method ReadAll() returns (data: seq<Byte>)
      requires Valid()
      modifies this`outptr, this`bufused
      ensures 0 < old(bufused) ==> bufused == 0
      ensures Valid() && Contents() == []
      ensures data == old(Contents())
    {
      hide Window, Layout, CircBuffer.Contents, CircBuffer.MaxRead;
      data := [];
      SizeOfQueue();
      ghost var all := Contents();
      while bufused != 0
        invariant Valid() && data + Contents() == all
        decreases bufused
      {
        ghost var was, contents := data, Contents();
        var piece := ReadPiece();
        data := data + piece;
        Regroup(was, piece, Contents());
      }
      SizeOfQueue();
    }

    lemma SizeOfQueue()
      requires Valid()
      ensures buffer.Length == buflen && outptr <= buflen && bufused <= buflen && |Contents()| == bufused
    {
    }
  }

  lemma Regroup(a: seq<Byte>, b: seq<Byte>, c: seq<Byte>)
    ensures a + (b + c) == a + b + c
  {
  }

  /** The failing state is reached by ordinary use: fill the default
      allocation, read it, and append more than it holds. The reader is then
      offered the last 44 bytes of the second piece before any other. */
  method DrainedGrowthExample(first: seq<Byte>, second: seq<Byte>) returns (offered: seq<Byte>)
    requires |first| == 256 && |second| == 300
    ensures offered == second[256..]
  {
    var b := new CircBuffer(256);
    b.Append(first);
    assert b.buflen == Grown(0, 0, 256, 256) == Grown(256, 0, 256, 256);
    var data := b.ReadAll();
    b.Append(second);
    assert b.buflen == Grown(256, 0, 256, 300) == Grown(512, 0, 256, 300);
    offered := b.buffer[b.outptr..b.outptr + b.MaxRead()];
  }
}
