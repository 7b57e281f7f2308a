/** The output byte buffer (src/yajl_buf.c): a doubling array that keeps a
    NUL byte after the used bytes. */
module YajlBuf {
  import opened GenTypes
  import Memory

  /** The capacity ensure_available settles on: `need` doubled until more than
      `want` bytes lie free above `used`. */
  function Doubled(need: nat, used: nat, want: nat): (r: nat)
    requires used < need
    ensures r >= need && r - used > want
    decreases want + used - need
  {
    if want >= need - used then Doubled(need * 2, used, want) else need
  }

  /** `r` is `need` doubled k times, and k - 1 doublings would not have left room. */
  ghost predicate FirstFittingDoubling(need: nat, used: nat, want: nat, r: nat, k: nat)
  {
    r == need * Pow2(k) && (k > 0 ==> need * Pow2(k - 1) - used <= want)
  }

  /** The settled capacity is `need` doubled some k times, and doubling stops
      at the first capacity that fits. */
  lemma {:induction false} DoubledIsFirstFittingDoubling(need: nat, used: nat, want: nat)
    requires used < need
    ensures exists k: nat :: FirstFittingDoubling(need, used, want, Doubled(need, used, want), k)
    decreases want + used - need
  {
    var r := Doubled(need, used, want);
    if want >= need - used {
      DoubledIsFirstFittingDoubling(need * 2, used, want);
      var k: nat :| FirstFittingDoubling(need * 2, used, want, r, k);
      DoubleTimesPow2(need, k);
      if k > 0 {
        DoubleTimesPow2(need, k - 1);
      }
      assert FirstFittingDoubling(need, used, want, r, k + 1);
    } else {
      assert FirstFittingDoubling(need, used, want, r, 0);
    }
  }

  lemma DoubleTimesPow2(n: nat, k: nat)
    ensures n * 2 * Pow2(k) == n * Pow2(k + 1)
  {
    assert Pow2(k + 1) == 2 * Pow2(k);
  }

  class Buffer {
    var data: array?<byte>
    /** Capacity of `data`. */
    var len: nat
    /** Bytes in use. */
    var used: nat
    /** YAJL_BUF_INIT_SIZE (yajl_buf.h is not part of this model): only its
        positivity is used. */
    const initSize: nat
    /** The bytes written so far. */
    ghost var contents: seq<byte>

    ghost predicate Valid()
      reads this, data
    {
      && initSize > 0
      && (data == null ==> len == 0 && used == 0 && contents == [])
      && (data != null ==> len == data.Length && used < len && contents == data[..used])
    }

    /** The bytes written so far. */
    ghost function Contents(): (s: seq<byte>)
      reads this
    {
      contents
    }

    /** The NUL terminator sits right after the used bytes. */
    ghost predicate Terminated()
      reads this, data
      requires Valid()
    {
      data != null && data[used] == 0
    }

    /** A zeroed yajl_buf_t: no storage yet. */
    constructor (initSize: nat)
      requires initSize > 0
      ensures Valid() && this.initSize == initSize
      ensures data == null && len == 0 && used == 0 && Contents() == []
    {
      this.initSize := initSize;
      data := null;
      len := 0;
      used := 0;
      contents := [];
    }

    /** yajl_buf_ensure_available: allocate on first use, then double the
        capacity until `want` bytes and the terminator fit; reallocate only if
        the capacity changed. */
    method EnsureAvailable(want: nat)
      requires Valid()
      modifies this
      ensures Valid() && data != null
      ensures used == old(used) && Contents() == old(Contents())
      ensures len == Doubled(if old(data) == null then initSize else old(len), used, want)
      ensures len - used > want && len >= old(len)
      ensures old(data) != null && len == old(len) ==> data == old(data)
      ensures data == old(data) || fresh(data)
      ensures old(data) == null || old(Terminated()) ==> Terminated()
    {
      if data == null {
        len := initSize;
        data := new byte[len](_ => 0);
      }
      var need := len;
      ghost var start := len;
      while want >= need - used
        invariant need >= len > used
        invariant Doubled(need, used, want) == Doubled(start, used, want)
        decreases want + used - need
      {
        need := need * 2;
      }
      if need != len {
        ghost var kept := data[..len];
        data := Memory.Realloc(data, need);
        len := need;
        assert data[..Memory.Min(need, |kept|)] == kept;
        assert data[..used] == kept[..used];
        assert contents == kept[..used];
      }
    }

    /** yajl_buf_append: the contents become the old contents followed by
        `bytes`, and a non-empty append writes the terminator after them. */
    method Append(bytes: seq<byte>)
      requires Valid()
      modifies this, data
      ensures Valid() && data != null
      ensures Contents() == old(Contents()) + bytes
      ensures used == old(used) + |bytes| && len >= old(len)
      ensures |bytes| > 0 || old(data) == null || old(Terminated()) ==> Terminated()
      ensures data == old(data) || fresh(data)
    {
      EnsureAvailable(|bytes|);
      if |bytes| > 0 {
        CopyIn(bytes);
        used := used + |bytes|;
        contents := contents + bytes;
      }
    }

    /** The memcpy and the terminator of yajl_buf_append: `bytes` lands right
        after the used bytes and a NUL right after it. */
    method CopyIn(bytes: seq<byte>)
      requires Valid() && data != null && len - used > |bytes|
      modifies data
      ensures data[..used + |bytes|] == contents + bytes
      ensures data[used + |bytes|] == 0
    {
      ghost var before := data[..used];
      forall j | 0 <= j < |bytes| {
        data[used + j] := bytes[j];
      }
      assert data[..used] == before;
      assert data[used..used + |bytes|] == bytes;
      assert data[..used + |bytes|] == before + bytes;
      data[used + |bytes|] := 0;
      assert data[..used + |bytes|] == before + bytes;
    }

    /** yajl_buf_clear: empty the contents, keep the storage and its capacity. */
    method Clear()
      requires Valid()
      modifies this, data
      ensures Valid() && Contents() == []
      ensures used == 0 && data == old(data) && len == old(len)
      ensures data != null ==> Terminated()
    {
      used := 0;
      contents := [];
      if data != null {
        data[used] := 0;
      }
    }

    /** yajl_buf_data: the storage itself; its first Len() bytes are the
        contents, followed by the terminator when the buffer is terminated. */
    function Data(): (d: array?<byte>)
      reads this, data
      requires Valid()
      ensures d == null <==> Contents() == [] && len == 0
      ensures d != null ==> |Contents()| < d.Length && d[..|Contents()|] == Contents()
      ensures d != null && Terminated() ==> d[|Contents()|] == 0
    {
      data
    }

    /** yajl_buf_len: the number of bytes in use. */
    function Len(): (n: nat)
      reads this, data
      requires Valid()
      ensures n == |Contents()|
    {
      used
    }

    /** yajl_buf_truncate: keep the first `newLen` bytes. The terminator is
        not rewritten. */
    method Truncate(newLen: nat)
      requires Valid()
      requires newLen <= used
      modifies this
      ensures Valid() && used == newLen
      ensures Contents() == old(Contents())[..newLen]
      ensures data == old(data) && len == old(len)
    {
      used := newLen;
      contents := contents[..newLen];
    }
  }
}
