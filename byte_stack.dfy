/** The stack of bytes (src/yajl_bytestack.h): push, pop, set and current
    work on the top byte; push grows the storage when it is full. */
module ByteStack {
  import opened GenTypes
  import Memory

  /** The size yajl_bs_push gives a full stack, as written: `size *= 2`. */
  function GrownSizeAsWritten(size: nat): nat
  {
    size * 2
  }

  /** As written, the first push onto a stack just after yajl_bs_init finds
      it full, grows its size 0 to 0 and then writes index `used` = 0, which
      is not below the new size. */
  lemma PushAfterInitWritesOutOfBounds(s: ByteStack)
    requires s.Valid() && s.stack == null && s.size == 0 && s.used == 0
    ensures s.size == s.used && !(s.used < GrownSizeAsWritten(s.size))
  {
  }

  /** The size a full stack is grown to in this model: doubling, starting
      from one byte when the stack is still empty. */
  function GrownSize(size: nat): (r: nat)
    ensures r > size
    ensures size > 0 ==> r == GrownSizeAsWritten(size)
  {
    if size == 0 then 1 else size * 2
  }

  class ByteStack {
    var stack: array?<byte>
    var size: nat
    var used: nat

    ghost predicate Valid()
      reads this
    {
      && (stack == null ==> size == 0)
      && (stack != null ==> stack.Length == size)
      && used <= size
    }

    /** The bytes on the stack, bottom first. */
    ghost function Contents(): (s: seq<byte>)
      reads this, stack
      requires Valid()
      ensures |s| == used
    {
      if stack == null then [] else stack[..used]
    }

    /** yajl_bs_init: no storage, size 0, nothing used. */
    constructor Init()
      ensures Valid() && stack == null && size == 0 && used == 0 && Contents() == []
    {
      stack := null;
      size := 0;
      used := 0;
    }

    /** yajl_bs_current: the top byte; the stack must not be empty. */
    function Current(): (b: byte)
      reads this, stack
      requires Valid() && used > 0
      ensures b == Contents()[|Contents()| - 1]
    {
      stack[used - 1]
    }

    /** yajl_bs_push: put `b` on top, growing a full stack first. Lower
        entries are unchanged. */
    method Push(b: byte)
      requires Valid()
      modifies this, stack
      ensures Valid()
      ensures Contents() == old(Contents()) + [b]
      ensures old(size) == old(used) ==> size == GrownSize(old(size)) && fresh(stack)
      ensures old(size) != old(used) ==> size == old(size) && stack == old(stack)
    {
      ghost var before := Contents();
      if size == used {
        size := GrownSize(size);
        stack := Memory.Realloc(stack, size);
        assert stack[..used] == before;
      }
      stack[used] := b;
      used := used + 1;
      assert stack[..used] == before + [b];
    }

    /** yajl_bs_pop: drop the top byte; the stack must not be empty. */
    method Pop()
      requires Valid() && used > 0
      modifies this
      ensures Valid()
      ensures Contents() == old(Contents())[..old(used) - 1]
      ensures stack == old(stack) && size == old(size)
    {
      used := used - 1;
    }

    /** yajl_bs_set: replace the top byte and nothing else. */
    method Set(b: byte)
      requires Valid() && used > 0
      modifies stack
      ensures Valid()
      ensures Contents() == old(Contents())[used - 1 := b]
    {
      stack[used - 1] := b;
    }
  }

  /** A push followed by a pop gives back the stack it started from. */
  method PushThenPop(s: ByteStack, b: byte)
    requires s.Valid()
    modifies s, s.stack
    ensures s.Valid() && s.Contents() == old(s.Contents())
  {
    s.Push(b);
    s.Pop();
  }
}
