/** The generator object of src/yajl_gen.c: an output buffer, the per-depth
    state storage, the 56-bit depth, the option flags and the indent unit.
    Every operation is proved to act on View() as the matching function of
    GenSpec says. */
module Gen {
  import opened GenTypes
  import GenSpec
  import Decimal
  import DualBox
  import YajlBuf

  /** INSERT_WHITESPACE as written counts with an `unsigned int`: the counter
      wraps to 0 after 2^32 - 1. */
  const U32_LIMIT: nat := 0x1_0000_0000

  function U32Inc(i: nat): (r: nat)
    requires i < U32_LIMIT
    ensures r < U32_LIMIT
  {
    (i + 1) % U32_LIMIT
  }

  /** When the loop runs (beautify on, no map value due) on a generator at a
      depth of 2^32 or more, the 32-bit counter is below the depth whatever
      its value, and stays below after every increment: the loop guard never
      becomes false. */
  lemma WhitespaceLoopAsWrittenNeverEnds(g: Generator, i: nat)
    requires g.Valid() && GenSpec.Beautify(g.View()) && g.Current() != MapVal
    requires U32_LIMIT <= g.depth && i < U32_LIMIT
    ensures i < g.depth && U32Inc(i) < g.depth
  {
  }

  class Generator {
    const buf: YajlBuf.Buffer
    const statusAtDepth: DualBox.DualStorage
    /** The 56-bit `depth` bit-field. */
    var depth: nat
    /** The 8-bit `flags` bit-field. */
    var flags: bv8
    /** The indent unit; an indent the option rejected is empty. */
    var indentString: CString

    ghost predicate Valid()
      reads this, buf, buf.data, statusAtDepth, statusAtDepth.local, statusAtDepth.overflow
    {
      && buf.Valid() && statusAtDepth.Valid()
      && (buf.data != null ==> buf.Terminated())
      && depth < DEPTH_LIMIT && depth < statusAtDepth.Capacity()
    }

    /** The generator as a value: the states of depths 0 to depth, the text so far. */
    ghost function View(): (g: GenSpec.Gen)
      reads this, buf, buf.data, statusAtDepth, statusAtDepth.local, statusAtDepth.overflow
      requires Valid()
      ensures GenSpec.Shaped(g)
    {
      GenSpec.Gen(depth, statusAtDepth.Slots()[..depth + 1], buf.Contents(), flags, indentString)
    }

    /** yajl_gen_alloc: a zeroed generator (with the default indent). */
    constructor (bufInitSize: nat)
      requires bufInitSize > 0
      ensures Valid() && View() == GenSpec.Initial()
      ensures fresh(buf) && fresh(statusAtDepth) && fresh(statusAtDepth.local)
      ensures buf.data == null && statusAtDepth.overflow == null
    {
      buf := new YajlBuf.Buffer(bufInitSize);
      statusAtDepth := new DualBox.DualStorage();
      depth := 0;
      flags := 0;
      indentString := DEFAULT_INDENT;
    }

    /** The state at the current depth. */
    function Current(): (s: State)
      reads this, buf, buf.data, statusAtDepth, statusAtDepth.local, statusAtDepth.overflow
      requires Valid()
      ensures s == statusAtDepth.Slots()[depth]
    {
      statusAtDepth.Get(depth)
    }

    // The macros.

    method AppendBytes(bytes: seq<byte>)
      requires Valid()
      modifies buf, buf.data
      ensures Valid() && View() == GenSpec.AppendOut(old(View()), bytes)
      ensures buf.data == old(buf.data) || fresh(buf.data)
    {
      buf.Append(bytes);
    }

    /** `mark`, then `extra` when beautifying. */
    method AppendPunctuation(mark: byte, extra: byte)
      requires Valid()
      modifies buf, buf.data
      ensures Valid() && View() == GenSpec.AppendOut(old(View()), GenSpec.Punctuation(mark, extra, GenSpec.Beautify(old(View()))))
      ensures buf.data == old(buf.data) || fresh(buf.data)
    {
      AppendBytes([mark]);
      if flags & BEAUTIFY != 0 {
        AppendBytes([extra]);
      }
    }

    /** INSERT_SEP. */
    method InsertSep()
      requires Valid()
      modifies buf, buf.data
      ensures Valid() && View() == GenSpec.InsertSep(old(View()))
      ensures buf.data == old(buf.data) || fresh(buf.data)
    {
      var current := Current();
      if current == MapKey || current == InArray {
        AppendPunctuation(COMMA, NEWLINE);
      } else if current == MapVal {
        AppendPunctuation(COLON, SPACE);
      }
    }

    /** INSERT_WHITESPACE: the indent unit once per depth, unless a map value
        is due. The counter here is unbounded (see U32Inc). */
    method InsertWhitespace()
      requires Valid()
      modifies buf, buf.data
      ensures Valid() && View() == GenSpec.InsertWhitespace(old(View()))
      ensures buf.data == old(buf.data) || fresh(buf.data)
    {
      if flags & BEAUTIFY != 0 {
        if Current() != MapVal {
          Indent();
        }
      }
    }

    /** The loop of INSERT_WHITESPACE: the indent unit `depth` times. */
    method Indent()
      requires Valid()
      modifies buf, buf.data
      ensures Valid() && View() == GenSpec.AppendOut(old(View()), GenSpec.Repeat(indentString, depth))
      ensures buf.data == old(buf.data) || fresh(buf.data)
    {
      ghost var before := buf.Contents();
      var i: nat := 0;
      while i < depth
        invariant i <= depth
        invariant buf.Valid() && buf.Contents() == before + GenSpec.Repeat(indentString, i)
        invariant buf.data == old(buf.data) || fresh(buf.data)
        invariant buf.data != null ==> buf.Terminated()
      {
        buf.Append(indentString);
        GenSpec.RepeatStep(before, indentString, i);
        i := i + 1;
      }
    }

    /** APPENDED_ATOM: the current depth's state after a completed value. */
    method AppendedAtom()
      requires Valid()
      modifies statusAtDepth, statusAtDepth.local, statusAtDepth.overflow
      ensures Valid() && View() == GenSpec.AppendedAtom(old(View()))
    {
      var current := Current();
      var next := current;
      match current {
        case Start => next := Complete;
        case MapStart => next := MapVal;
        case MapKey => next := MapVal;
        case ArrayStart => next := InArray;
        case MapVal => next := MapKey;
        case _ =>
      }
      if next != current {
        ghost var before := statusAtDepth.Slots();
        statusAtDepth.Put(depth, next);
        assert statusAtDepth.Slots()[..depth + 1] == before[..depth + 1][depth := next];
      }
    }

    /** FINAL_NEWLINE. */
    method FinalNewline()
      requires Valid()
      modifies buf, buf.data
      ensures Valid() && View() == GenSpec.WithFinalNewline(old(View()))
      ensures buf.data == old(buf.data) || fresh(buf.data)
    {
      if flags & BEAUTIFY != 0 && Current() == Complete {
        AppendBytes([NEWLINE]);
      }
    }

    /** INCREMENT_DEPTH, then the new depth's state set to `s`. The depth
        wraps like the 56-bit field; the storage grows to hold it. */
    method IncrementDepth(s: State)
      requires Valid()
      modifies this, statusAtDepth, statusAtDepth.local, statusAtDepth.overflow
      ensures Valid() && View() == GenSpec.IncrementDepth(old(View()), s)
      ensures statusAtDepth.overflow == old(statusAtDepth.overflow) || fresh(statusAtDepth.overflow)
      ensures flags == old(flags) && indentString == old(indentString)
    {
      ghost var g := View();
      Deepen();
      SetCurrent(s);
      assert g.states[..depth] + [s] == GenSpec.IncrementDepth(g, s).states;
    }

    /** INCREMENT_DEPTH itself: `depth++` on the 56-bit field, then growth of
        the storage so the new depth has a slot. */
    method Deepen()
      requires Valid()
      modifies this, statusAtDepth
      ensures Valid()
      ensures depth == if old(depth) + 1 < DEPTH_LIMIT then old(depth) + 1 else 0
      ensures statusAtDepth.Slots()[..depth] == old(statusAtDepth.Slots())[..depth]
      ensures statusAtDepth.overflow == old(statusAtDepth.overflow) || fresh(statusAtDepth.overflow)
      ensures flags == old(flags) && indentString == old(indentString)
    {
      ghost var before := statusAtDepth.Slots();
      depth := (depth + 1) % DEPTH_LIMIT;
      statusAtDepth.Grow(depth);
      assert statusAtDepth.Slots()[..depth] == statusAtDepth.Slots()[..|before|][..depth];
    }

    /** `*yajlDualStorageGetPtr(&g->statusAtDepth, g->depth) = s`. */
    method SetCurrent(s: State)
      requires Valid()
      modifies statusAtDepth, statusAtDepth.local, statusAtDepth.overflow
      ensures Valid()
      ensures statusAtDepth.Slots() == old(statusAtDepth.Slots())[depth := s]
      ensures statusAtDepth.Slots()[..depth + 1] == old(statusAtDepth.Slots())[..depth] + [s]
      ensures statusAtDepth.overflow == old(statusAtDepth.overflow)
    {
      statusAtDepth.Put(depth, s);
      assert statusAtDepth.Slots()[..depth] == old(statusAtDepth.Slots())[..depth];
    }

    /** DECREMENT_DEPTH. */
    method DecrementDepth()
      requires Valid() && depth > 0
      modifies this
      ensures Valid() && View() == GenSpec.DecrementDepth(old(View()))
    {
      depth := depth - 1;
    }

    /** INSERT_SEP followed by INSERT_WHITESPACE, which every value starts with. */
    method Separate()
      requires Valid()
      modifies buf, buf.data
      ensures Valid() && View() == GenSpec.InsertWhitespace(GenSpec.InsertSep(old(View())))
      ensures buf.data == old(buf.data) || fresh(buf.data)
    {
      InsertSep();
      InsertWhitespace();
    }

    /** The shared tail of the scalar calls: separator, indentation, the
        token, APPENDED_ATOM, FINAL_NEWLINE. */
    method WriteAtom(token: seq<byte>)
      requires Valid()
      modifies buf, buf.data, statusAtDepth, statusAtDepth.local, statusAtDepth.overflow
      ensures Valid() && View() == GenSpec.WriteAtom(old(View()), token)
      ensures buf.data == old(buf.data) || fresh(buf.data)
    {
      Separate();
      AppendBytes(token);
      AppendedAtom();
      FinalNewline();
    }

    // The emit calls.

    /** yajl_gen_integer. */
    method Integer(number: int64) returns (status: Status)
      requires Valid()
      modifies buf, buf.data, statusAtDepth, statusAtDepth.local, statusAtDepth.overflow
      ensures Valid() && GenSpec.Outcome(status, View()) == GenSpec.Integer(old(View()), number)
      ensures buf.data == old(buf.data) || fresh(buf.data)
    {
      var rejected := GenSpec.ValidStateError(Current());
      if rejected.Some? {
        return rejected.value;
      }
      rejected := GenSpec.NotKeyError(Current());
      if rejected.Some? {
        return rejected.value;
      }
      WriteAtom(Decimal.Text(number as int));
      status := Ok;
    }

    /** yajl_gen_double. */
    method Double(number: GenSpec.FloatValue) returns (status: Status)
      requires Valid()
      modifies buf, buf.data, statusAtDepth, statusAtDepth.local, statusAtDepth.overflow
      ensures Valid() && GenSpec.Outcome(status, View()) == GenSpec.Double(old(View()), number)
      ensures buf.data == old(buf.data) || fresh(buf.data)
    {
      var rejected := GenSpec.ValidStateError(Current());
      if rejected.Some? {
        return rejected.value;
      }
      rejected := GenSpec.NotKeyError(Current());
      if rejected.Some? {
        return rejected.value;
      }
      if number.NonFinite? {
        return InvalidNumber;
      }
      WriteAtom(number.rendering);
      status := Ok;
    }

    /** yajl_gen_number: the caller's text as it is. */
    method Number(text: seq<byte>) returns (status: Status)
      requires Valid()
      modifies buf, buf.data, statusAtDepth, statusAtDepth.local, statusAtDepth.overflow
      ensures Valid() && GenSpec.Outcome(status, View()) == GenSpec.Number(old(View()), text)
      ensures buf.data == old(buf.data) || fresh(buf.data)
    {
      var rejected := GenSpec.ValidStateError(Current());
      if rejected.Some? {
        return rejected.value;
      }
      rejected := GenSpec.NotKeyError(Current());
      if rejected.Some? {
        return rejected.value;
      }
      WriteAtom(text);
      status := Ok;
    }

    /** yajl_gen_string. */
    method String(enc: GenSpec.Encoder, text: seq<byte>) returns (status: Status)
      requires Valid()
      modifies buf, buf.data, statusAtDepth, statusAtDepth.local, statusAtDepth.overflow
      ensures Valid() && GenSpec.Outcome(status, View()) == GenSpec.String(old(View()), enc, text)
      ensures buf.data == old(buf.data) || fresh(buf.data)
    {
      if flags & VALIDATE_UTF8 != 0 {
        if !enc.isValidUtf8(text) {
          return InvalidString;
        }
      }
      var rejected := GenSpec.ValidStateError(Current());
      if rejected.Some? {
        return rejected.value;
      }
      var encoded := enc.encode(text, flags & ESCAPE_SOLIDUS != 0);
      WriteQuoted(encoded);
      status := Ok;
    }

    /** The tail of yajl_gen_string: the quotes and the encoded text are
        appended one after the other, and together form the atom. */
    method WriteQuoted(encoded: seq<byte>)
      requires Valid()
      modifies buf, buf.data, statusAtDepth, statusAtDepth.local, statusAtDepth.overflow
      ensures Valid() && View() == GenSpec.WriteAtom(old(View()), [QUOTE] + encoded + [QUOTE])
      ensures buf.data == old(buf.data) || fresh(buf.data)
    {
      Separate();
      AppendQuoted(encoded);
      AppendedAtom();
      FinalNewline();
    }

    /** The opening quote, the encoded text and the closing quote, appended one after the other. */
    method AppendQuoted(encoded: seq<byte>)
      requires Valid()
      modifies buf, buf.data
      ensures Valid() && View() == GenSpec.AppendOut(old(View()), [QUOTE] + encoded + [QUOTE])
      ensures buf.data == old(buf.data) || fresh(buf.data)
    {
      AppendBytes([QUOTE]);
      AppendBytes(encoded);
      AppendBytes([QUOTE]);
      assert buf.Contents() == old(buf.Contents()) + ([QUOTE] + encoded + [QUOTE]);
    }

    /** yajl_gen_null. */
    method Null() returns (status: Status)
      requires Valid()
      modifies buf, buf.data, statusAtDepth, statusAtDepth.local, statusAtDepth.overflow
      ensures Valid() && GenSpec.Outcome(status, View()) == GenSpec.Null(old(View()))
      ensures buf.data == old(buf.data) || fresh(buf.data)
    {
      var rejected := GenSpec.ValidStateError(Current());
      if rejected.Some? {
        return rejected.value;
      }
      rejected := GenSpec.NotKeyError(Current());
      if rejected.Some? {
        return rejected.value;
      }
      WriteAtom(NULL_TOKEN);
      status := Ok;
    }

    /** yajl_gen_bool. */
    method Bool(boolean: int) returns (status: Status)
      requires Valid()
      modifies buf, buf.data, statusAtDepth, statusAtDepth.local, statusAtDepth.overflow
      ensures Valid() && GenSpec.Outcome(status, View()) == GenSpec.Bool(old(View()), boolean)
      ensures buf.data == old(buf.data) || fresh(buf.data)
    {
      var val := if boolean != 0 then TRUE_TOKEN else FALSE_TOKEN;
      var rejected := GenSpec.ValidStateError(Current());
      if rejected.Some? {
        return rejected.value;
      }
      rejected := GenSpec.NotKeyError(Current());
      if rejected.Some? {
        return rejected.value;
      }
      WriteAtom(val);
      status := Ok;
    }

    /** yajl_gen_map_open (opener "{", state MapStart) and yajl_gen_array_open
        (opener "[", state ArrayStart). */
    method Open(opener: byte, s: State) returns (status: Status)
      requires Valid()
      modifies this, buf, buf.data, statusAtDepth, statusAtDepth.local, statusAtDepth.overflow
      ensures Valid() && GenSpec.Outcome(status, View()) == GenSpec.Open(old(View()), opener, s)
      ensures buf.data == old(buf.data) || fresh(buf.data)
      ensures statusAtDepth.overflow == old(statusAtDepth.overflow) || fresh(statusAtDepth.overflow)
    {
      var rejected := GenSpec.ValidStateError(Current());
      if rejected.Some? {
        return rejected.value;
      }
      rejected := GenSpec.NotKeyError(Current());
      if rejected.Some? {
        return rejected.value;
      }
      Enter(opener, s);
      status := Ok;
    }

    /** The tail of the open calls, once both checks have passed. */
    method Enter(opener: byte, s: State)
      requires Valid()
      modifies this, buf, buf.data, statusAtDepth, statusAtDepth.local, statusAtDepth.overflow
      ensures Valid()
      ensures View() == GenSpec.WithFinalNewline(GenSpec.AppendOut(
        GenSpec.IncrementDepth(GenSpec.InsertWhitespace(GenSpec.InsertSep(old(View()))), s),
        GenSpec.Punctuation(opener, NEWLINE, GenSpec.Beautify(old(View())))))
      ensures buf.data == old(buf.data) || fresh(buf.data)
      ensures statusAtDepth.overflow == old(statusAtDepth.overflow) || fresh(statusAtDepth.overflow)
    {
      Descend(s);
      WriteOpener(opener);
    }

    /** The opener, a newline when beautifying, and FINAL_NEWLINE. */
    method WriteOpener(opener: byte)
      requires Valid()
      modifies buf, buf.data
      ensures Valid()
      ensures View() == GenSpec.WithFinalNewline(GenSpec.AppendOut(old(View()), GenSpec.Punctuation(opener, NEWLINE, GenSpec.Beautify(old(View())))))
      ensures buf.data == old(buf.data) || fresh(buf.data)
    {
      AppendPunctuation(opener, NEWLINE);
      FinalNewline();
    }

    /** Separator and indentation at the parent's depth, then the new depth in state `s`. */
    method Descend(s: State)
      requires Valid()
      modifies this, buf, buf.data, statusAtDepth, statusAtDepth.local, statusAtDepth.overflow
      ensures Valid()
      ensures View() == GenSpec.IncrementDepth(GenSpec.InsertWhitespace(GenSpec.InsertSep(old(View()))), s)
      ensures buf.data == old(buf.data) || fresh(buf.data)
      ensures statusAtDepth.overflow == old(statusAtDepth.overflow) || fresh(statusAtDepth.overflow)
    {
      Separate();
      IncrementDepth(s);
    }

    method MapOpen() returns (status: Status)
      requires Valid()
      modifies this, buf, buf.data, statusAtDepth, statusAtDepth.local, statusAtDepth.overflow
      ensures Valid() && GenSpec.Outcome(status, View()) == GenSpec.MapOpen(old(View()))
      ensures buf.data == old(buf.data) || fresh(buf.data)
      ensures statusAtDepth.overflow == old(statusAtDepth.overflow) || fresh(statusAtDepth.overflow)
    {
      status := Open(LBRACE, MapStart);
    }

    method ArrayOpen() returns (status: Status)
      requires Valid()
      modifies this, buf, buf.data, statusAtDepth, statusAtDepth.local, statusAtDepth.overflow
      ensures Valid() && GenSpec.Outcome(status, View()) == GenSpec.ArrayOpen(old(View()))
      ensures buf.data == old(buf.data) || fresh(buf.data)
      ensures statusAtDepth.overflow == old(statusAtDepth.overflow) || fresh(statusAtDepth.overflow)
    {
      status := Open(LBRACKET, ArrayStart);
    }

    /** yajl_gen_map_close (closer "}") and yajl_gen_array_close (closer "]"). */
    method Close(closer: byte) returns (status: Status)
      requires Valid() && GenSpec.CloseDefined(View())
      modifies this, buf, buf.data, statusAtDepth, statusAtDepth.local, statusAtDepth.overflow
      ensures Valid() && GenSpec.Outcome(status, View()) == GenSpec.Close(old(View()), closer)
      ensures buf.data == old(buf.data) || fresh(buf.data)
    {
      var rejected := GenSpec.ValidStateError(Current());
      if rejected.Some? {
        return rejected.value;
      }
      Leave(closer);
      status := Ok;
    }

    /** The tail of the close calls, once the state check has passed. */
    method Leave(closer: byte)
      requires Valid() && depth > 0
      modifies this, buf, buf.data, statusAtDepth, statusAtDepth.local, statusAtDepth.overflow
      ensures Valid()
      ensures View() == GenSpec.WithFinalNewline(GenSpec.AppendOut(GenSpec.InsertWhitespace(
        GenSpec.AppendedAtom(GenSpec.AppendOut(GenSpec.DecrementDepth(old(View())), GenSpec.NewlineIf(GenSpec.Beautify(old(View())))))),
        [closer]))
      ensures buf.data == old(buf.data) || fresh(buf.data)
    {
      Ascend();
      ghost var parent := View();
      InsertWhitespace();
      AppendBytes([closer]);
      assert View() == GenSpec.AppendOut(GenSpec.InsertWhitespace(parent), [closer]);
      FinalNewline();
    }

    /** One depth down, a newline when beautifying, and the parent's atom transition. */
    method Ascend()
      requires Valid() && depth > 0
      modifies this, buf, buf.data, statusAtDepth, statusAtDepth.local, statusAtDepth.overflow
      ensures Valid()
      ensures View() == GenSpec.AppendedAtom(GenSpec.AppendOut(GenSpec.DecrementDepth(old(View())), GenSpec.NewlineIf(GenSpec.Beautify(old(View())))))
      ensures buf.data == old(buf.data) || fresh(buf.data)
    {
      ghost var g := View();
      DecrementDepth();
      if flags & BEAUTIFY != 0 {
        AppendBytes([NEWLINE]);
      }
      assert View() == GenSpec.AppendOut(GenSpec.DecrementDepth(g), GenSpec.NewlineIf(GenSpec.Beautify(g)));
      AppendedAtom();
    }

    method MapClose() returns (status: Status)
      requires Valid() && GenSpec.CloseDefined(View())
      modifies this, buf, buf.data, statusAtDepth, statusAtDepth.local, statusAtDepth.overflow
      ensures Valid() && GenSpec.Outcome(status, View()) == GenSpec.MapClose(old(View()))
      ensures buf.data == old(buf.data) || fresh(buf.data)
    {
      status := Close(RBRACE);
    }

    method ArrayClose() returns (status: Status)
      requires Valid() && GenSpec.CloseDefined(View())
      modifies this, buf, buf.data, statusAtDepth, statusAtDepth.local, statusAtDepth.overflow
      ensures Valid() && GenSpec.Outcome(status, View()) == GenSpec.ArrayClose(old(View()))
      ensures buf.data == old(buf.data) || fresh(buf.data)
    {
      status := Close(RBRACKET);
    }

    // The calls that do not emit.

    /** yajl_gen_get_buf: the buffer's storage and the number of bytes in
        use; the first `len` bytes are the text so far and a NUL follows
        them. The generator is not changed. */
    method GetBuf() returns (status: Status, data: array?<byte>, len: nat)
      requires Valid()
      ensures status == Ok && data == buf.data && len == |View().out|
      ensures data != null ==> len < data.Length && data[..len] == View().out && data[len] == 0
      ensures data == null ==> View().out == []
    {
      data := buf.Data();
      len := buf.Len();
      status := Ok;
    }

    /** yajl_gen_clear. */
    method Clear()
      requires Valid()
      modifies buf, buf.data
      ensures Valid() && View() == GenSpec.Clear(old(View()))
      ensures buf.data == old(buf.data)
    {
      buf.Clear();
    }

    /** yajl_gen_reset: depth 0, the state storage zeroed and its tail
        released, then the separator appended if there is one. */
    method Reset(sep: Option<CString>)
      requires Valid()
      modifies this, buf, buf.data, statusAtDepth, statusAtDepth.local
      ensures Valid() && View() == GenSpec.Reset(old(View()), sep)
      ensures buf.data == old(buf.data) || fresh(buf.data)
      ensures statusAtDepth.overflow == null && statusAtDepth.count == 0
      ensures statusAtDepth.totalCountOfAllocated == 0
      ensures statusAtDepth.Slots() == seq(LOCAL_SIZE, _ => ZERO_STATE)
    {
      depth := 0;
      statusAtDepth.Reset();
      if sep.Some? {
        AppendBytes(sep.value);
      }
    }

    /** yajl_gen_pretty_enable. */
    method PrettyEnable()
      requires Valid()
      modifies this
      ensures Valid() && View() == GenSpec.PrettyEnable(old(View()))
    {
      flags := flags | BEAUTIFY;
    }

    /** yajl_gen_config: the flag options set or clear their bit, the indent
        option goes to SetIndent, any other option returns 0. */
    method Config(opt: int, arg: GenSpec.ConfigArg) returns (rv: int)
      requires Valid() && GenSpec.ArgFits(opt, arg)
      modifies this
      ensures Valid()
      ensures rv == GenSpec.Config(old(View()), opt, arg).0
      ensures View() == GenSpec.Config(old(View()), opt, arg).1
    {
      rv := 1;
      if opt == BEAUTIFY_OPTION || opt == VALIDATE_UTF8_OPTION || opt == ESCAPE_SOLIDUS_OPTION {
        SetFlag(GenSpec.FlagBit(opt), arg.i != 0);
      } else if opt == INDENT_STRING_OPTION {
        rv := SetIndent(arg.s);
      } else {
        rv := 0;
      }
    }

    /** The flag branch of yajl_gen_config: `flags |= opt` or `flags &= ~opt`. */
    method SetFlag(bit: bv8, on: bool)
      requires Valid()
      modifies this
      ensures Valid()
      ensures View() == old(View()).(flags := GenSpec.WithFlag(old(View()).flags, bit, on))
    {
      var updated: bv8;
      if on {
        updated := flags | bit;
      } else {
        updated := flags & !bit;
      }
      StoreFlags(updated);
    }

    /** Writes the flags field and nothing else. */
    method StoreFlags(updated: bv8)
      requires Valid()
      modifies this
      ensures Valid() && View() == old(View()).(flags := updated)
    {
      flags := updated;
    }

    /** The indent branch of yajl_gen_config. The indent is scanned byte by
        byte; one byte outside the six whitespace characters disables the
        indent and makes the result 0, whatever follows. */
    method SetIndent(indent: CString) returns (rv: int)
      requires Valid()
      modifies this
      ensures Valid() && rv == (if GenSpec.AllIndentChars(indent) then 1 else 0)
      ensures View() == old(View()).(indent := GenSpec.ChosenIndent(indent))
    {
      rv := 1;
      var chosen := indent;
      var k := 0;
      while k < |indent|
        invariant 0 <= k <= |indent|
        invariant rv == 0 || rv == 1
        invariant rv == 1 <==> GenSpec.AllIndentChars(indent[..k])
        invariant chosen == if rv == 1 then indent else []
      {
        var c := indent[k];
        if c != NEWLINE && c != 11 && c != 12 && c != 9 && c != 13 && c != SPACE {
          chosen := [];
          rv := 0;
        }
        assert indent[..k + 1] == indent[..k] + [c];
        k := k + 1;
      }
      assert indent[..k] == indent;
      assert chosen == GenSpec.ChosenIndent(indent);
      indentString := chosen;
    }
  }
}
