/** The generator's public types and layout constants (src/api/yajl_gen.h):
    the status codes, the per-depth states, the option bits, the inline
    capacity of the depth storage and the width of the depth field. */
module GenTypes {

  /** An octet of generated JSON text. */
  newtype byte = b: int | 0 <= b < 256

  /** The content of a NUL-terminated C string, without its terminator. */
  type CString = s: seq<byte> | 0 !in s witness []

  datatype Option<T> = None | Some(value: T)

  /** yajl_gen_status: what every emit call returns. */
  datatype Status =
    | Ok
    | KeysMustBeStrings
    | MaxDepthExceeded
    | InErrorState
    | GenerationComplete
    | InvalidNumber
    | NoBuf
    | InvalidString
  {
    /** The value of the C enumerator. */
    function Code(): (c: nat)
      ensures c < STATUS_COUNT
      ensures StatusOfCode(c) == Some(this)
    {
      match this
      case Ok => 0
      case KeysMustBeStrings => 1
      case MaxDepthExceeded => 2
      case InErrorState => 3
      case GenerationComplete => 4
      case InvalidNumber => 5
      case NoBuf => 6
      case InvalidString => 7
    }
  }

  /** The number of status codes. */
  const STATUS_COUNT: nat := 8

  /** The status an enumerator value denotes, if any. */
  function StatusOfCode(c: int): (r: Option<Status>)
    ensures r.Some? <==> 0 <= c < STATUS_COUNT
  {
    if c == 0 then Some(Ok)
    else if c == 1 then Some(KeysMustBeStrings)
    else if c == 2 then Some(MaxDepthExceeded)
    else if c == 3 then Some(InErrorState)
    else if c == 4 then Some(GenerationComplete)
    else if c == 5 then Some(InvalidNumber)
    else if c == 6 then Some(NoBuf)
    else if c == 7 then Some(InvalidString)
    else None
  }

  /** Distinct statuses have distinct codes, so the eight codes name eight statuses. */
  lemma StatusCodesDistinct(s: Status, t: Status)
    ensures s.Code() == t.Code() ==> s == t
  {
    assert StatusOfCode(s.Code()) == Some(s);
    assert StatusOfCode(t.Code()) == Some(t);
  }

  /** yajl_gen_state: what the generator expects next at one depth. */
  datatype State =
    | Start
    | MapStart
    | MapKey
    | MapVal
    | ArrayStart
    | InArray
    | Complete
    | Error
  {
    /** The value of the packed C enumerator (one byte). */
    function Code(): (c: nat)
      ensures c < 8
      ensures StateOfCode(c) == Some(this)
    {
      match this
      case Start => 0
      case MapStart => 1
      case MapKey => 2
      case MapVal => 3
      case ArrayStart => 4
      case InArray => 5
      case Complete => 6
      case Error => 7
    }
  }

  /** The state a stored byte denotes, if any. */
  function StateOfCode(c: int): (r: Option<State>)
    ensures r.Some? <==> 0 <= c < 8
  {
    if c == 0 then Some(Start)
    else if c == 1 then Some(MapStart)
    else if c == 2 then Some(MapKey)
    else if c == 3 then Some(MapVal)
    else if c == 4 then Some(ArrayStart)
    else if c == 5 then Some(InArray)
    else if c == 6 then Some(Complete)
    else if c == 7 then Some(Error)
    else None
  }

  /** Zeroed depth storage reads as Start: the state a reset storage holds. */
  const ZERO_STATE: State := Start

  lemma ZeroedSlotIsStart()
    ensures StateOfCode(0) == Some(ZERO_STATE)
    ensures ZERO_STATE.Code() == 0
  {
  }

  /** yajl_gen_option values as passed to yajl_gen_config. */
  const BEAUTIFY_OPTION: int := 0x01
  const INDENT_STRING_OPTION: int := 0x02
  const VALIDATE_UTF8_OPTION: int := 0x08
  const ESCAPE_SOLIDUS_OPTION: int := 0x10

  /** The three flag bits in the 8-bit flags field. */
  const BEAUTIFY: bv8 := 0x01
  const VALIDATE_UTF8: bv8 := 0x08
  const ESCAPE_SOLIDUS: bv8 := 0x10

  /** Each flag option's value is its bit, so `flags |= opt` sets that bit. */
  lemma FlagOptionsAreTheirBits()
    ensures BEAUTIFY as int == BEAUTIFY_OPTION
    ensures VALIDATE_UTF8 as int == VALIDATE_UTF8_OPTION
    ensures ESCAPE_SOLIDUS as int == ESCAPE_SOLIDUS_OPTION
  {
  }

  /** The three flag bits are pairwise disjoint. */
  lemma FlagBitsDistinct()
    ensures BEAUTIFY & VALIDATE_UTF8 == 0 && BEAUTIFY & ESCAPE_SOLIDUS == 0
    ensures VALIDATE_UTF8 & ESCAPE_SOLIDUS == 0
  {
  }

  /** The inline capacity of the depth storage: yajlGenStateStatus.local[8]. */
  const LOCAL_SIZE: nat := 8

  /** depth is the 56-bit field `uint64_t depth : 56`, so it counts modulo 2^56. */
  const DEPTH_BITS: nat := 56
  const DEPTH_LIMIT: nat := 0x0100_0000_0000_0000

  lemma DepthLimitIsTwoToTheFiftySix()
    ensures DEPTH_LIMIT == Pow2(DEPTH_BITS)
  {
    assert Pow2(7) == 128 by {
      assert Pow2(1) == 2;
      assert Pow2(2) == 4;
      assert Pow2(3) == 8;
      assert Pow2(4) == 16;
      assert Pow2(5) == 32;
      assert Pow2(6) == 64;
    }
    Pow2Add(7, 7);
    assert Pow2(14) == 0x4000;
    Pow2Add(14, 14);
    assert Pow2(28) == 0x1000_0000;
    Pow2Add(28, 28);
  }

  function Pow2(n: nat): (r: nat)
    ensures r >= 1
  {
    if n == 0 then 1 else 2 * Pow2(n - 1)
  }

  lemma {:induction false} Pow2Add(a: nat, b: nat)
    ensures Pow2(a + b) == Pow2(a) * Pow2(b)
  {
    if a > 0 {
      Pow2Add(a - 1, b);
    }
  }

  /** A 64-bit signed integer: the `long long int` yajl_gen_integer takes. */
  newtype int64 = x: int | -0x8000_0000_0000_0000 <= x < 0x8000_0000_0000_0000

  // ASCII bytes the generator writes.
  const QUOTE: byte := 34     // '"'
  const COMMA: byte := 44     // ','
  const MINUS: byte := 45     // '-'
  const DOT: byte := 46       // '.'
  const DIGIT_ZERO: byte := 48 // '0'
  const COLON: byte := 58     // ':'
  const SPACE: byte := 32     // ' '
  const NEWLINE: byte := 10   // '\n'
  const LBRACKET: byte := 91  // '['
  const RBRACKET: byte := 93  // ']'
  const LBRACE: byte := 123   // '{'
  const RBRACE: byte := 125   // '}'

  const NULL_TOKEN: seq<byte> := [110, 117, 108, 108]      // "null"
  const TRUE_TOKEN: seq<byte> := [116, 114, 117, 101]      // "true"
  const FALSE_TOKEN: seq<byte> := [102, 97, 108, 115, 101] // "false"

  /** The default indent unit, four spaces. */
  const DEFAULT_INDENT: CString := [SPACE, SPACE, SPACE, SPACE]
}
