# yajl JSON generator — a verified Dafny model

This project models the core of the yajl JSON generator:

- **The call-driven state machine** (`src/yajl_gen.c`). Every emit call does the following:
  1. checks the state at the current depth;
  2. writes its separator and indentation;
  3. writes its token;
  4. advances the state;
  5. after a complete top-level value, writes a final newline when beautify is on.
- **The dual-tier depth storage** (`src/dualBox.h`). It holds eight states inline and the rest in a heap tail that grows to the next Fibonacci size.
- **The output buffer** (`src/yajl_buf.c`). It is a NUL-terminated byte array whose capacity doubles.
- **The byte stack** (`src/yajl_bytestack.h`).
- **The public types** of `src/api/yajl_gen.h`: status codes, states, option bits and the 56-bit depth field.

Files:

| file | module | contents |
|---|---|---|
| `gen_types.dfy` | `GenTypes` | bytes, C strings, `Status` and `State` with their C codes, option values and bits, `LOCAL_SIZE`, `DEPTH_LIMIT` |
| `memory.dfy` | `Memory` | `Realloc`: a fresh array that keeps the common prefix |
| `decimal.dfy` | `Decimal` | the `%lld` rendering of an integer and its inverse |
| `byte_stack.dfy` | `ByteStack` | the byte stack as a class over an array |
| `yajl_buf.dfy` | `YajlBuf` | the output buffer as a class over an array |
| `dual_box.dfy` | `DualBox` | the depth storage as a class with a local array and an overflow array |
| `gen_spec.dfy` | `GenSpec` | the generator as a value `Gen(depth, states, out, flags, indent)`, one function per macro and per API call, and the lemmas about them |
| `gen.dfy` | `Gen` | class `Generator` over a `Buffer` and a `DualStorage`; every method is proved equal to its `GenSpec` function on `View()` |

Each imperative operation is a method whose `ensures` ties the new state to a `GenSpec` function of the old state. The generator's properties are then lemmas about those functions:

- well-formedness of the state stack;
- the order of the checks;
- the bytes every call appends;
- independence from previously written text;
- map key/value alternation;
- option handling;
- complete documents;
- concrete beautified output.

`yajl_gen_double` appends ".0" to its scratch array when the rendering has only digits and minus signs (src/yajl_gen.c:235-236). It then appends only `wroteLen` bytes, counted before the suffix (src/yajl_gen.c:239). So the suffix never reaches the output, and `Double` appends exactly the rendering.

## Model

| member | source | states |
|---|---|---|
| GenTypes.Status.Code | src/api/yajl_gen.h:36-60 | each status has its C enumerator value below eight, and decoding that value gives the status back |
| GenTypes.StatusOfCode | src/api/yajl_gen.h:36-60 | exactly the values 0 to 7 denote a status |
| GenTypes.StatusCodesDistinct | src/api/yajl_gen.h:36-60 | distinct statuses have distinct codes |
| GenTypes.State.Code | src/api/yajl_gen.h:62-73 | each state fits the one-byte packed enum, and decoding its code gives the state back |
| GenTypes.StateOfCode | src/api/yajl_gen.h:62-73 | exactly the values 0 to 7 denote a state |
| GenTypes.ZeroedSlotIsStart | src/yajl_gen.c:84-93 | zeroed depth storage (calloc, reset) reads as the start state |
| GenTypes.FlagOptionsAreTheirBits | src/api/yajl_gen.h:100-122 | the beautify, validate-utf8 and escape-solidus option values are their bits in the 8-bit flags field |
| GenTypes.FlagBitsDistinct | src/api/yajl_gen.h:100-122 | the three flag bits are pairwise disjoint, so setting one leaves the others |
| GenTypes.DepthLimitIsTwoToTheFiftySix | src/api/yajl_gen.h:85-87 | the depth bit-field counts modulo 2^56 = 72,057,594,037,927,936 |
| Decimal.TextRoundTrip | src/yajl_gen.c:204-216 | reading back the `%lld` text of an integer gives the integer |
| Decimal.DigitsRoundTrip | src/yajl_gen.c:211 | the digit run of n denotes n |
| Decimal.DigitsHaveNoLeadingZero | src/yajl_gen.c:211 | the rendering starts with '0' only for zero |
| Decimal.DigitsLength | src/yajl_gen.c:211 | a number below 10^k has at most k digits |
| Decimal.Int64TextFits | src/yajl_gen.c:205-212 | every 64-bit integer renders in at most 20 bytes, within the 32-byte scratch array |
| ByteStack.GrownSizeAsWritten | src/yajl_bytestack.h:57-60 | the size a full stack grows to as written: the old size doubled |
| ByteStack.PushAfterInitWritesOutOfBounds | src/yajl_bytestack.h:34-39 | as written, a stack just after init is full, its size 0 doubles to 0, and the first push writes index 0 of it |
| ByteStack.GrownSize | src/yajl_bytestack.h:57-60 | the corrected growth is strictly larger than the old size and doubles any non-zero size |
| ByteStack.ByteStack.Init | src/yajl_bytestack.h:34-39 | a new stack has no storage and no bytes |
| ByteStack.ByteStack.Current | src/yajl_bytestack.h:49-53 | the top byte is the last byte of the contents |
| ByteStack.ByteStack.Push | src/yajl_bytestack.h:55-63 | the contents gain `b` on top; a full stack is grown to fresh storage, and otherwise the storage stays |
| ByteStack.ByteStack.Pop | src/yajl_bytestack.h:66-69 | the contents lose their top byte; the storage stays |
| ByteStack.ByteStack.Set | src/yajl_bytestack.h:71-74 | only the top byte changes, to `b` |
| ByteStack.PushThenPop | src/yajl_bytestack.h:55-69 | a push followed by a pop restores the contents |
| YajlBuf.Doubled | src/yajl_buf.c:36-42 | the settled capacity is at least the start and leaves more than `want` bytes free above `used` |
| YajlBuf.DoubledIsFirstFittingDoubling | src/yajl_buf.c:36-42 | the settled capacity is the start doubled k times, and k-1 doublings would not have fit |
| YajlBuf.Buffer.constructor | src/yajl_buf.c:25-34 | a zeroed buffer has no storage and no contents |
| YajlBuf.Buffer.EnsureAvailable | src/yajl_buf.c:25-48 | storage exists afterwards with room for `want` bytes and the terminator; the contents are kept; the capacity is the doubled one; storage is reallocated only when the capacity changes; the terminator survives |
| YajlBuf.Buffer.Append | src/yajl_buf.c:57-65 | the contents become old contents followed by `bytes`, with the terminator after them |
| YajlBuf.Buffer.CopyIn | src/yajl_buf.c:61-64 | the bytes land right after the used bytes, and a NUL follows them |
| YajlBuf.Buffer.Clear | src/yajl_buf.c:67-72 | the contents are emptied and the storage and capacity kept; a NUL sits at index 0 |
| YajlBuf.Buffer.Data | src/yajl_buf.c:74-76 | the storage is null exactly when nothing was ever allocated; otherwise its first `Len()` bytes are the contents, followed by a NUL when the buffer is terminated |
| YajlBuf.Buffer.Len | src/yajl_buf.c:78-80 | the length is the number of bytes written |
| YajlBuf.Buffer.Truncate | src/yajl_buf.c:82-85 | the contents become their first `newLen` bytes |
| DualBox.NextSize | src/dualBox.h:15-35 | the grown tail size is larger than the requested extent |
| DualBox.FibAbove | src/dualBox.h:15-35 | the Fibonacci walk ends above `n` |
| DualBox.DualStorage.constructor | src/dualBox.h:79-85 | a zeroed storage has eight start slots and no tail |
| DualBox.DualStorage.LocalSize | src/dualBox.h:39 | the inline capacity is eight |
| DualBox.DualStorage.Get | src/dualBox.h:88-91 | reads slot i, from the inline part below eight and from the tail above |
| DualBox.DualStorage.GetPtr | src/dualBox.h:94-97 | the address of slot i lies in the inline array exactly when i < 8 and holds slot i |
| DualBox.DualStorage.Put | src/yajl_gen.c:311 | a store through the address of slot i changes slot i and nothing else |
| DualBox.DualStorage.Grow | src/dualBox.h:15-35 | afterwards extent i fits; existing slots are kept; the tail is reallocated, to the next size above the extent, only when i was beyond the capacity |
| DualBox.DualStorage.Append | src/dualBox.h:42-65 | the contents gain `what`, and the returned address is that of the new slot |
| DualBox.DualStorage.AppendToTail | src/dualBox.h:50-64 | the same as Append, for a storage whose inline part is full |
| DualBox.DualStorage.Minimize | src/dualBox.h:67-76 | the contents are kept, and a tail is shrunk to exactly the count |
| DualBox.DualStorage.Reset | src/dualBox.h:79-85 | the tail is dropped, the count is zero and all eight inline slots are start |
| DualBox.DualStorage.GetPtrAllocate | src/dualBox.h:103-119 | slot i exists afterwards, existing slots are kept, and the address is that of slot i |
| GenSpec.AfterAtom | src/yajl_gen.c:172-193 | APPENDED_ATOM's transition: start becomes complete, map start or key becomes value, value becomes key, array start becomes in-array; in-array, complete and error stay |
| GenSpec.ValidStateError | src/yajl_gen.c:147-158 | ENSURE_VALID_STATE: in-error-state in the error state, generation-complete in the complete state, no error otherwise |
| GenSpec.NotKeyError | src/yajl_gen.c:136-143 | ENSURE_NOT_KEY: keys-must-be-strings in the map-start and map-key states, no error otherwise |
| GenSpec.Rejection | src/yajl_gen.c:136-158 | the valid-state check first, then, for calls that make it, the not-key check |
| GenSpec.Separator | src/yajl_gen.c:108-123 | INSERT_SEP's bytes: "," (plus a newline when beautifying) after a map key or array element, ":" (plus a space) before a map value, nothing otherwise |
| GenSpec.InsertSep | src/yajl_gen.c:108-123 | appends the separator for the current state; depth and states are kept |
| GenSpec.Indentation | src/yajl_gen.c:125-134 | INSERT_WHITESPACE's bytes: the indent string once per depth level when beautifying and no map value is due, nothing otherwise |
| GenSpec.InsertWhitespace | src/yajl_gen.c:125-134 | appends the indentation for the current state and depth |
| GenSpec.IncrementDepth | src/yajl_gen.c:160-165 | the depth grows by one, wrapping from 2^56-1 to 0, and the new depth's state is the given one |
| GenSpec.DecrementDepth | src/yajl_gen.c:167-170 | the depth shrinks by one and the state above is no longer live |
| GenSpec.AppendedAtom | src/yajl_gen.c:172-193 | the current depth's state moves through the APPENDED_ATOM transition |
| GenSpec.FinalNewline | src/yajl_gen.c:195-202 | FINAL_NEWLINE's bytes: a newline exactly when beautifying and the state is complete |
| GenSpec.WithFinalNewline | src/yajl_gen.c:195-202 | appends the final newline for the current state |
| GenSpec.WriteAtom | src/yajl_gen.c:208-214 | the shared body of the scalar calls: separator, indentation, token, state transition, final newline |
| GenSpec.Scalar | src/yajl_gen.c:280-289 | both checks; a rejection returns its status with the generator unchanged, otherwise ok and the atom |
| GenSpec.Integer | src/yajl_gen.c:204-216 | a scalar whose token is the `%lld` text of the number |
| GenSpec.Double | src/yajl_gen.c:224-243 | both checks, then invalid-number for NaN or infinity, otherwise a scalar whose token is the rendering |
| GenSpec.Number | src/yajl_gen.c:245-255 | a scalar whose token is the given text, verbatim |
| GenSpec.String | src/yajl_gen.c:257-278 | invalid-string first when validating and the text is not UTF-8; then only the valid-state check; then the quoted encoded text as an atom |
| GenSpec.StringToken | src/yajl_gen.c:272-274 | a quote, the encoded text (escaping '/' when the escape-solidus flag is on), a quote |
| GenSpec.Null | src/yajl_gen.c:280-289 | a scalar whose token is "null" |
| GenSpec.Bool | src/yajl_gen.c:291-302 | a scalar whose token is "true" for a non-zero argument and "false" for zero |
| GenSpec.Open | src/yajl_gen.c:304-319 | both checks; then separator, indentation, one level deeper in the container's start state, the opener, the beautify newline and the final newline |
| GenSpec.MapOpen | src/yajl_gen.c:304-319 | an open with "{" and the map-start state |
| GenSpec.ArrayOpen | src/yajl_gen.c:336-350 | an open with "[" and the array-start state |
| GenSpec.Close | src/yajl_gen.c:321-334 | the valid-state check only; then one level up, the beautify newline, the parent's transition, its indentation, the closer and the final newline |
| GenSpec.MapClose | src/yajl_gen.c:321-334 | a close with "}" |
| GenSpec.ArrayClose | src/yajl_gen.c:352-364 | a close with "]" |
| GenSpec.Reset | src/yajl_gen.c:95-101 | depth 0 in the start state over zeroed storage, the options kept, the separator (if any) appended to the kept text |
| GenSpec.Clear | src/yajl_gen.c:372-374 | the text is dropped and the generation state kept |
| GenSpec.PrettyEnable | src/yajl_gen.c:32-34 | the beautify bit is set |
| GenSpec.WithFlag | src/yajl_gen.c:45-49 | the flags with one bit set when the argument is non-zero and cleared otherwise |
| GenSpec.ChosenIndent | src/yajl_gen.c:52-61 | the given indent when every byte is whitespace, the empty indent otherwise |
| GenSpec.Config | src/yajl_gen.c:36-73 | the flag options return 1 and set or clear their bit; the indent option returns 1 or 0 and installs the chosen indent; any other option returns 0 and changes nothing |
| GenSpec.Emit | src/yajl_gen.c:204-364 | an emit call's status and resulting generator, by the call's kind |
| GenSpec.Step | src/yajl_gen.c:95-374 | one API call of any kind on the generator, keeping only the generator for emit calls |
| Decimal.Text | src/yajl_gen.c:211 | the `%lld` text: a minus sign for a negative number, then the digits with no leading zero |
| Decimal.Parse | src/yajl_gen.c:211 | reads an optionally signed run of digits back into a number; the inverse of Text |
| GenSpec.Initial | src/yajl_gen.c:84-93 | a zeroed generator is at depth 0 in the start state with empty output |
| GenSpec.RepeatLength | src/yajl_gen.c:125-134 | n copies of the indent string are n times its length |
| GenSpec.FlagBitIsOption | src/yajl_gen.c:42-49 | the bit a flag option sets is the option's own value |
| GenSpec.Run | src/yajl_gen.c:204-364 | any sequence of defined calls keeps the model's shape |
| GenSpec.StepKeepsShape | src/yajl_gen.c:204-374 | every call keeps one state per depth from 0 to depth |
| GenSpec.WriteAtomShape | src/yajl_gen.c:108-134 | an atom appends separator, indentation, token and final newline, and advances the current state |
| GenSpec.ScalarAccepted | src/yajl_gen.c:280-289 | a scalar that passes both checks returns ok and writes its atom |
| GenSpec.OpenShape | src/yajl_gen.c:304-319 | an accepted open below the depth limit pushes the container's start state and appends separator, indentation, opener and newline |
| GenSpec.OpenWrapsAtDepthLimit | src/yajl_gen.c:160-165 | an open at depth 2^56-1 wraps the 56-bit depth to 0 and is still accepted |
| GenSpec.CloseShape | src/yajl_gen.c:321-334 | a close pops one depth, advances the parent's state and appends newline, indentation and closer |
| GenSpec.OpenWrites | src/yajl_gen.c:304-319 | an accepted open writes exactly the open bytes after the old output |
| GenSpec.AtomKeepsWellFormed | src/yajl_gen.c:172-193 | an accepted atom keeps the state stack well-formed (start at the bottom, an open container at every inner depth) |
| GenSpec.OpenKeepsWellFormed | src/yajl_gen.c:304-350 | an accepted open keeps well-formedness and goes one deeper |
| GenSpec.CloseKeepsWellFormed | src/yajl_gen.c:321-364 | a close keeps well-formedness and does not go deeper |
| GenSpec.StepKeepsWellFormed | src/yajl_gen.c:95-374 | every call, including reset, clear and config, keeps well-formedness and goes at most one deeper |
| GenSpec.EmitKeepsWellFormed | src/yajl_gen.c:204-364 | every emit call keeps well-formedness |
| GenSpec.ScalarKeepsWellFormed | src/yajl_gen.c:280-302 | a scalar call, accepted or not, keeps well-formedness and depth |
| GenSpec.OpenOrRejectKeepsWellFormed | src/yajl_gen.c:304-350 | an open call, accepted or not, keeps well-formedness |
| GenSpec.RunKeepsWellFormed | src/yajl_gen.c:204-374 | any sequence of n calls from a well-formed generator stays well-formed and at most n deeper |
| GenSpec.ReachableNeverInErrorState | src/yajl_gen.c:147-158 | from a fresh generator, no sequence of calls reaches the error state, so no call returns in-error-state |
| GenSpec.RejectedEmitChangesNothing | src/yajl_gen.c:136-158 | a call that returns an error status leaves the generator and its output unchanged |
| GenSpec.AtomIgnoresText | src/yajl_gen.c:172-202 | an atom keeps the old output as a prefix and appends the same bytes to an empty buffer |
| GenSpec.OpenIgnoresText | src/yajl_gen.c:304-350 | the same for an open |
| GenSpec.CloseIgnoresText | src/yajl_gen.c:321-364 | the same for a close |
| GenSpec.ScalarIgnoresText | src/yajl_gen.c:280-302 | the same for null and bool |
| GenSpec.DoubleIgnoresText | src/yajl_gen.c:224-243 | the same for a double |
| GenSpec.StringIgnoresText | src/yajl_gen.c:257-278 | the same for a string |
| GenSpec.EmitIgnoresText | src/yajl_gen.c:204-364 | the same for every emit call |
| GenSpec.EmitOnlyAppends | src/yajl_gen.c:204-364 | an emit call only appends to the output and never changes the flags or the indent |
| GenSpec.EmitKeepsOptions | src/yajl_gen.c:204-364 | an emit call never changes the flags or the indent |
| GenSpec.ClearedEmitWritesTheSameBytes | src/api/yajl_gen.h:169-172 | after clear, a call returns the same status, reaches the same states and writes the same bytes as without it, which is what makes incremental output work |
| GenSpec.ValidStateCheckedFirst | src/yajl_gen.c:147-158 | in the error or complete state every call (except a string failing validation) returns that state's status and changes nothing |
| GenSpec.NonStringKeysRejected | src/yajl_gen.c:136-143 | where a map key is due, every value call other than a string returns keys-must-be-strings and changes nothing |
| GenSpec.InvalidStringRejectedFirst | src/yajl_gen.c:263-267 | with validation on, an invalid string returns invalid-string before any other check, and changes nothing |
| GenSpec.StringAcceptedAsKey | src/yajl_gen.c:257-278 | a string where a key is due is accepted, writes the quoted encoded text and makes a value due |
| GenSpec.NonFiniteDoubleRejected | src/yajl_gen.c:224-230 | a NaN or infinite double changes nothing and returns invalid-number, unless a state check rejects first |
| GenSpec.FiniteDoubleWritesRendering | src/yajl_gen.c:232-242 | an accepted finite double writes exactly its rendering, without a ".0" suffix |
| GenSpec.IntegerWritesDecimal | src/yajl_gen.c:204-216 | an accepted integer writes its decimal text, which reads back as the integer and fits 20 bytes |
| GenSpec.BoolWritesToken | src/yajl_gen.c:291-302 | an accepted bool writes "true" for any non-zero argument and "false" for zero |
| GenSpec.CloserIndex | src/yajl_gen.c:323-361 | the position of the closing byte: after the old text, the beautify newline and the parent's indentation |
| GenSpec.CloseWritesCloserAt | src/yajl_gen.c:355-362 | an accepted close writes the closer at CloserIndex, preceded by the old text, the newline and the indentation, and followed only by the final newline |
| GenSpec.CloseIgnoresContainerKind | src/yajl_gen.c:321-364 | whatever container is open, map close and array close reach the same state and write texts of equal length that agree everywhere except at CloserIndex, where one has '}' and the other ']' |
| GenSpec.CloseTopLevelCompletes | src/yajl_gen.c:172-202 | closing the outermost container completes the document, with a final newline when beautifying |
| GenSpec.CompleteRefusesEveryEmit | src/yajl_gen.c:147-158 | once complete, every emit call returns generation-complete (or invalid-string) and changes nothing |
| GenSpec.CompleteUntilReset | src/yajl_gen.c:147-158 | a complete generator stays complete through any sequence of calls without reset |
| GenSpec.ResetThenScalarCompletes | src/yajl_gen.c:95-101 | after reset, the separator is appended and one scalar forms a complete document |
| GenSpec.FirstAtomBytes | src/yajl_gen.c:195-202 | a top-level atom is its token plus the beautify newline, with no separator or indentation |
| GenSpec.MapAlternates | src/yajl_gen.c:172-193 | after k atoms in a map, a value is due for odd k and a key for even k > 0 |
| GenSpec.MapKeyDueAtEvenCounts | src/yajl_gen.c:136-143 | the keys-must-be-strings check applies exactly after an even number of atoms in a map |
| GenSpec.MapSeparators | src/yajl_gen.c:108-123 | in a map, a value is preceded by ':' (plus a space when beautifying) and a later key by ',' (plus a newline) |
| GenSpec.ArraySeparators | src/yajl_gen.c:108-123 | in an array, every element after the first is preceded by ',' (plus a newline when beautifying) |
| GenSpec.ConfigFlag | src/yajl_gen.c:42-51 | a flag option returns 1, sets its bit exactly when the argument is non-zero and changes nothing else |
| GenSpec.ConfigIndent | src/yajl_gen.c:52-63 | an indent option returns 1 exactly when every byte is whitespace, and installs the string (or an empty one) |
| GenSpec.ConfigUnknownOption | src/yajl_gen.c:66-68 | an unknown option returns 0 and changes nothing |
| GenSpec.PrettyEnableSetsBeautify | src/yajl_gen.c:32-34 | pretty-enable sets the beautify bit, keeps the others and is idempotent |
| GenSpec.ResetSeparatesDocuments | src/api/yajl_gen.h:174-183 | 1, reset with ",", then 2 writes "1,2" |
| GenSpec.BeautifiedMap | src/yajl_gen.c:304-334 | beautified {"a": 1} is written as `{`, newline, four spaces, `"a": 1`, newline, `}`, newline |
| GenSpec.BeautifiedOpen | src/yajl_gen.c:304-319 | the first step: a beautified open writes "{" and a newline |
| GenSpec.BeautifiedKey | src/yajl_gen.c:257-278 | the second step: the key is indented by four spaces |
| GenSpec.BeautifiedKeyAccepted | src/yajl_gen.c:257-278 | the key passes all checks and is written as a quoted atom |
| GenSpec.BeautifiedKeyWritten | src/yajl_gen.c:108-134 | the key's atom is the indentation and the quoted text, and makes a value due |
| GenSpec.BeautifiedValue | src/yajl_gen.c:204-216 | the third step: the value follows ": " |
| GenSpec.BeautifiedClose | src/yajl_gen.c:321-334 | the last step: a newline, "}" and the final newline |
| Gen.U32Inc | src/yajl_gen.c:125-134 | the unsigned int loop counter stays below 2^32 |
| Gen.WhitespaceLoopAsWrittenNeverEnds | src/yajl_gen.c:125-134 | as written, on a beautifying generator at a depth of 2^32 or more with no map value due, the 32-bit counter is below the depth before and after every increment, so the loop never ends |
| Gen.Generator.constructor | src/yajl_gen.c:84-93 | a new generator is the initial value |
| Gen.Generator.Current | src/yajl_gen.c:108-123 | the current state is the stored state at the current depth |
| Gen.Generator.AppendBytes | src/yajl_buf.c:57-65 | the output gains exactly the given bytes |
| Gen.Generator.AppendPunctuation | src/yajl_gen.c:113-121 | the output gains a mark, plus its companion when beautifying |
| Gen.Generator.InsertSep | src/yajl_gen.c:108-123 | after a map key or array element the output gains "," (plus a newline when beautifying), before a map value ":" (plus a space); otherwise nothing is written; depth and states are kept |
| Gen.Generator.InsertWhitespace | src/yajl_gen.c:125-134 | when beautifying and no map value is due, the output gains the indent string once per depth level; otherwise nothing changes |
| Gen.Generator.Indent | src/yajl_gen.c:127-131 | the loop appends the indent string once per depth level |
| Gen.Generator.AppendedAtom | src/yajl_gen.c:172-193 | the current state advances: start to complete, map start or key to value, value to key, array start to in-array; complete and error stay; the output is kept |
| Gen.Generator.FinalNewline | src/yajl_gen.c:195-202 | a newline is appended exactly when beautifying and the current state is complete |
| Gen.Generator.IncrementDepth | src/yajl_gen.c:160-165 | the depth grows by one modulo 2^56, the new depth holds `s`, the states below are kept and the output is unchanged |
| Gen.Generator.Deepen | src/yajl_gen.c:160-165 | the depth increments modulo 2^56, storage is allocated for it, and the states below are kept |
| Gen.Generator.SetCurrent | src/yajl_gen.c:311 | the slot at the current depth holds the new state, and the rest are kept |
| Gen.Generator.DecrementDepth | src/yajl_gen.c:167-170 | the depth shrinks by one; the states at the remaining depths and the output are kept |
| Gen.Generator.Separate | src/yajl_gen.c:108-134 | the separator, then the indentation, for the current state |
| Gen.Generator.WriteAtom | src/yajl_gen.c:280-289 | the separator, indentation, token and final newline are appended and the current state advances |
| Gen.Generator.Integer | src/yajl_gen.c:204-216 | a rejected call returns the failed check's status and changes nothing; an accepted one returns ok and writes the decimal atom |
| Gen.Generator.Double | src/yajl_gen.c:224-243 | a rejected call (by state check or as NaN/infinity) returns its status and changes nothing; an accepted one writes the rendering as an atom |
| Gen.Generator.Number | src/yajl_gen.c:245-255 | a rejected call returns the failed check's status and changes nothing; an accepted one writes the given text verbatim as an atom |
| Gen.Generator.String | src/yajl_gen.c:257-278 | with validation on, invalid text returns invalid-string first; a rejected call changes nothing; an accepted one writes the quoted encoded text, also where a key is due |
| Gen.Generator.WriteQuoted | src/yajl_gen.c:270-276 | a quoted atom is written |
| Gen.Generator.AppendQuoted | src/yajl_gen.c:272-274 | the output gains the quote, the encoded text and the quote |
| Gen.Generator.Null | src/yajl_gen.c:280-289 | a rejected call returns the failed check's status and changes nothing; an accepted one writes "null" as an atom |
| Gen.Generator.Bool | src/yajl_gen.c:291-302 | a rejected call returns the failed check's status and changes nothing; an accepted one writes "true" or "false" as an atom |
| Gen.Generator.Open | src/yajl_gen.c:304-319 | a rejected call returns the failed check's status and changes nothing; an accepted one goes one deeper with the container's start state and writes the opener |
| Gen.Generator.Enter | src/yajl_gen.c:308-318 | the accepted part of an open: the separator, a deeper level, the opener, the beautify newline |
| Gen.Generator.Descend | src/yajl_gen.c:308-311 | the separator and indentation, then one deeper with the container state |
| Gen.Generator.WriteOpener | src/yajl_gen.c:312-318 | the opener, the beautify newline and the final newline |
| Gen.Generator.MapOpen | src/yajl_gen.c:304-319 | as Open, with "{" and the map-start state |
| Gen.Generator.ArrayOpen | src/yajl_gen.c:336-350 | as Open, with "[" and the array-start state |
| Gen.Generator.Close | src/yajl_gen.c:321-334 | in the error or complete state returns that status and changes nothing; otherwise returns ok, goes one shallower, advances the parent's state and writes the closer |
| Gen.Generator.Leave | src/yajl_gen.c:323-333 | the accepted part of a close: one shallower, the newline, the parent's atom, the indentation, the closer |
| Gen.Generator.Ascend | src/yajl_gen.c:323-328 | one shallower, the beautify newline, then the parent's state advances |
| Gen.Generator.MapClose | src/yajl_gen.c:321-334 | as Close, with "}" |
| Gen.Generator.ArrayClose | src/yajl_gen.c:352-364 | as Close, with "]" |
| Gen.Generator.GetBuf | src/yajl_gen.c:366-370 | returns ok, the storage and the output length; the storage's first `len` bytes are the output and a NUL follows them |
| Gen.Generator.Clear | src/yajl_gen.c:372-374 | the output is emptied and everything else kept |
| Gen.Generator.Reset | src/yajl_gen.c:95-101 | the depth is 0; the storage has no tail, a zero count and all eight slots in the start state; a given separator is appended to the kept output |
| Gen.Generator.PrettyEnable | src/yajl_gen.c:32-34 | the beautify bit is set and everything else is kept |
| Gen.Generator.Config | src/yajl_gen.c:36-73 | a flag option sets or clears its bit and returns 1; an indent option installs an all-whitespace string (returning 1) or an empty one (returning 0); any other option returns 0 and changes nothing |
| Gen.Generator.SetFlag | src/yajl_gen.c:45-49 | one flag bit is set or cleared |
| Gen.Generator.StoreFlags | src/yajl_gen.c:46-48 | the flags field takes the new value and nothing else changes |
| Gen.Generator.SetIndent | src/yajl_gen.c:52-63 | the indent is installed when it is all whitespace, emptied otherwise, and the return value says which |

## Left out

- Allocator injection and allocation failure are not modelled. An allocation or realloc always succeeds, and `size_t` arithmetic never overflows.
- `yajl_gen_free`, `yajl_gen_deinit`, `yajl_gen_free_buffer`, `yajl_buf_free` and `yajl_bs_free` are not modelled. Each only releases memory.
- Double formatting is taken as a parameter. `%.20g`, NaN and infinity detection are floating-point library behaviour, so `Double` takes a `FloatValue` that is either non-finite or a finite value's rendering.
- UTF-8 validation and string escaping are taken as an `Encoder` parameter of `String`; yajl_encode.h is not part of this model.
- `DualBox.NextSize` stands in for `fibbufNextSizeBuffer`, which lives in a file not part of this model. It is the smallest Fibonacci number above its argument, and only "larger than the argument" is relied on.
- `YAJL_BUF_INIT_SIZE` is a positive constructor parameter of `Buffer`, because its header is not part of this model.
- The indent string is a field of the generator. In the source it is a file-level static shared by all generators, so the model does not capture a config on one generator changing another's output.
- Config with an indent that has a non-whitespace byte stores an empty indent in the model. The source stores NULL, and a later beautified call would then read the NULL pointer's length.
- Config's variadic argument is a `ConfigArg` whose kind must match the option (`ArgFits`). A mismatched `va_arg` is undefined behaviour in the source.
- `GenSpec.Close`: a close at depth 0 from a state the valid-state check accepts is excluded by `CloseDefined`. The source would decrement the 56-bit depth to 2^56-1 and index storage that was never allocated.
- `DualBox.DualStorage.Minimize`: requires the count to be at least eight when a tail exists. With a tail and a smaller count, `count - 8` wraps in `size_t` (src/dualBox.h:70-71), and the realloc asks for about 2^64 elements: an allocation failure, which is left out above. The generator itself never calls Minimize.
- `ByteStack.ByteStack.Pop`: requires a non-empty stack. The source decrements `used` unchecked (src/yajl_bytestack.h:66-69), so popping an empty stack wraps `used` to the largest `size_t`.
- `ByteStack.ByteStack.Set`: requires a non-empty stack. The source writes `stack[used - 1]` unchecked (src/yajl_bytestack.h:71-74), which for an empty stack is out of bounds.
- `YajlBuf.Buffer.Truncate`: does not rewrite the terminator, as in the source. Its contract says nothing about `Terminated()`.
- `Gen.Generator.GetBuf`: does not model the caller keeping the returned pointer across later appends, which may reallocate it.
- Full JSON validity of the output is not proved. The model proves the structural facts listed above: check order, separators, alternation, nesting and completion.

## Findings

| source | as written | input that shows it | evidently intended | confidence | as-written member | corrected member |
|---|---|---|---|---|---|---|
| src/yajl_bytestack.h:57-62 | a full stack grows by `size *= 2` | push onto a freshly initialised stack (size 0, used 0): size stays 0 and index 0 of a null/zero-size array is written | a stack that can start empty grows to a positive size | high, not executed | ByteStack.PushAfterInitWritesOutOfBounds | ByteStack.ByteStack.Push |
| src/yajl_gen.c:127-131 | the indentation loop counter is an `unsigned int` compared against a 56-bit depth | beautify on and depth 2^32 (reachable by 2^32 opens with beautify off, then pretty-enable): the counter wraps before reaching the depth, so the loop never ends | a counter as wide as the depth, so the loop writes `depth` indent strings | low, not executed | Gen.WhitespaceLoopAsWrittenNeverEnds | Gen.Generator.Indent |
