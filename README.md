# csops-rs: a Dafny model

csops-rs is a small Rust tool and library for the macOS `csops` system call. This call either queries or changes the code-signing state of a process. The model covers three parts of the repository:

- **The code-signing status decoder.** The library has it as an unrolled chain of 28 `if` statements. The binary has it as a table with a loop. A third copy, again an unrolled chain, sits in `csops-bin/src/util.rs`; `main.rs` declares no `mod util`, so that file is not compiled into the binary. The decoder prints a header. For each of 28 masks, in a fixed order, it then prints `"; LABEL "` when every bit of the mask is set in the status word. It ends with a newline.
  - The model states this decoder once, over any ordered table of (mask, label) pairs. Its properties are proved over that general table.
  - Each of the three copies is a method proved to print the report of the one fixed table. The three differ only in the tag: `PID`, or `pid`.
- **The library's `csops` wrapper.** It hands the whole buffer to the kernel and returns the kernel's result unchanged.
- **The binary's `main` dispatch.** Each operation selects:
  - one control call: either a word-sized call, or a call on a zeroed buffer of fixed capacity;
  - one decoder: the status report or the validation category of the word, a text field, the CDHash in hexadecimal, or the blob dump.

  A negative result prints `Error: <result>, <description>` and nothing else. The six mutating operations print nothing when they succeed. `MachOOffset` makes no call and prints `Invalid operation`.

Modules, one per file:

| module | file | contents |
|---|---|---|
| `Encoding` | `encoding.dfy` | Rust integer types; `{}` decimal rendering with its read-back; big-endian `u32`; lowercase hex (Base16 of RFC 4648, section 8, with the lowercase alphabet) with its decoder |
| `CodeSign` | `codesign.dfy` | the kernel header's constants |
| `Bits` | `bits.dfy` | `flag_set`, bit by bit |
| `Flags` | `flags.dfy` | the generic table decoder, its properties, the fixed table, and the link between the table and any 28-step unrolled chain |
| `CsopsLib` | `csops_lib.dfy` | `csops/src/lib.rs`: the unrolled decoder, and the kernel as a class that logs calls and writes the buffer |
| `CsopsUtil` | `csops_util.dfy` | `csops-bin/src/util.rs`: the unrolled decoder that is not compiled into the binary |
| `CsopsBin` | `csops_bin.dfy` | `csops-bin/src/main.rs`: the table-driven decoder, the reply decoders, the operation routes and `main` |

The kernel is modelled by a `Responder` value. It is a set of functions:

- from (pid, opcode, size) to the call's result;
- from (pid, opcode, size) to the reply bytes;
- from (pid, opcode, size) to the error description;
- from (pid, opcode) to the word that a word-sized call returns. The size of such a call is always 4.

A `Kernel` object holds a `Responder`, the log of calls made, and the last error text. Its `Control` method writes the reply into the first `size` bytes of the caller's array:

- bytes past the reply keep their old contents;
- bytes past `size` keep their old contents.

UTF-8 decoding is a parameter, `utf8: seq<byte> -> Option<string>`. `None` means the input is not valid UTF-8, which is the `unwrap` panic path.

Output is modelled as the text the run writes to standard output, paired with an exit: `Finished` or `Panicked`.

## Model

| member | source | states |
|---|---|---|
| Bits.FlagSet | csops-bin/src/main.rs:10-12 | definition: `flag_set(flags, flag)` is `flags & flag == flag` on 32-bit words; the library's copy at `csops/src/lib.rs:11-13` is the same test |
| Flags.Matched | csops-bin/src/main.rs:50-54 | definition: the labels of the table entries whose mask is contained in the status, in table order |
| Flags.Render | csops-bin/src/main.rs:52 | definition: `"; "`, the label and a space for each matched label, in order |
| Flags.Emit | csops/src/lib.rs:17-19 | definition: the text of one `if flag_set` statement of the unrolled chain |
| Flags.StatusReport | csops-bin/src/main.rs:15-55 | definition: the header `<tag>: <pid> cs_flags: <status>`, the rendered matches of the fixed table, a newline |
| Flags.FirstEntryFirst | csops-bin/src/main.rs:50-54 | in any table, a matching first entry is the first label printed |
| Flags.LastEntryLast | csops-bin/src/main.rs:50-54 | in any table, a matching last entry is the last label printed |
| CsopsBin.RouteOf | csops-bin/src/main.rs:107-269 | definition: each operation's opcode, call kind (word-sized, or buffer with its capacity) and decoder; `MachOOffset` has none |
| CsopsBin.CallsOf | csops-bin/src/main.rs:107-269 | definition: a run makes one call, with the route's opcode and size, or none for `MachOOffset` |
| CsopsBin.Dispatch | csops-bin/src/main.rs:107-269 | definition: `Invalid operation` for an operation without a route, otherwise the answer along its route |
| CsopsBin.Answer | csops-bin/src/main.rs:107-265 | definition: a word route finishes with the word answer; a buffer route gives the buffer answer |
| CsopsBin.WordAnswer | csops-bin/src/main.rs:108-265 | definition: the word-call arms (lines 108-137, 212-232 and 257-265): the error line for a negative result; otherwise the status report, nothing, or `PID: <pid> -> Validation Category: <word>` |
| CsopsBin.BufferAnswer | csops-bin/src/main.rs:138-256 | definition: the error line for a negative result; otherwise the text field, the CDHash in hex, or the blob dump of the zeroed buffer after the reply is written into it |
| CsopsBin.ErrorLine | csops-bin/src/main.rs:112 | definition: `Error: <result>, <description>` and a newline |
| CsopsBin.FieldLine | csops-bin/src/main.rs:148 | definition: `PID: <pid> -> <field>: <value>` and a newline |
| CsopsBin.TextOutcome | csops-bin/src/main.rs:147-148 | definition: the whole buffer converted from UTF-8 and printed as a field line; a panic with no output when it is not UTF-8 |
| CsopsBin.ReadBlobHeader | csops-bin/src/main.rs:202-206 | definition: the blob type and length, read as big-endian words from bytes 0-3 and 4-7 |
| CsopsBin.PayloadOutcome | csops-bin/src/main.rs:208-210 | definition: nothing for a length of 8 or less; the decimals of bytes 8 up to the length when it fits; otherwise the decimals up to the end of the buffer and a panic |
| CsopsBin.BlobOutcome | csops-bin/src/main.rs:202-210 | definition: read the header, then print the payload for the header's length; a buffer shorter than 8 bytes panics |
| Bits.FlagSetEveryBit | csops-bin/src/main.rs:10-12 | `flag_set(flags, flag)` holds exactly when every bit of `flag` is set in `flags` |
| Bits.FlagSetNoClearBit | csops/src/lib.rs:11-13 | `flag_set(flags, flag)` holds exactly when `flag` has no bit outside `flags` |
| Bits.FlagSetEmptyMask | csops-bin/src/main.rs:10-12 | the zero mask matches every status |
| Bits.FlagSetMoreBits | csops-bin/src/main.rs:10-12 | a match survives OR-ing any extra bits into the status |
| Flags.MatchedPositions | csops-bin/src/main.rs:50-54 | the printed labels are the labels at strictly increasing table positions; a position is among them exactly when its mask is contained in the status |
| Flags.DistinctLabelsOnce | csops-bin/src/main.rs:50-54 | for a table with distinct labels: a label is printed exactly when its mask is contained, and no label is printed twice |
| Flags.MatchedMaskSound | csops-bin/src/main.rs:50-53 | no false positives: the OR of the printed entries' masks is contained in the status, and covers each printed mask |
| Flags.StatusTableShape | csops-bin/src/main.rs:16-48 | the fixed table has 28 entries; its labels, in order, are the listed labels; CS_VALID is first and CS_DATAVAULT_CONTROLLER last; all labels differ |
| Flags.StatusLabelsDistinct | csops-bin/src/main.rs:16-48 | the 28 labels are pairwise different |
| Flags.StatusOrderEnds | csops-bin/src/main.rs:16-54 | when set, CS_VALID is printed first and CS_DATAVAULT_CONTROLLER last |
| Flags.PrintIfSet | csops/src/lib.rs:17-19 | one link of the unrolled chain appends `"; LABEL "` exactly when the mask is contained, and nothing otherwise |
| Flags.RenderTwentyEight | csops/src/lib.rs:17-100 | in any table that holds the 28 entries in source order, the printed labels are the 28 conditional prints one after another |
| Flags.StatusRenderUnrolled | csops-bin/src/util.rs:3-86 | for the fixed table, the printed labels are exactly the 28 conditional prints of the unrolled chain, after any prefix |
| Flags.StatusReportTag | csops-bin/src/main.rs:15 | the report under a tag is the tag followed by the same text under an empty tag |
| CsopsLib.DecodeStatus | csops/src/lib.rs:15-102 | the unrolled chain prints `pid: <pid> cs_flags: <status>`, then `"; L "` for each contained entry of the table in order, then a newline |
| CsopsLib.Written | csops/src/lib.rs:107 | the buffer keeps its length; reply bytes land at the start, but never past `size`; the rest is left alone |
| CsopsLib.Kernel.Control | csops/src/lib.rs:107 | the control call writes its reply into the caller's buffer, logs one call, returns the kernel's result and sets the error text |
| CsopsLib.Kernel.ControlWord | csops-bin/src/main.rs:109 | the word-sized call returns the kernel's result and word, and logs one call of size 4 |
| CsopsLib.Csops | csops/src/lib.rs:104-110 | the wrapper passes the buffer's length as the size and returns the kernel's result unchanged |
| CsopsUtil.DecodeStatus | csops-bin/src/util.rs:1-88 | prints the same report as the library copy, `pid` tag included, for every pid and status |
| CsopsBin.DecodeStatus | csops-bin/src/main.rs:14-56 | the table loop prints `PID: <pid> cs_flags: <status>`, then `"; L "` for each contained entry in table order, then a newline |
| CsopsBin.TaggedReportsAgree | csops-bin/src/main.rs:15-55 | the table loop and the unrolled copies print the same text after the three-letter tag (`PID` against `pid`) |
| CsopsBin.RoutesDistinct | csops-bin/src/main.rs:107-269 | exactly `MachOOffset` has no call, and distinct operations use distinct opcodes |
| CsopsBin.MutatingRoutes | csops-bin/src/main.rs:117-232 | the mutating operations are exactly the word calls whose arm prints nothing: MarkInvalid, MarkHard and MarkKill at lines 117-137, ClearPlatform, ClearInstaller and ClearLV at lines 212-232 |
| CsopsBin.ErrorBranch | csops-bin/src/main.rs:110-112 | for every operation that makes a call: a negative result prints only `Error: <result>, <description>`; output starts with `Error: ` exactly when the result is negative |
| CsopsBin.AnswerErrorLine | csops-bin/src/main.rs:142-146 | along any route, output starts with `Error: ` exactly when the call failed |
| CsopsBin.MutatingSilent | csops-bin/src/main.rs:212-232 | the six mark/clear operations print nothing when the call succeeds |
| CsopsBin.MachOOffsetInvalid | csops-bin/src/main.rs:266-268 | `MachOOffset` prints `Invalid operation` and makes no call, whatever the kernel would answer |
| CsopsBin.StatusSuccess | csops-bin/src/main.rs:108-116 | a successful status call prints the table report of the returned word |
| CsopsBin.CDHashSuccess | csops-bin/src/main.rs:150-160 | the 20-byte digest prints as 40 lowercase hex digits, high nibble first, which decode back to the digest |
| CsopsBin.TextWholeBuffer | csops-bin/src/main.rs:147 | the UTF-8 converter is given the whole fixed buffer, reply bytes then zeros, and the bytes are not cut at a NUL first; the run panics exactly when the converter rejects them |
| CsopsBin.PrintText | csops-bin/src/main.rs:242-243 | the text arm prints `PID: <pid> -> <field>: <text>`, or panics on invalid UTF-8 |
| CsopsBin.BlobHeaderRoundTrip | csops-bin/src/main.rs:202-206 | a header written as two big-endian words is read back as those words |
| CsopsBin.BlobHeaderBytes | csops-bin/src/main.rs:203-204 | re-encoding the header that was read gives back the buffer's first eight bytes |
| CsopsBin.BlobPayload | csops-bin/src/main.rs:208-210 | the payload prints nothing when the length is 8 or less, and bytes 8 up to the length, in order, when the length fits; the run panics exactly when the length exceeds the buffer; the text is all digits |
| CsopsBin.PrintPayload | csops-bin/src/main.rs:208-210 | the payload loop prints what the payload reference says, including the panic past the end of the buffer |
| CsopsBin.PrintBlob | csops-bin/src/main.rs:202-210 | the blob arm reads the header and then runs the payload loop |
| CsopsBin.BlobSuccess | csops-bin/src/main.rs:192-211 | with the 1 MiB buffer, the blob arm panics exactly when the declared length exceeds 1 MiB |
| CsopsBin.DecimalsAmbiguous | csops-bin/src/main.rs:209 | the payload is printed without separators, so two different byte strings can print the same text |
| CsopsBin.Zeros | csops-bin/src/main.rs:140 | a fresh buffer is all zeros, at its capacity |
| CsopsBin.RunWord | csops-bin/src/main.rs:117-123 | a word-call arm prints the error line or its decoder's output, logs the one call of size 4, and leaves the kernel's error text for that call |
| CsopsBin.RunBuffer | csops-bin/src/main.rs:138-149 | a buffer arm allocates a zeroed buffer, makes the call and prints the error line or its decoder's output; one call of size `cap` is logged, and the kernel's error text is the one for that call |
| CsopsBin.Run | csops-bin/src/main.rs:104-270 | `main` prints what `Dispatch` gives for the operation and makes exactly the calls the route names; the error text becomes the one for the route's call, and stays as it was for `MachOOffset` |
| Encoding.NatToDecimalRoundTrip | csops-bin/src/main.rs:15 | reading back the decimal rendering of the status gives the status |
| Encoding.IntToDecimalInjective | csops-bin/src/main.rs:15 | the printed pid determines the pid |
| Encoding.HexEncode | csops-bin/src/main.rs:158 | two lowercase digits per byte, high nibble first, no separators |
| Encoding.HexRoundTrip | csops-bin/src/main.rs:158 | hex-decoding the encoding gives back the bytes |
| Encoding.BeRoundTripWord | csops-bin/src/main.rs:203-204 | the big-endian bytes of a word read back as the word |
| Encoding.BeRoundTripBytes | csops-bin/src/main.rs:203-204 | four bytes read as a big-endian word re-encode to themselves |

## Left out

- The system call itself (`csops/src/lib.rs:106-108`) and `csops_int`, which is not part of this model. Both are modelled only by the `Responder` contract.
- CsopsLib.Kernel.ControlWord: offers a size of 4 and reports the word the kernel gives back; how `csops_int` builds its buffer is not modelled.
- The error description comes from `Errno::last().desc()`. It is an opaque string chosen by the kernel model for each call.
- Command-line parsing with `clap` is not modelled. `Run` receives the operation and the pid directly, and the usage errors of the parser are left out.
- The numeric values of the generated constants are not modelled, since the bindings are generated at build time. The masks are abstract 32-bit values, except the five that the operation descriptions state: CS_HARD, CS_KILL, CS_INSTALLER, CS_REQUIRE_LV and CS_PLATFORM_BINARY. The opcodes are distinct constructors. `CS_MAX_TEAMID_LEN` is abstract, but at least 1, since the source subtracts 1 from it at compile time.
- The `test_status` test is left out. It needs a live kernel.
- UTF-8 validation is the parameter `utf8`; its internals are not modelled.
- Only text on standard output is modelled. Left out: stdout buffering, and whether it is flushed on a panic; panic messages on standard error; exit codes; failures of `print!` itself.
- Flags.PrintIfSet: writes `"; "`, the label and a space as three pieces where the source prints one literal. The text is the same.

The code leaves out these checks, and the model follows it:

- Text fields are not cut at the first NUL. The whole fixed buffer is passed to the UTF-8 conversion.
- There is no check that the blob length read from the reply is at least 8, the header size. A length of 8 or less gives an empty loop: nothing is printed and the run finishes.
- The blob length is not clamped to the buffer. A length above the buffer size makes the payload loop print every byte from 8 to the end of the buffer and then panic on the first index past it. `CsopsBin.BlobPayload` states both cases.
- The CDHash buffer is a fixed 20 bytes (`SHA1_DIGEST_LENGTH`). No length is taken from the reply.
