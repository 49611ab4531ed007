/** The command-line tool: the table-driven status decoder, the decoders of
    the kernel's replies, and the dispatch from the requested operation to
    one control call and one decoder. */
module CsopsBin {
  import opened Encoding
  import opened CodeSign
  import opened Bits
  import opened Flags
  import opened CsopsLib

  const SHA1_DIGEST_LENGTH: nat := 20
  const CSOPS_MAX_BUFFER_SIZE: nat := 1024 * 1024
  const PATH_SIZE: nat := 1024
  const TEAMID_SIZE: nat := CS_MAX_TEAMID_LEN - 1

  // ---------------------------------------------------------------------
  // The table-driven status decoder
  // ---------------------------------------------------------------------

  /** `decode_status`: the header with the tag `PID`, then one pass over the
      table printing each entry whose mask is contained in `status`, then a
      newline. */
  method DecodeStatus(pid: i32, status: bv32) returns (out: string)
    ensures out == StatusReport("PID", pid, status)
  {
    out := "PID: " + IntToDecimal(pid) + " cs_flags: " + NatToDecimal(status as int);
    ghost var head := out;
    assert head == StatusHeader("PID", pid, status);
    var flags := StatusTable;
    var i := 0;
    while i < |flags|
      invariant 0 <= i <= |flags|
      invariant out == head + Render(MatchedUpTo(flags, i, status))
    {
      var (flag, output) := flags[i];
      PrintedRenderStep(head, flags, i, status);
      out := PrintIfSet(out, status, flag, output);
      i := i + 1;
    }
    out := out + "\n";
  }

  /** The table-driven decoder and the two unrolled ones print the same text
      after the three letters of the tag, which is `PID` in the first and
      `pid` in the others. */
  lemma TaggedReportsAgree(pid: i32, status: bv32)
    ensures StatusReport("PID", pid, status)[..3] == "PID"
    ensures StatusReport("pid", pid, status)[..3] == "pid"
    ensures StatusReport("PID", pid, status)[3..] == StatusReport("pid", pid, status)[3..]
  {
    StatusReportTag("PID", pid, status);
    StatusReportTag("pid", pid, status);
  }

  // ---------------------------------------------------------------------
  // Operations and the calls they make
  // ---------------------------------------------------------------------

  /** The operations the tool accepts on its command line. */
  datatype CSOperation =
    | Status
    | MarkInvalid
    | MarkHard
    | MarkKill
    | ExecutablePath
    | CDHash
    | Entitlements
    | ClearPlatform
    | ClearInstaller
    | ClearLV
    | SigningID
    | TeamID
    | Blob
    | DEREntitlements
    | ValidationCategory
    | MachOOffset

  /** What the tool does with the word of a word-sized call. */
  datatype WordDecoder = StatusFlags | Silent | Category

  /** What the tool does with the buffer of a buffer call. */
  datatype BufferDecoder = Text(field: string) | Hex | BlobBytes

  /** How one operation talks to the kernel: a word-sized call, or a call on
      a zeroed buffer of a fixed capacity, each with its decoder. */
  datatype Route =
    | WordRoute(opcode: Opcode, wordDecoder: WordDecoder)
    | BufferRoute(opcode: Opcode, capacity: nat, bufferDecoder: BufferDecoder)

  /** The size the kernel is offered. */
  function SizeOf(rt: Route): nat {
    match rt
    case WordRoute(_, _) => 4
    case BufferRoute(_, capacity, _) => capacity
  }

  /** The call each operation makes; `MachOOffset` has none. */
  function RouteOf(op: CSOperation): Option<Route> {
    match op
    case Status => Some(WordRoute(CS_OPS_STATUS, StatusFlags))
    case MarkInvalid => Some(WordRoute(CS_OPS_MARKINVALID, Silent))
    case MarkHard => Some(WordRoute(CS_OPS_MARKHARD, Silent))
    case MarkKill => Some(WordRoute(CS_OPS_MARKKILL, Silent))
    case ExecutablePath => Some(BufferRoute(CS_OPS_PIDPATH, PATH_SIZE, Text("Executable Path")))
    case CDHash => Some(BufferRoute(CS_OPS_CDHASH, SHA1_DIGEST_LENGTH, Hex))
    case Entitlements => Some(BufferRoute(CS_OPS_ENTITLEMENTS_BLOB, CSOPS_MAX_BUFFER_SIZE, Text("Entitlements")))
    case DEREntitlements =>
      Some(BufferRoute(CS_OPS_DER_ENTITLEMENTS_BLOB, CSOPS_MAX_BUFFER_SIZE, Text("Embedded Entitlements (DER)")))
    case Blob => Some(BufferRoute(CS_OPS_BLOB, CSOPS_MAX_BUFFER_SIZE, BlobBytes))
    case ClearPlatform => Some(WordRoute(CS_OPS_CLEARPLATFORM, Silent))
    case ClearInstaller => Some(WordRoute(CS_OPS_CLEARINSTALLER, Silent))
    case ClearLV => Some(WordRoute(CS_OPS_CLEAR_LV, Silent))
    case SigningID => Some(BufferRoute(CS_OPS_IDENTITY, CSOPS_MAX_BUFFER_SIZE, Text("Code Signing ID")))
    case TeamID => Some(BufferRoute(CS_OPS_TEAMID, TEAMID_SIZE, Text("TeamID")))
    case ValidationCategory => Some(WordRoute(CS_OPS_VALIDATION_CATEGORY, Category))
    case MachOOffset => None
  }

  /** The calls to the kernel one run makes. */
  function CallsOf(op: CSOperation, pid: i32): seq<Call> {
    match RouteOf(op)
    case None => []
    case Some(rt) => [Call(pid, rt.opcode, SizeOf(rt))]
  }

  /** Operations that change the process's signing state and print nothing
      when they succeed. */
  predicate Mutating(op: CSOperation) {
    op in {MarkInvalid, MarkHard, MarkKill, ClearPlatform, ClearInstaller, ClearLV}
  }

  /** Exactly `MachOOffset` has no call, and different operations use
      different opcodes. */
  lemma RoutesDistinct(a: CSOperation, b: CSOperation)
    ensures RouteOf(a).None? <==> a == MachOOffset
    ensures RouteOf(a).Some? && RouteOf(b).Some? && a != b ==> RouteOf(a).value.opcode != RouteOf(b).value.opcode
  {
  }

  /** The six mutating operations are word-sized calls decoded by printing
      nothing. */
  lemma MutatingRoutes(op: CSOperation)
    ensures Mutating(op) <==> (RouteOf(op).Some? && RouteOf(op).value.WordRoute? && RouteOf(op).value.wordDecoder == Silent)
  {
  }

  // ---------------------------------------------------------------------
  // Decoding the replies
  // ---------------------------------------------------------------------

  /** How a run ends: normally, or in a panic (an `unwrap` of text that is
      not UTF-8, or an index past the end of the buffer). */
  datatype Exit = Finished | Panicked

  /** The text on standard output and how the run ended. */
  datatype Outcome = Outcome(out: string, exit: Exit)

  /** `Error: <result>, <description>` and a newline. */
  function ErrorLine(result: i32, desc: string): string {
    "Error: " + IntToDecimal(result) + ", " + desc + "\n"
  }

  /** `PID: <pid> -> <field>: <value>` and a newline. */
  function FieldLine(pid: i32, field: string, value: string): string {
    "PID: " + IntToDecimal(pid) + " -> " + field + ": " + value + "\n"
  }

  function Zeros(n: nat): (z: seq<byte>)
    ensures |z| == n && forall i :: 0 <= i < n ==> z[i] == 0
  {
    seq(n, _ => 0)
  }

  /** The buffer the tool decodes: `cap` zero bytes after the kernel wrote its
      reply into them. */
  function Received(r: Responder, pid: i32, opc: Opcode, cap: nat): seq<byte> {
    Written(Zeros(cap), r.reply(pid, opc, cap), cap)
  }

  /** A text field: the whole buffer is converted from UTF-8, and a buffer
      that is not UTF-8 panics. */
  function TextOutcome(utf8: seq<byte> -> Option<string>, buf: seq<byte>, pid: i32, field: string): Outcome {
    match utf8(buf)
    case None => Outcome("", Panicked)
    case Some(s) => Outcome(FieldLine(pid, field, s), Finished)
  }

  /** The decimal renderings of bytes, one after another, with nothing in
      between. */
  function Decimals(bs: seq<byte>): string {
    if bs == [] then "" else NatToDecimal(bs[0]) + Decimals(bs[1..])
  }

  lemma {:induction false} DecimalsSnoc(bs: seq<byte>, b: byte)
    ensures Decimals(bs + [b]) == Decimals(bs) + NatToDecimal(b)
  {
    if bs != [] {
      assert (bs + [b])[1..] == bs[1..] + [b];
      DecimalsSnoc(bs[1..], b);
    }
  }

  lemma {:induction false} DecimalsAllDigits(bs: seq<byte>)
    ensures forall k :: 0 <= k < |Decimals(bs)| ==> IsDigit(Decimals(bs)[k])
  {
    if bs != [] {
      DecimalsAllDigits(bs[1..]);
    }
  }

  /** With no separator between bytes, the printed payload does not determine
      the bytes: `[1, 23]` and `[12, 3]` print the same text. */
  lemma DecimalsAmbiguous()
    ensures exists a: seq<byte>, b: seq<byte> :: a != b && Decimals(a) == Decimals(b)
  {
    var a: seq<byte>, b: seq<byte> := [1, 23], [12, 3];
    assert NatToDecimal(23) == NatToDecimal(2) + [DigitChar(3)];
    assert NatToDecimal(12) == NatToDecimal(1) + [DigitChar(2)];
    assert a[1..] == [23] && [23][1..] == [];
    assert b[1..] == [3] && [3][1..] == [];
    assert a != b && Decimals(a) == "123" == Decimals(b);
  }

  /** The blob header: two big-endian words, the blob's type and its length. */
  datatype BlobHeader = BlobHeader(blobType: u32, length: u32)

  function ReadBlobHeader(buf: seq<byte>): BlobHeader
    requires |buf| >= 8
  {
    BlobHeader(FromBeBytes(buf[0..4]), FromBeBytes(buf[4..8]))
  }

  /** The payload loop, which prints the bytes at positions 8 up to `len`
      and panics at the first position past the end of the buffer. */
  function PayloadOutcome(buf: seq<byte>, len: nat): Outcome
    requires |buf| >= 8
  {
    if len <= 8 then Outcome("", Finished)
    else if len <= |buf| then Outcome(Decimals(buf[8..len]), Finished)
    else Outcome(Decimals(buf[8..]), Panicked)
  }

  /** The blob arm: read the header, then run the payload loop with the
      header's length. Slicing a buffer shorter than the header panics. */
  function BlobOutcome(buf: seq<byte>): Outcome {
    if |buf| < 8 then Outcome("", Panicked)
    else PayloadOutcome(buf, ReadBlobHeader(buf).length)
  }

  /** The header is read back as the two words it was written from, and its
      eight bytes are those words' big-endian bytes. */
  lemma BlobHeaderRoundTrip(blobType: u32, length: u32, rest: seq<byte>)
    ensures ReadBlobHeader(ToBeBytes(blobType) + ToBeBytes(length) + rest) == BlobHeader(blobType, length)
  {
    var buf := ToBeBytes(blobType) + ToBeBytes(length) + rest;
    assert buf[0..4] == ToBeBytes(blobType);
    assert buf[4..8] == ToBeBytes(length);
    BeRoundTripWord(blobType);
    BeRoundTripWord(length);
  }

  lemma BlobHeaderBytes(buf: seq<byte>)
    requires |buf| >= 8
    ensures var h := ReadBlobHeader(buf); ToBeBytes(h.blobType) + ToBeBytes(h.length) == buf[..8]
  {
    BeRoundTripBytes(buf[0..4]);
    BeRoundTripBytes(buf[4..8]);
    assert buf[..8] == buf[0..4] + buf[4..8];
  }

  /** What the blob arm prints: nothing for a length up to 8; the bytes at
      positions 8 up to the length, in order, when the length fits the
      buffer; otherwise every byte from position 8 and a panic. */
  lemma BlobPayload(buf: seq<byte>)
    requires |buf| >= 8
    ensures var len := ReadBlobHeader(buf).length; var o := BlobOutcome(buf);
      && (o.exit == Panicked <==> len > |buf|)
      && (len <= 8 ==> o.out == "")
      && (8 < len <= |buf| ==> o.out == Decimals(buf[8..len]))
      && (len > |buf| ==> o.out == Decimals(buf[8..]))
      && (forall k :: 0 <= k < |o.out| ==> IsDigit(o.out[k]))
  {
    var len := ReadBlobHeader(buf).length;
    if 8 < len <= |buf| {
      DecimalsAllDigits(buf[8..len]);
    } else if len > |buf| {
      DecimalsAllDigits(buf[8..]);
    }
  }

  /** `for i in 8..blob.len { print!("{}", buffer[i]) }`, with the bounds
      check that panics past the end of the buffer. */
  method PrintPayload(buffer: array<byte>, len: u32) returns (out: string, exit: Exit)
    requires buffer.Length >= 8
    ensures Outcome(out, exit) == PayloadOutcome(buffer[..], len)
  {
    out := "";
    var i: nat := 8;
    while i < len
      invariant 8 <= i <= buffer.Length
      invariant i == 8 || i <= len
      invariant out == Decimals(buffer[8..i])
    {
      if i >= buffer.Length {
        assert buffer[8..] == buffer[8..i];
        exit := Panicked;
        return;
      }
      DecimalsSnoc(buffer[8..i], buffer[i]);
      assert buffer[8..i + 1] == buffer[8..i] + [buffer[i]];
      out := out + NatToDecimal(buffer[i]);
      i := i + 1;
    }
    if len > 8 {
      assert buffer[8..i] == buffer[..][8..len];
    }
    exit := Finished;
  }

  // ---------------------------------------------------------------------
  // The dispatch in `main`
  // ---------------------------------------------------------------------

  /** What one run prints and how it ends, given how the kernel answers and
      how the platform converts UTF-8. */
  function Dispatch(r: Responder, utf8: seq<byte> -> Option<string>, op: CSOperation, pid: i32): Outcome {
    match RouteOf(op)
    case None => Outcome("Invalid operation\n", Finished)
    case Some(rt) => Answer(r, utf8, rt, pid)
  }

  /** One call along a route and the arm that prints its answer: the error
      line for a negative result, otherwise the route's decoder. */
  function Answer(r: Responder, utf8: seq<byte> -> Option<string>, rt: Route, pid: i32): Outcome {
    match rt
    case WordRoute(opc, decoder) => Outcome(WordAnswer(r, pid, opc, decoder), Finished)
    case BufferRoute(opc, cap, decoder) => BufferAnswer(r, utf8, pid, opc, cap, decoder)
  }

  function WordAnswer(r: Responder, pid: i32, opc: Opcode, decoder: WordDecoder): string {
    var result := r.result(pid, opc, 4);
    if result < 0 then ErrorLine(result, r.errorText(pid, opc, 4))
    else
      var word := r.word(pid, opc);
      match decoder
      case StatusFlags => StatusReport("PID", pid, word)
      case Silent => ""
      case Category => FieldLine(pid, "Validation Category", NatToDecimal(word as int))
  }

  function BufferAnswer(r: Responder, utf8: seq<byte> -> Option<string>, pid: i32, opc: Opcode, cap: nat,
                        decoder: BufferDecoder): Outcome {
    var result := r.result(pid, opc, cap);
    if result < 0 then Outcome(ErrorLine(result, r.errorText(pid, opc, cap)), Finished)
    else
      var buf := Received(r, pid, opc, cap);
      match decoder
      case Text(field) => TextOutcome(utf8, buf, pid, field)
      case Hex => Outcome(FieldLine(pid, "CDHash", HexEncode(buf)), Finished)
      case BlobBytes => BlobOutcome(buf)
  }

  predicate StartsWithError(s: string) {
    |s| >= 7 && s[..7] == "Error: "
  }

  /** Every operation that makes a call prints only the error line when the
      call fails, and prints no error line when it succeeds. */
  lemma ErrorBranch(r: Responder, utf8: seq<byte> -> Option<string>, op: CSOperation, pid: i32)
    requires op != MachOOffset
    ensures RouteOf(op).Some?
    ensures var rt := RouteOf(op).value; var result := r.result(pid, rt.opcode, SizeOf(rt));
      && (result < 0 ==> Dispatch(r, utf8, op, pid) == Outcome(ErrorLine(result, r.errorText(pid, rt.opcode, SizeOf(rt))), Finished))
      && (StartsWithError(Dispatch(r, utf8, op, pid).out) <==> result < 0)
  {
    AnswerErrorLine(r, utf8, RouteOf(op).value, pid);
  }

  /** Along any route, the output starts with `Error: ` exactly when the call
      failed. */
  lemma AnswerErrorLine(r: Responder, utf8: seq<byte> -> Option<string>, rt: Route, pid: i32)
    ensures var result := r.result(pid, rt.opcode, SizeOf(rt)); var o := Answer(r, utf8, rt, pid);
      StartsWithError(o.out) <==> result < 0
  {
    match rt {
      case WordRoute(opc, decoder) => WordErrorLine(r, pid, opc, decoder);
      case BufferRoute(opc, cap, decoder) => BufferErrorLine(r, utf8, pid, opc, cap, decoder);
    }
  }

  /** A successful word call prints nothing or a line starting with `PID`. */
  lemma WordErrorLine(r: Responder, pid: i32, opc: Opcode, decoder: WordDecoder)
    ensures StartsWithError(WordAnswer(r, pid, opc, decoder)) <==> r.result(pid, opc, 4) < 0
  {
    var o := WordAnswer(r, pid, opc, decoder);
    if r.result(pid, opc, 4) < 0 {
      assert o[..7] == "Error: ";
    } else {
      assert o == [] || o[0] == 'P';
    }
  }

  /** A successful buffer call prints nothing, a line starting with `PID`, or
      the digits of a blob. */
  lemma BufferErrorLine(r: Responder, utf8: seq<byte> -> Option<string>, pid: i32, opc: Opcode, cap: nat,
                        decoder: BufferDecoder)
    ensures StartsWithError(BufferAnswer(r, utf8, pid, opc, cap, decoder).out) <==> r.result(pid, opc, cap) < 0
  {
    var o := BufferAnswer(r, utf8, pid, opc, cap, decoder).out;
    if r.result(pid, opc, cap) < 0 {
      assert o[..7] == "Error: ";
    } else if decoder == BlobBytes && cap >= 8 {
      BlobPayload(Received(r, pid, opc, cap));
      assert o == [] || IsDigit(o[0]);
    } else {
      assert o == [] || o[0] == 'P';
    }
  }

  /** The six mutating operations print nothing when the call succeeds. */
  lemma MutatingSilent(r: Responder, utf8: seq<byte> -> Option<string>, op: CSOperation, pid: i32)
    requires Mutating(op)
    ensures var rt := RouteOf(op).value;
      r.result(pid, rt.opcode, 4) >= 0 ==> Dispatch(r, utf8, op, pid) == Outcome("", Finished)
  {
  }

  /** `MachOOffset` prints `Invalid operation` and makes no call, whatever
      the kernel would answer. */
  lemma MachOOffsetInvalid(r: Responder, utf8: seq<byte> -> Option<string>, pid: i32)
    ensures Dispatch(r, utf8, MachOOffset, pid) == Outcome("Invalid operation\n", Finished)
    ensures CallsOf(MachOOffset, pid) == []
  {
  }

  /** A successful status call prints the flag report of the word the kernel
      returned. */
  lemma StatusSuccess(r: Responder, utf8: seq<byte> -> Option<string>, pid: i32)
    requires r.result(pid, CS_OPS_STATUS, 4) >= 0
    ensures Dispatch(r, utf8, Status, pid) == Outcome(StatusReport("PID", pid, r.word(pid, CS_OPS_STATUS)), Finished)
  {
  }

  /** A successful CDHash call prints 40 lowercase hexadecimal digits, two per
      byte of the 20-byte digest, high nibble first, which decode back to
      the digest. */
  lemma CDHashSuccess(r: Responder, utf8: seq<byte> -> Option<string>, pid: i32)
    requires r.result(pid, CS_OPS_CDHASH, SHA1_DIGEST_LENGTH) >= 0
    ensures var buf := Received(r, pid, CS_OPS_CDHASH, SHA1_DIGEST_LENGTH); var h := HexEncode(buf);
      && |buf| == 20
      && Dispatch(r, utf8, CDHash, pid) == Outcome(FieldLine(pid, "CDHash", h), Finished)
      && |h| == 40
      && (forall k :: 0 <= k < |h| ==> IsLowerHex(h[k]))
      && (forall i :: 0 <= i < 20 ==> h[2 * i] == HexDigit(buf[i] / 16) && h[2 * i + 1] == HexDigit(buf[i] % 16))
      && HexDecode(h) == Some(buf)
  {
    HexRoundTrip(Received(r, pid, CS_OPS_CDHASH, SHA1_DIGEST_LENGTH));
  }

  /** A successful text call converts the whole buffer of its capacity: the
      reply's bytes followed by the zeros the kernel left alone, nothing cut
      at the first zero; it panics exactly when that is not UTF-8. */
  lemma TextWholeBuffer(r: Responder, utf8: seq<byte> -> Option<string>, op: CSOperation, pid: i32)
    requires op in {ExecutablePath, Entitlements, DEREntitlements, SigningID, TeamID}
    ensures RouteOf(op).Some? && RouteOf(op).value.BufferRoute? && RouteOf(op).value.bufferDecoder.Text?
    ensures var rt := RouteOf(op).value; var cap := rt.capacity; var reply := r.reply(pid, rt.opcode, cap);
      var buf := Received(r, pid, rt.opcode, cap);
      && |buf| == cap
      && (forall i :: 0 <= i < cap ==> buf[i] == if i < |reply| then reply[i] else 0)
      && (r.result(pid, rt.opcode, cap) >= 0 ==>
            Dispatch(r, utf8, op, pid) == TextOutcome(utf8, buf, pid, rt.bufferDecoder.field)
            && (Dispatch(r, utf8, op, pid).exit == Panicked <==> utf8(buf).None?))
  {
  }

  /** A successful blob call reads the header from the first eight bytes of
      the 1 MiB buffer and panics exactly when the length it reads exceeds
      the buffer. */
  lemma BlobSuccess(r: Responder, utf8: seq<byte> -> Option<string>, pid: i32)
    requires r.result(pid, CS_OPS_BLOB, CSOPS_MAX_BUFFER_SIZE) >= 0
    ensures var buf := Received(r, pid, CS_OPS_BLOB, CSOPS_MAX_BUFFER_SIZE); var len := ReadBlobHeader(buf).length;
      && Dispatch(r, utf8, Blob, pid) == BlobOutcome(buf)
      && (Dispatch(r, utf8, Blob, pid).exit == Panicked <==> len > CSOPS_MAX_BUFFER_SIZE)
  {
    BlobPayload(Received(r, pid, CS_OPS_BLOB, CSOPS_MAX_BUFFER_SIZE));
  }

  /** The text arm after a successful call. */
  method PrintText(utf8: seq<byte> -> Option<string>, buffer: array<byte>, pid: i32, field: string)
    returns (out: string, exit: Exit)
    ensures Outcome(out, exit) == TextOutcome(utf8, buffer[..], pid, field)
  {
    match utf8(buffer[..]) {
      case None =>
        out, exit := "", Panicked;
      case Some(s) =>
        out, exit := FieldLine(pid, field, s), Finished;
    }
  }

  /** The blob arm after a successful call. */
  method PrintBlob(buffer: array<byte>) returns (out: string, exit: Exit)
    ensures Outcome(out, exit) == BlobOutcome(buffer[..])
  {
    if buffer.Length < 8 {
      out, exit := "", Panicked;
      return;
    }
    var blob := BlobHeader(FromBeBytes(buffer[0..4]), FromBeBytes(buffer[4..8]));
    out, exit := PrintPayload(buffer, blob.length);
  }

  /** A word-sized call followed by its arm. */
  method RunWord(k: Kernel, pid: i32, opc: Opcode, decoder: WordDecoder) returns (out: string)
    modifies k
    ensures out == WordAnswer(k.respond, pid, opc, decoder)
    ensures k.calls == old(k.calls) + [Call(pid, opc, 4)]
    ensures k.lastError == k.respond.errorText(pid, opc, 4)
  {
    var result, status := k.ControlWord(pid, opc);
    if result < 0 {
      out := ErrorLine(result, k.lastError);
    } else {
      match decoder {
        case StatusFlags => out := DecodeStatus(pid, status);
        case Silent => out := "";
        case Category => out := FieldLine(pid, "Validation Category", NatToDecimal(status as int));
      }
    }
  }

  /** A call on a fresh zeroed buffer of `cap` bytes followed by its arm. */
  method RunBuffer(k: Kernel, utf8: seq<byte> -> Option<string>, pid: i32, opc: Opcode, cap: nat, decoder: BufferDecoder)
    returns (out: string, exit: Exit)
    modifies k
    ensures Outcome(out, exit) == BufferAnswer(k.respond, utf8, pid, opc, cap, decoder)
    ensures k.calls == old(k.calls) + [Call(pid, opc, cap)]
    ensures k.lastError == k.respond.errorText(pid, opc, cap)
  {
    var buffer := new byte[cap](_ => 0);
    assert buffer[..] == Zeros(cap);
    var result := Csops(k, pid, opc, buffer);
    if result < 0 {
      out, exit := ErrorLine(result, k.lastError), Finished;
      return;
    }
    match decoder {
      case Text(field) =>
        out, exit := PrintText(utf8, buffer, pid, field);
      case Hex =>
        out, exit := FieldLine(pid, "CDHash", HexEncode(buffer[..])), Finished;
      case BlobBytes =>
        out, exit := PrintBlob(buffer);
    }
  }

  /** `main` after argument parsing: one arm per operation. */
  method Run(k: Kernel, utf8: seq<byte> -> Option<string>, op: CSOperation, pid: i32) returns (out: string, exit: Exit)
    modifies k
    ensures Outcome(out, exit) == Dispatch(k.respond, utf8, op, pid)
    ensures k.calls == old(k.calls) + CallsOf(op, pid)
    ensures RouteOf(op).None? ==> k.lastError == old(k.lastError)
    ensures RouteOf(op).Some? ==>
      var rt := RouteOf(op).value;
      k.lastError == k.respond.errorText(pid, rt.opcode, SizeOf(rt))
  {
    exit := Finished;
    match op {
      case Status => out := RunWord(k, pid, CS_OPS_STATUS, StatusFlags);
      case MarkInvalid => out := RunWord(k, pid, CS_OPS_MARKINVALID, Silent);
      case MarkHard => out := RunWord(k, pid, CS_OPS_MARKHARD, Silent);
      case MarkKill => out := RunWord(k, pid, CS_OPS_MARKKILL, Silent);
      case ExecutablePath =>
        out, exit := RunBuffer(k, utf8, pid, CS_OPS_PIDPATH, PATH_SIZE, Text("Executable Path"));
      case CDHash =>
        out, exit := RunBuffer(k, utf8, pid, CS_OPS_CDHASH, SHA1_DIGEST_LENGTH, Hex);
      case Entitlements =>
        out, exit := RunBuffer(k, utf8, pid, CS_OPS_ENTITLEMENTS_BLOB, CSOPS_MAX_BUFFER_SIZE, Text("Entitlements"));
      case DEREntitlements =>
        out, exit := RunBuffer(k, utf8, pid, CS_OPS_DER_ENTITLEMENTS_BLOB, CSOPS_MAX_BUFFER_SIZE,
                               Text("Embedded Entitlements (DER)"));
      case Blob =>
        out, exit := RunBuffer(k, utf8, pid, CS_OPS_BLOB, CSOPS_MAX_BUFFER_SIZE, BlobBytes);
      case ClearPlatform => out := RunWord(k, pid, CS_OPS_CLEARPLATFORM, Silent);
      case ClearInstaller => out := RunWord(k, pid, CS_OPS_CLEARINSTALLER, Silent);
      case ClearLV => out := RunWord(k, pid, CS_OPS_CLEAR_LV, Silent);
      case SigningID =>
        out, exit := RunBuffer(k, utf8, pid, CS_OPS_IDENTITY, CSOPS_MAX_BUFFER_SIZE, Text("Code Signing ID"));
      case TeamID =>
        out, exit := RunBuffer(k, utf8, pid, CS_OPS_TEAMID, TEAMID_SIZE, Text("TeamID"));
      case ValidationCategory => out := RunWord(k, pid, CS_OPS_VALIDATION_CATEGORY, Category);
      case MachOOffset => out := "Invalid operation\n";
    }
  }
}
