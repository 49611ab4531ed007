/** The library crate: the unrolled status decoder and the wrapper around the
    kernel's code-signing control call. */
module CsopsLib {
  import opened Encoding
  import opened CodeSign
  import opened Bits
  import opened Flags

  /** `decode_status`: the header with a lowercase tag, one conditional print
      per flag in the fixed order, a newline. The printed text is the result. */
  method DecodeStatus(pid: i32, status: bv32) returns (out: string)
    ensures out == StatusReport("pid", pid, status)
  {
    out := "pid: " + IntToDecimal(pid) + " cs_flags: " + NatToDecimal(status as int);
    ghost var head := out;
    assert head == StatusHeader("pid", pid, status);
    out := PrintIfSet(out, status, CS_VALID, "CS_VALID");
    out := PrintIfSet(out, status, CS_ADHOC, "CS_ADHOC");
    out := PrintIfSet(out, status, CS_GET_TASK_ALLOW, "CS_GET_TASK_ALLOW");
    out := PrintIfSet(out, status, CS_INSTALLER, "CS_INSTALLER");
    out := PrintIfSet(out, status, CS_FORCED_LV, "CS_FORCED_LV");
    out := PrintIfSet(out, status, CS_INVALID_ALLOWED, "CS_INVALID_ALLOWED");
    out := PrintIfSet(out, status, CS_HARD, "CS_HARD");
    out := PrintIfSet(out, status, CS_KILL, "CS_KILL");
    out := PrintIfSet(out, status, CS_CHECK_EXPIRATION, "CS_CHECK_EXPIRATION");
    out := PrintIfSet(out, status, CS_RESTRICT, "CS_RESTRICT");
    out := PrintIfSet(out, status, CS_ENFORCEMENT, "CS_ENFORCEMENT");
    out := PrintIfSet(out, status, CS_REQUIRE_LV, "CS_REQUIRE_LV");
    out := PrintIfSet(out, status, CS_ENTITLEMENTS_VALIDATED, "CS_ENTITLEMENTS_VALIDATED");
    out := PrintIfSet(out, status, CS_NVRAM_UNRESTRICTED, "CS_NVRAM_UNRESTRICTED");
    out := PrintIfSet(out, status, CS_RUNTIME, "CS_RUNTIME");
    out := PrintIfSet(out, status, CS_LINKER_SIGNED, "CS_LINKER_SIGNED");
    out := PrintIfSet(out, status, CS_EXEC_SET_HARD, "CS_EXEC_SET_HARD");
    out := PrintIfSet(out, status, CS_EXEC_SET_KILL, "CS_EXEC_SET_KILL");
    out := PrintIfSet(out, status, CS_EXEC_SET_ENFORCEMENT, "CS_EXEC_SET_ENFORCEMENT");
    out := PrintIfSet(out, status, CS_EXEC_INHERIT_SIP, "CS_EXEC_INHERIT_SIP");
    out := PrintIfSet(out, status, CS_KILLED, "CS_KILLED");
    out := PrintIfSet(out, status, CS_NO_UNTRUSTED_HELPERS, "CS_NO_UNTRUSTED_HELPERS");
    out := PrintIfSet(out, status, CS_PLATFORM_BINARY, "CS_PLATFORM_BINARY");
    out := PrintIfSet(out, status, CS_PLATFORM_PATH, "CS_PLATFORM_PATH");
    out := PrintIfSet(out, status, CS_DEBUGGED, "CS_DEBUGGED");
    out := PrintIfSet(out, status, CS_SIGNED, "CS_SIGNED");
    out := PrintIfSet(out, status, CS_DEV_CODE, "CS_DEV_CODE");
    out := PrintIfSet(out, status, CS_DATAVAULT_CONTROLLER, "CS_DATAVAULT_CONTROLLER");
    out := out + "\n";
    StatusRenderUnrolled(head, status);
  }

  // ---------------------------------------------------------------------
  // The kernel's control call
  // ---------------------------------------------------------------------

  /** What the kernel does on a control call, as a function of the process,
      the opcode and the buffer size it is given: the value the call returns,
      the bytes it writes at the start of the buffer, the text the platform
      gives for the error code it leaves behind, and, for the word-sized
      form, the 32-bit word it reports. */
  datatype Responder = Responder(
    result: (i32, Opcode, nat) -> i32,
    reply: (i32, Opcode, nat) -> seq<byte>,
    errorText: (i32, Opcode, nat) -> string,
    word: (i32, Opcode) -> bv32)

  /** One control call as the kernel saw it. */
  datatype Call = Call(pid: i32, op: Opcode, size: nat)

  /** The contents of a buffer after the kernel wrote `data` into its first
      `size` bytes: the kernel writes no more than it was offered and no
      more than it has; the rest of the buffer keeps its contents. */
  function Written(before: seq<byte>, data: seq<byte>, size: nat): (after: seq<byte>)
    requires size <= |before|
    ensures |after| == |before|
    ensures forall i :: 0 <= i < |before| ==> after[i] == if i < size && i < |data| then data[i] else before[i]
  {
    var m := if |data| < size then |data| else size;
    data[..m] + before[m..]
  }

  /** The kernel behind the control call, with the calls it has received and
      the description of the last error code it set. */
  class Kernel {
    const respond: Responder
    var calls: seq<Call>
    var lastError: string

    constructor (respond: Responder)
      ensures this.respond == respond
      ensures calls == [] && lastError == ""
    {
      this.respond := respond;
      calls := [];
      lastError := "";
    }

    /** `codesign::csops(pid, op, buf, size)`: the kernel writes its reply
        into the first `size` bytes of the caller's buffer. */
    method Control(pid: i32, op: Opcode, buffer: array<byte>, size: nat) returns (result: i32)
      requires size <= buffer.Length
      modifies this, buffer
      ensures result == respond.result(pid, op, size)
      ensures buffer[..] == Written(old(buffer[..]), respond.reply(pid, op, size), size)
      ensures calls == old(calls) + [Call(pid, op, size)]
      ensures lastError == respond.errorText(pid, op, size)
    {
      var data := respond.reply(pid, op, size);
      var m := if |data| < size then |data| else size;
      forall i | 0 <= i < m {
        buffer[i] := data[i];
      }
      result := respond.result(pid, op, size);
      calls := calls + [Call(pid, op, size)];
      lastError := respond.errorText(pid, op, size);
    }

    /** `csops_int(pid, op)`: the same call on a single 32-bit word, returning
        the call's result and the word. */
    method ControlWord(pid: i32, op: Opcode) returns (result: i32, word: bv32)
      modifies this
      ensures result == respond.result(pid, op, 4)
      ensures word == respond.word(pid, op)
      ensures calls == old(calls) + [Call(pid, op, 4)]
      ensures lastError == respond.errorText(pid, op, 4)
    {
      result := respond.result(pid, op, 4);
      word := respond.word(pid, op);
      calls := calls + [Call(pid, op, 4)];
      lastError := respond.errorText(pid, op, 4);
    }
  }

  /** `csops(pid, op, buffer)`: offers the kernel the whole buffer and returns
      the kernel's result unchanged. */
  method Csops(k: Kernel, pid: i32, op: Opcode, buffer: array<byte>) returns (result: i32)
    modifies k, buffer
    ensures result == k.respond.result(pid, op, buffer.Length)
    ensures buffer[..] == Written(old(buffer[..]), k.respond.reply(pid, op, buffer.Length), buffer.Length)
    ensures k.calls == old(k.calls) + [Call(pid, op, buffer.Length)]
    ensures k.lastError == k.respond.errorText(pid, op, buffer.Length)
  {
    result := k.Control(pid, op, buffer, buffer.Length);
  }
}
