/** The third copy of the unrolled status decoder, in the binary's source
    directory. No module declaration compiles it into the binary, and it
    names `flag_set` and `codesign` without importing them; the model gives
    it the shared mask test and constants. */
module CsopsUtil {
  import opened Encoding
  import opened CodeSign
  import opened Bits
  import opened Flags

  /** `decode_status`: the header with a lowercase tag, one conditional print
      per flag in the fixed order, a newline. The printed text is the result. */
  method DecodeStatus(pid: i32, status: bv32) returns (out: string)
    ensures out == StatusReport("pid", pid, status)
  {
    out := "pid: " + IntToDecimal(pid) + " cs_flags: " + NatToDecimal(status as int);
    ghost var head := out;
    assert head == StatusHeader("pid", pid, status);
    out := PrintIfSet(out, status, CS_VALID, "CS_VALID");
    out := PrintIfSet(out, status, CS_ADHOC, "CS_ADHOC");
    out := PrintIfSet(out, status, CS_GET_TASK_ALLOW, "CS_GET_TASK_ALLOW");
    out := PrintIfSet(out, status, CS_INSTALLER, "CS_INSTALLER");
    out := PrintIfSet(out, status, CS_FORCED_LV, "CS_FORCED_LV");
    out := PrintIfSet(out, status, CS_INVALID_ALLOWED, "CS_INVALID_ALLOWED");
    out := PrintIfSet(out, status, CS_HARD, "CS_HARD");
    out := PrintIfSet(out, status, CS_KILL, "CS_KILL");
    out := PrintIfSet(out, status, CS_CHECK_EXPIRATION, "CS_CHECK_EXPIRATION");
    out := PrintIfSet(out, status, CS_RESTRICT, "CS_RESTRICT");
    out := PrintIfSet(out, status, CS_ENFORCEMENT, "CS_ENFORCEMENT");
    out := PrintIfSet(out, status, CS_REQUIRE_LV, "CS_REQUIRE_LV");
    out := PrintIfSet(out, status, CS_ENTITLEMENTS_VALIDATED, "CS_ENTITLEMENTS_VALIDATED");
    out := PrintIfSet(out, status, CS_NVRAM_UNRESTRICTED, "CS_NVRAM_UNRESTRICTED");
    out := PrintIfSet(out, status, CS_RUNTIME, "CS_RUNTIME");
    out := PrintIfSet(out, status, CS_LINKER_SIGNED, "CS_LINKER_SIGNED");
    out := PrintIfSet(out, status, CS_EXEC_SET_HARD, "CS_EXEC_SET_HARD");
    out := PrintIfSet(out, status, CS_EXEC_SET_KILL, "CS_EXEC_SET_KILL");
    out := PrintIfSet(out, status, CS_EXEC_SET_ENFORCEMENT, "CS_EXEC_SET_ENFORCEMENT");
    out := PrintIfSet(out, status, CS_EXEC_INHERIT_SIP, "CS_EXEC_INHERIT_SIP");
    out := PrintIfSet(out, status, CS_KILLED, "CS_KILLED");
    out := PrintIfSet(out, status, CS_NO_UNTRUSTED_HELPERS, "CS_NO_UNTRUSTED_HELPERS");
    out := PrintIfSet(out, status, CS_PLATFORM_BINARY, "CS_PLATFORM_BINARY");
    out := PrintIfSet(out, status, CS_PLATFORM_PATH, "CS_PLATFORM_PATH");
    out := PrintIfSet(out, status, CS_DEBUGGED, "CS_DEBUGGED");
    out := PrintIfSet(out, status, CS_SIGNED, "CS_SIGNED");
    out := PrintIfSet(out, status, CS_DEV_CODE, "CS_DEV_CODE");
    out := PrintIfSet(out, status, CS_DATAVAULT_CONTROLLER, "CS_DATAVAULT_CONTROLLER");
    out := out + "\n";
    StatusRenderUnrolled(head, status);
  }
}
