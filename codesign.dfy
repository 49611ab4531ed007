/** The constants the tool takes from the kernel's code-signing header through
    generated bindings. Their numeric values are not part of the repository,
    so each mask is an uninterpreted 32-bit value: everything proved about it
    holds whatever the header says. Only the values that the operation
    descriptions document are pinned. */
module CodeSign {

  const CS_VALID: bv32
  const CS_ADHOC: bv32
  const CS_GET_TASK_ALLOW: bv32
  const CS_INSTALLER: bv32 := 0x0000_0008
  const CS_FORCED_LV: bv32
  const CS_INVALID_ALLOWED: bv32
  const CS_HARD: bv32 := 0x0000_0100
  const CS_KILL: bv32 := 0x0000_0200
  const CS_CHECK_EXPIRATION: bv32
  const CS_RESTRICT: bv32
  const CS_ENFORCEMENT: bv32
  const CS_REQUIRE_LV: bv32 := 0x0000_2000
  const CS_ENTITLEMENTS_VALIDATED: bv32
  const CS_NVRAM_UNRESTRICTED: bv32
  const CS_RUNTIME: bv32
  const CS_LINKER_SIGNED: bv32
  const CS_EXEC_SET_HARD: bv32
  const CS_EXEC_SET_KILL: bv32
  const CS_EXEC_SET_ENFORCEMENT: bv32
  const CS_EXEC_INHERIT_SIP: bv32
  const CS_KILLED: bv32
  const CS_NO_UNTRUSTED_HELPERS: bv32
  const CS_PLATFORM_BINARY: bv32 := 0x0400_0000
  const CS_PLATFORM_PATH: bv32
  const CS_DEBUGGED: bv32
  const CS_SIGNED: bv32
  const CS_DEV_CODE: bv32
  const CS_DATAVAULT_CONTROLLER: bv32

  /** A `u32` constant from which one is subtracted at compile time, so it is
      at least 1 in any build that compiles. */
  type TeamIdLimit = n: int | 1 <= n < 0x1_0000_0000 witness 1

  const CS_MAX_TEAMID_LEN: TeamIdLimit

  /** The operation selectors of the control call. Their numbers are
      abstract; as constructors they are pairwise distinct. */
  datatype Opcode =
    | CS_OPS_STATUS
    | CS_OPS_MARKINVALID
    | CS_OPS_MARKHARD
    | CS_OPS_MARKKILL
    | CS_OPS_PIDPATH
    | CS_OPS_CDHASH
    | CS_OPS_ENTITLEMENTS_BLOB
    | CS_OPS_DER_ENTITLEMENTS_BLOB
    | CS_OPS_BLOB
    | CS_OPS_CLEARPLATFORM
    | CS_OPS_CLEARINSTALLER
    | CS_OPS_CLEAR_LV
    | CS_OPS_IDENTITY
    | CS_OPS_TEAMID
    | CS_OPS_VALIDATION_CATEGORY
}
