/** The code-signing status decoder, stated once over any ordered table of
    (mask, label) pairs, and the fixed table all three copies of the
    decoder use. */
module Flags {
  import opened Encoding
  import opened CodeSign
  import opened Bits

  /** A decode table: masks with their labels, in output order. */
  type Table = seq<(bv32, string)>

  /** Labels of the first `n` entries whose mask is contained in `status`,
      in table order. */
  function MatchedUpTo(t: Table, n: nat, status: bv32): seq<string>
    requires n <= |t|
  {
    if n == 0 then []
    else MatchedUpTo(t, n - 1, status) + (if FlagSet(status, t[n - 1].0) then [t[n - 1].1] else [])
  }

  function Matched(t: Table, status: bv32): seq<string> {
    MatchedUpTo(t, |t|, status)
  }

  /** Positions of the matching entries among the first `n`. */
  function HitsUpTo(t: Table, n: nat, status: bv32): seq<nat>
    requires n <= |t|
  {
    if n == 0 then []
    else HitsUpTo(t, n - 1, status) + (if FlagSet(status, t[n - 1].0) then [n - 1] else [])
  }

  /** OR of the masks of the matching entries among the first `n`. */
  function MatchedMaskUpTo(t: Table, n: nat, status: bv32): bv32
    requires n <= |t|
  {
    if n == 0 then 0
    else MatchedMaskUpTo(t, n - 1, status) | (if FlagSet(status, t[n - 1].0) then t[n - 1].0 else 0)
  }

  /** The text printed for the matched labels: `"; "`, the label, a space. */
  function Render(labels: seq<string>): string {
    if labels == [] then ""
    else Render(labels[..|labels| - 1]) + "; " + labels[|labels| - 1] + " "
  }

  /** The matched labels are the labels at an increasing sequence of
      positions, and a position is among them exactly when its mask is
      contained in `status`. */
  lemma {:induction false} MatchedUpToPositions(t: Table, n: nat, status: bv32)
    requires n <= |t|
    ensures var h := HitsUpTo(t, n, status); var m := MatchedUpTo(t, n, status);
      && |m| == |h|
      && (forall k :: 0 <= k < |h| ==> h[k] < n && m[k] == t[h[k]].1)
      && (forall k, l :: 0 <= k < l < |h| ==> h[k] < h[l])
      && (forall i :: 0 <= i < n ==> (i in h <==> FlagSet(status, t[i].0)))
  {
    if n > 0 {
      MatchedUpToPositions(t, n - 1, status);
      var h0, m0 := HitsUpTo(t, n - 1, status), MatchedUpTo(t, n - 1, status);
      assert Positions(t, n - 1, status, h0, m0);
      if FlagSet(status, t[n - 1].0) {
        assert HitsUpTo(t, n, status) == h0 + [n - 1];
        assert MatchedUpTo(t, n, status) == m0 + [t[n - 1].1];
        PositionsHit(t, n, status, h0, m0);
      } else {
        assert HitsUpTo(t, n, status) == h0 + [] == h0;
        assert MatchedUpTo(t, n, status) == m0 + [] == m0;
        PositionsMiss(t, n, status, h0, m0);
      }
    }
  }

  /** `h` lists, in increasing order, the positions among the first `n`
      whose mask is contained in `status`, and `m` their labels. */
  predicate Positions(t: Table, n: nat, status: bv32, h: seq<nat>, m: seq<string>)
    requires n <= |t|
  {
    && |m| == |h|
    && (forall k :: 0 <= k < |h| ==> h[k] < n && m[k] == t[h[k]].1)
    && (forall k, l :: 0 <= k < l < |h| ==> h[k] < h[l])
    && (forall i :: 0 <= i < n ==> (i in h <==> FlagSet(status, t[i].0)))
  }

  /** A matching entry extends both lists by itself. */
  lemma PositionsHit(t: Table, n: nat, status: bv32, h: seq<nat>, m: seq<string>)
    requires 0 < n <= |t| && Positions(t, n - 1, status, h, m) && FlagSet(status, t[n - 1].0)
    ensures Positions(t, n, status, h + [n - 1], m + [t[n - 1].1])
  {
  }

  /** A non-matching entry leaves both lists as they are. */
  lemma PositionsMiss(t: Table, n: nat, status: bv32, h: seq<nat>, m: seq<string>)
    requires 0 < n <= |t| && Positions(t, n - 1, status, h, m) && !FlagSet(status, t[n - 1].0)
    ensures Positions(t, n, status, h, m)
  {
  }

  /** Each label is emitted at most once, in table order, and exactly when
      its mask is contained in `status`. */
  lemma MatchedPositions(t: Table, status: bv32)
    ensures var h := HitsUpTo(t, |t|, status); var m := Matched(t, status);
      && |m| == |h|
      && (forall k :: 0 <= k < |h| ==> h[k] < |t| && m[k] == t[h[k]].1)
      && (forall k, l :: 0 <= k < l < |h| ==> h[k] < h[l])
      && (forall i :: 0 <= i < |t| ==> (i in h <==> FlagSet(status, t[i].0)))
  {
    MatchedUpToPositions(t, |t|, status);
  }

  /** No false positives: every bit of every reported mask is set in `status`. */
  lemma {:induction false} NoFalsePositiveUpTo(t: Table, n: nat, status: bv32)
    requires n <= |t|
    ensures FlagSet(status, MatchedMaskUpTo(t, n, status))
  {
    if n > 0 {
      NoFalsePositiveUpTo(t, n - 1, status);
      var prev := MatchedMaskUpTo(t, n - 1, status);
      if FlagSet(status, t[n - 1].0) {
        FlagSetUnion(status, prev, t[n - 1].0);
      } else {
        FlagSetOrZero(prev);
      }
    }
  }

  /** Each reported mask is part of the union of the reported masks. */
  lemma {:induction false} MatchedMaskCovers(t: Table, n: nat, status: bv32, i: nat)
    requires i < n <= |t| && FlagSet(status, t[i].0)
    ensures FlagSet(MatchedMaskUpTo(t, n, status), t[i].0)
  {
    var prev := MatchedMaskUpTo(t, n - 1, status);
    var extra := if FlagSet(status, t[n - 1].0) then t[n - 1].0 else 0;
    if i == n - 1 {
      FlagSetOwnMask(prev, extra);
    } else {
      MatchedMaskCovers(t, n - 1, status, i);
      FlagSetMoreBits(prev, t[i].0, extra);
    }
  }

  /** The union of the reported masks is contained in `status`, and contains
      each reported mask. */
  lemma MatchedMaskSound(t: Table, status: bv32)
    ensures FlagSet(status, MatchedMaskUpTo(t, |t|, status))
    ensures forall i :: 0 <= i < |t| && FlagSet(status, t[i].0) ==> FlagSet(MatchedMaskUpTo(t, |t|, status), t[i].0)
  {
    NoFalsePositiveUpTo(t, |t|, status);
    forall i | 0 <= i < |t| && FlagSet(status, t[i].0)
      ensures FlagSet(MatchedMaskUpTo(t, |t|, status), t[i].0)
    {
      MatchedMaskCovers(t, |t|, status, i);
    }
  }

  /** The text one table entry contributes: `"; "`, its label and a space
      when its mask is contained in `status`, nothing otherwise. */
  function Emit(status: bv32, flag: bv32, name: string): string {
    if FlagSet(status, flag) then "; " + name + " " else ""
  }

  /** One statement of the unrolled decoders: when every bit of `flag` is set
      in `status`, print `"; "`, the flag's name and a space. */
  method PrintIfSet(out: string, status: bv32, flag: bv32, name: string) returns (r: string)
    ensures r == out + Emit(status, flag, name)
  {
    r := out;
    if FlagSet(status, flag) {
      r := r + "; " + name + " ";
    }
  }

  /** One more table entry adds exactly its own contribution to the text. */
  lemma RenderUpToStep(t: Table, k: nat, status: bv32)
    requires k < |t|
    ensures Render(MatchedUpTo(t, k + 1, status)) == Render(MatchedUpTo(t, k, status)) + Emit(status, t[k].0, t[k].1)
  {
    var before := MatchedUpTo(t, k, status);
    if FlagSet(status, t[k].0) {
      assert (before + [t[k].1])[..|before|] == before;
    } else {
      assert before + [] == before;
    }
  }

  /** The same step after any text printed before the labels. */
  lemma PrintedRenderStep(p: string, t: Table, k: nat, status: bv32)
    requires k < |t|
    ensures p + Render(MatchedUpTo(t, k + 1, status)) == p + Render(MatchedUpTo(t, k, status)) + Emit(status, t[k].0, t[k].1)
  {
    RenderUpToStep(t, k, status);
  }

  /** Seven consecutive entries `e` of a table add their contributions in order. */
  lemma RenderSevenSteps(p: string, t: Table, j: nat, status: bv32, e: Table)
    requires j + 7 <= |t| && t[j..j + 7] == e
    ensures p + Render(MatchedUpTo(t, j + 7, status))
            == p + Render(MatchedUpTo(t, j, status))
               + Emit(status, e[0].0, e[0].1) + Emit(status, e[1].0, e[1].1)
               + Emit(status, e[2].0, e[2].1) + Emit(status, e[3].0, e[3].1)
               + Emit(status, e[4].0, e[4].1) + Emit(status, e[5].0, e[5].1)
               + Emit(status, e[6].0, e[6].1)
  {
    assert t[j] == e[0] && t[j + 1] == e[1] && t[j + 2] == e[2] && t[j + 3] == e[3];
    assert t[j + 4] == e[4] && t[j + 5] == e[5] && t[j + 6] == e[6];
    PrintedRenderStep(p, t, j, status);
    PrintedRenderStep(p, t, j + 1, status);
    PrintedRenderStep(p, t, j + 2, status);
    PrintedRenderStep(p, t, j + 3, status);
    PrintedRenderStep(p, t, j + 4, status);
    PrintedRenderStep(p, t, j + 5, status);
    PrintedRenderStep(p, t, j + 6, status);
  }

  /** Labels of different entries are different. */
  predicate DistinctLabels(t: Table) {
    forall i, j :: 0 <= i < j < |t| ==> t[i].1 != t[j].1
  }

  /** With distinct labels, a label is in the output exactly when its entry
      matches, and no label is reported twice. */
  lemma DistinctLabelsOnce(t: Table, status: bv32)
    requires DistinctLabels(t)
    ensures forall i :: 0 <= i < |t| ==> (t[i].1 in Matched(t, status) <==> FlagSet(status, t[i].0))
    ensures var m := Matched(t, status); forall k, l :: 0 <= k < l < |m| ==> m[k] != m[l]
  {
    MatchedPositions(t, status);
    var h := HitsUpTo(t, |t|, status);
    var m := Matched(t, status);
    forall i | 0 <= i < |t| && t[i].1 in m
      ensures FlagSet(status, t[i].0)
    {
      var k :| 0 <= k < |m| && m[k] == t[i].1;
      assert h[k] == i;
      assert h[k] in h;
    }
    forall i | 0 <= i < |t| && FlagSet(status, t[i].0)
      ensures t[i].1 in m
    {
      var k :| 0 <= k < |h| && h[k] == i;
      assert m[k] == t[i].1;
    }
  }

  /** The fixed table, in the order the tool prints it. */
  const StatusTable: Table :=
  [
    (CS_VALID, "CS_VALID"),
    (CS_ADHOC, "CS_ADHOC"),
    (CS_GET_TASK_ALLOW, "CS_GET_TASK_ALLOW"),
    (CS_INSTALLER, "CS_INSTALLER"),
    (CS_FORCED_LV, "CS_FORCED_LV"),
    (CS_INVALID_ALLOWED, "CS_INVALID_ALLOWED"),
    (CS_HARD, "CS_HARD")
  ] + [
    (CS_KILL, "CS_KILL"),
    (CS_CHECK_EXPIRATION, "CS_CHECK_EXPIRATION"),
    (CS_RESTRICT, "CS_RESTRICT"),
    (CS_ENFORCEMENT, "CS_ENFORCEMENT"),
    (CS_REQUIRE_LV, "CS_REQUIRE_LV"),
    (CS_ENTITLEMENTS_VALIDATED, "CS_ENTITLEMENTS_VALIDATED"),
    (CS_NVRAM_UNRESTRICTED, "CS_NVRAM_UNRESTRICTED")
  ] + [
    (CS_RUNTIME, "CS_RUNTIME"),
    (CS_LINKER_SIGNED, "CS_LINKER_SIGNED"),
    (CS_EXEC_SET_HARD, "CS_EXEC_SET_HARD"),
    (CS_EXEC_SET_KILL, "CS_EXEC_SET_KILL"),
    (CS_EXEC_SET_ENFORCEMENT, "CS_EXEC_SET_ENFORCEMENT"),
    (CS_EXEC_INHERIT_SIP, "CS_EXEC_INHERIT_SIP"),
    (CS_KILLED, "CS_KILLED")
  ] + [
    (CS_NO_UNTRUSTED_HELPERS, "CS_NO_UNTRUSTED_HELPERS"),
    (CS_PLATFORM_BINARY, "CS_PLATFORM_BINARY"),
    (CS_PLATFORM_PATH, "CS_PLATFORM_PATH"),
    (CS_DEBUGGED, "CS_DEBUGGED"),
    (CS_SIGNED, "CS_SIGNED"),
    (CS_DEV_CODE, "CS_DEV_CODE"),
    (CS_DATAVAULT_CONTROLLER, "CS_DATAVAULT_CONTROLLER")
  ]

  /** The whole status line: `<tag>: <pid> cs_flags: <status>`, the matched
      labels, a newline. The table-driven copy prints the tag `PID`, the
      unrolled copies `pid`. */
  function StatusReport(tag: string, pid: i32, status: bv32): string {
    StatusHeader(tag, pid, status) + Render(Matched(StatusTable, status)) + "\n"
  }

  /** `<tag>: <pid> cs_flags: <status>`, before any label. */
  function StatusHeader(tag: string, pid: i32, status: bv32): string {
    tag + ": " + IntToDecimal(pid) + " cs_flags: " + NatToDecimal(status as int)
  }

  /** The report under any tag is the tag followed by the untagged report:
      the tag changes nothing after itself. */
  lemma StatusReportTag(tag: string, pid: i32, status: bv32)
    ensures StatusReport(tag, pid, status) == tag + StatusReport("", pid, status)
  {
    TagSplit(tag, IntToDecimal(pid), NatToDecimal(status as int), Render(Matched(StatusTable, status)));
  }

  /** The report's pieces regrouped after the tag. */
  lemma TagSplit(tag: string, a: string, b: string, c: string)
    ensures tag + ": " + a + " cs_flags: " + b + c + "\n" == tag + ("" + ": " + a + " cs_flags: " + b + c + "\n")
  {
  }

  /** The labels of the fixed table, in order. */
  const StatusLabels: seq<string> :=
    ["CS_VALID", "CS_ADHOC", "CS_GET_TASK_ALLOW", "CS_INSTALLER", "CS_FORCED_LV", "CS_INVALID_ALLOWED", "CS_HARD"]
    + ["CS_KILL", "CS_CHECK_EXPIRATION", "CS_RESTRICT", "CS_ENFORCEMENT", "CS_REQUIRE_LV", "CS_ENTITLEMENTS_VALIDATED", "CS_NVRAM_UNRESTRICTED"]
    + ["CS_RUNTIME", "CS_LINKER_SIGNED", "CS_EXEC_SET_HARD", "CS_EXEC_SET_KILL", "CS_EXEC_SET_ENFORCEMENT", "CS_EXEC_INHERIT_SIP", "CS_KILLED"]
    + ["CS_NO_UNTRUSTED_HELPERS", "CS_PLATFORM_BINARY", "CS_PLATFORM_PATH", "CS_DEBUGGED", "CS_SIGNED", "CS_DEV_CODE", "CS_DATAVAULT_CONTROLLER"]

  /** The table carries 28 distinct labels, CS_VALID first and
      CS_DATAVAULT_CONTROLLER last. */
  lemma StatusTableShape()
    ensures |StatusTable| == 28
    ensures forall i :: 0 <= i < 28 ==> StatusTable[i].1 == StatusLabels[i]
    ensures StatusTable[0].1 == "CS_VALID" && StatusTable[27].1 == "CS_DATAVAULT_CONTROLLER"
    ensures DistinctLabels(StatusTable)
  {
    StatusLabelsOfTable();
    StatusLabelsDistinct();
  }

  /** The labels column of the table is the label list. */
  lemma StatusLabelsOfTable()
    ensures |StatusTable| == 28
    ensures forall i :: 0 <= i < 28 ==> StatusTable[i].1 == StatusLabels[i]
  {
  }

  /** No label is listed twice. */
  lemma StatusLabelsDistinct()
    ensures forall i, j :: 0 <= i < j < |StatusLabels| ==> StatusLabels[i] != StatusLabels[j]
  {
  }

  /** For the fixed table: CS_VALID, when present, is printed first, and
      CS_DATAVAULT_CONTROLLER, when present, last. */
  lemma StatusOrderEnds(status: bv32)
    ensures var m := Matched(StatusTable, status);
      && (FlagSet(status, CS_VALID) ==> |m| > 0 && m[0] == "CS_VALID")
      && (FlagSet(status, CS_DATAVAULT_CONTROLLER) ==> |m| > 0 && m[|m| - 1] == "CS_DATAVAULT_CONTROLLER")
  {
    var t := StatusTable;
    assert |t| == 28 && t[0] == (CS_VALID, "CS_VALID") && t[27] == (CS_DATAVAULT_CONTROLLER, "CS_DATAVAULT_CONTROLLER");
    FirstEntryFirst(t, status);
    LastEntryLast(t, status);
  }

  /** A matching first entry is the first label printed. */
  lemma FirstEntryFirst(t: Table, status: bv32)
    requires |t| > 0
    ensures var m := Matched(t, status);
      FlagSet(status, t[0].0) ==> |m| > 0 && m[0] == t[0].1
  {
    MatchedPositions(t, status);
    var h := HitsUpTo(t, |t|, status);
    if FlagSet(status, t[0].0) {
      assert 0 in h;
      var k :| 0 <= k < |h| && h[k] == 0;
      assert forall l :: 0 <= l < |h| ==> h[0] <= h[l];
    }
  }

  /** A matching last entry is the last label printed. */
  lemma LastEntryLast(t: Table, status: bv32)
    requires |t| > 0
    ensures var m := Matched(t, status);
      FlagSet(status, t[|t| - 1].0) ==> |m| > 0 && m[|m| - 1] == t[|t| - 1].1
  {
    MatchedPositions(t, status);
    var h := HitsUpTo(t, |t|, status);
    var last := |t| - 1;
    if FlagSet(status, t[last].0) {
      assert last in h;
      var k :| 0 <= k < |h| && h[k] == last;
      assert forall l :: 0 <= l < |h| ==> h[l] <= h[|h| - 1];
    }
  }

  /** The first seven entries of the status table, in any table that
      holds them at positions 0 to 6. */
  lemma RenderFirstSeven(p: string, t: Table, status: bv32)
    requires |t| >= 7
    requires t[0..7] == [(CS_VALID, "CS_VALID"),
                       (CS_ADHOC, "CS_ADHOC"),
                       (CS_GET_TASK_ALLOW, "CS_GET_TASK_ALLOW"),
                       (CS_INSTALLER, "CS_INSTALLER"),
                       (CS_FORCED_LV, "CS_FORCED_LV"),
                       (CS_INVALID_ALLOWED, "CS_INVALID_ALLOWED"),
                       (CS_HARD, "CS_HARD")]
    ensures p + Render(MatchedUpTo(t, 7, status))
            == p
               + Emit(status, CS_VALID, "CS_VALID") + Emit(status, CS_ADHOC, "CS_ADHOC")
               + Emit(status, CS_GET_TASK_ALLOW, "CS_GET_TASK_ALLOW") + Emit(status, CS_INSTALLER, "CS_INSTALLER")
               + Emit(status, CS_FORCED_LV, "CS_FORCED_LV") + Emit(status, CS_INVALID_ALLOWED, "CS_INVALID_ALLOWED")
               + Emit(status, CS_HARD, "CS_HARD")
  {
    RenderSevenSteps(p, t, 0, status, [(CS_VALID, "CS_VALID"),
                                          (CS_ADHOC, "CS_ADHOC"),
                                          (CS_GET_TASK_ALLOW, "CS_GET_TASK_ALLOW"),
                                          (CS_INSTALLER, "CS_INSTALLER"),
                                          (CS_FORCED_LV, "CS_FORCED_LV"),
                                          (CS_INVALID_ALLOWED, "CS_INVALID_ALLOWED"),
                                          (CS_HARD, "CS_HARD")]);
    assert p + Render(MatchedUpTo(t, 0, status)) == p;
  }

  /** The second seven entries of the status table, in any table that
      holds them at positions 7 to 13. */
  lemma RenderSecondSeven(p: string, t: Table, status: bv32)
    requires |t| >= 14
    requires t[7..14] == [(CS_KILL, "CS_KILL"),
                        (CS_CHECK_EXPIRATION, "CS_CHECK_EXPIRATION"),
                        (CS_RESTRICT, "CS_RESTRICT"),
                        (CS_ENFORCEMENT, "CS_ENFORCEMENT"),
                        (CS_REQUIRE_LV, "CS_REQUIRE_LV"),
                        (CS_ENTITLEMENTS_VALIDATED, "CS_ENTITLEMENTS_VALIDATED"),
                        (CS_NVRAM_UNRESTRICTED, "CS_NVRAM_UNRESTRICTED")]
    ensures p + Render(MatchedUpTo(t, 14, status))
            == p + Render(MatchedUpTo(t, 7, status))
               + Emit(status, CS_KILL, "CS_KILL") + Emit(status, CS_CHECK_EXPIRATION, "CS_CHECK_EXPIRATION")
               + Emit(status, CS_RESTRICT, "CS_RESTRICT") + Emit(status, CS_ENFORCEMENT, "CS_ENFORCEMENT")
               + Emit(status, CS_REQUIRE_LV, "CS_REQUIRE_LV") + Emit(status, CS_ENTITLEMENTS_VALIDATED, "CS_ENTITLEMENTS_VALIDATED")
               + Emit(status, CS_NVRAM_UNRESTRICTED, "CS_NVRAM_UNRESTRICTED")
  {
    RenderSevenSteps(p, t, 7, status, [(CS_KILL, "CS_KILL"),
                                          (CS_CHECK_EXPIRATION, "CS_CHECK_EXPIRATION"),
                                          (CS_RESTRICT, "CS_RESTRICT"),
                                          (CS_ENFORCEMENT, "CS_ENFORCEMENT"),
                                          (CS_REQUIRE_LV, "CS_REQUIRE_LV"),
                                          (CS_ENTITLEMENTS_VALIDATED, "CS_ENTITLEMENTS_VALIDATED"),
                                          (CS_NVRAM_UNRESTRICTED, "CS_NVRAM_UNRESTRICTED")]);
  }

  /** The third seven entries of the status table, in any table that
      holds them at positions 14 to 20. */
  lemma RenderThirdSeven(p: string, t: Table, status: bv32)
    requires |t| >= 21
    requires t[14..21] == [(CS_RUNTIME, "CS_RUNTIME"),
                        (CS_LINKER_SIGNED, "CS_LINKER_SIGNED"),
                        (CS_EXEC_SET_HARD, "CS_EXEC_SET_HARD"),
                        (CS_EXEC_SET_KILL, "CS_EXEC_SET_KILL"),
                        (CS_EXEC_SET_ENFORCEMENT, "CS_EXEC_SET_ENFORCEMENT"),
                        (CS_EXEC_INHERIT_SIP, "CS_EXEC_INHERIT_SIP"),
                        (CS_KILLED, "CS_KILLED")]
    ensures p + Render(MatchedUpTo(t, 21, status))
            == p + Render(MatchedUpTo(t, 14, status))
               + Emit(status, CS_RUNTIME, "CS_RUNTIME") + Emit(status, CS_LINKER_SIGNED, "CS_LINKER_SIGNED")
               + Emit(status, CS_EXEC_SET_HARD, "CS_EXEC_SET_HARD") + Emit(status, CS_EXEC_SET_KILL, "CS_EXEC_SET_KILL")
               + Emit(status, CS_EXEC_SET_ENFORCEMENT, "CS_EXEC_SET_ENFORCEMENT") + Emit(status, CS_EXEC_INHERIT_SIP, "CS_EXEC_INHERIT_SIP")
               + Emit(status, CS_KILLED, "CS_KILLED")
  {
    RenderSevenSteps(p, t, 14, status, [(CS_RUNTIME, "CS_RUNTIME"),
                                           (CS_LINKER_SIGNED, "CS_LINKER_SIGNED"),
                                           (CS_EXEC_SET_HARD, "CS_EXEC_SET_HARD"),
                                           (CS_EXEC_SET_KILL, "CS_EXEC_SET_KILL"),
                                           (CS_EXEC_SET_ENFORCEMENT, "CS_EXEC_SET_ENFORCEMENT"),
                                           (CS_EXEC_INHERIT_SIP, "CS_EXEC_INHERIT_SIP"),
                                           (CS_KILLED, "CS_KILLED")]);
  }

  /** The fourth seven entries of the status table, in any table that
      holds them at positions 21 to 27. */
  lemma RenderFourthSeven(p: string, t: Table, status: bv32)
    requires |t| >= 28
    requires t[21..28] == [(CS_NO_UNTRUSTED_HELPERS, "CS_NO_UNTRUSTED_HELPERS"),
                        (CS_PLATFORM_BINARY, "CS_PLATFORM_BINARY"),
                        (CS_PLATFORM_PATH, "CS_PLATFORM_PATH"),
                        (CS_DEBUGGED, "CS_DEBUGGED"),
                        (CS_SIGNED, "CS_SIGNED"),
                        (CS_DEV_CODE, "CS_DEV_CODE"),
                        (CS_DATAVAULT_CONTROLLER, "CS_DATAVAULT_CONTROLLER")]
    ensures p + Render(MatchedUpTo(t, 28, status))
            == p + Render(MatchedUpTo(t, 21, status))
               + Emit(status, CS_NO_UNTRUSTED_HELPERS, "CS_NO_UNTRUSTED_HELPERS") + Emit(status, CS_PLATFORM_BINARY, "CS_PLATFORM_BINARY")
               + Emit(status, CS_PLATFORM_PATH, "CS_PLATFORM_PATH") + Emit(status, CS_DEBUGGED, "CS_DEBUGGED")
               + Emit(status, CS_SIGNED, "CS_SIGNED") + Emit(status, CS_DEV_CODE, "CS_DEV_CODE")
               + Emit(status, CS_DATAVAULT_CONTROLLER, "CS_DATAVAULT_CONTROLLER")
  {
    RenderSevenSteps(p, t, 21, status, [(CS_NO_UNTRUSTED_HELPERS, "CS_NO_UNTRUSTED_HELPERS"),
                                           (CS_PLATFORM_BINARY, "CS_PLATFORM_BINARY"),
                                           (CS_PLATFORM_PATH, "CS_PLATFORM_PATH"),
                                           (CS_DEBUGGED, "CS_DEBUGGED"),
                                           (CS_SIGNED, "CS_SIGNED"),
                                           (CS_DEV_CODE, "CS_DEV_CODE"),
                                           (CS_DATAVAULT_CONTROLLER, "CS_DATAVAULT_CONTROLLER")]);
  }

  /** A table that holds the status entries in the source's order renders as
      the 28 contributions written out one after another. */
  lemma RenderTwentyEight(p: string, t: Table, status: bv32)
    requires |t| == 28
    requires t[0..7] == [(CS_VALID, "CS_VALID"),
                        (CS_ADHOC, "CS_ADHOC"),
                        (CS_GET_TASK_ALLOW, "CS_GET_TASK_ALLOW"),
                        (CS_INSTALLER, "CS_INSTALLER"),
                        (CS_FORCED_LV, "CS_FORCED_LV"),
                        (CS_INVALID_ALLOWED, "CS_INVALID_ALLOWED"),
                        (CS_HARD, "CS_HARD")]
    requires t[7..14] == [(CS_KILL, "CS_KILL"),
                         (CS_CHECK_EXPIRATION, "CS_CHECK_EXPIRATION"),
                         (CS_RESTRICT, "CS_RESTRICT"),
                         (CS_ENFORCEMENT, "CS_ENFORCEMENT"),
                         (CS_REQUIRE_LV, "CS_REQUIRE_LV"),
                         (CS_ENTITLEMENTS_VALIDATED, "CS_ENTITLEMENTS_VALIDATED"),
                         (CS_NVRAM_UNRESTRICTED, "CS_NVRAM_UNRESTRICTED")]
    requires t[14..21] == [(CS_RUNTIME, "CS_RUNTIME"),
                         (CS_LINKER_SIGNED, "CS_LINKER_SIGNED"),
                         (CS_EXEC_SET_HARD, "CS_EXEC_SET_HARD"),
                         (CS_EXEC_SET_KILL, "CS_EXEC_SET_KILL"),
                         (CS_EXEC_SET_ENFORCEMENT, "CS_EXEC_SET_ENFORCEMENT"),
                         (CS_EXEC_INHERIT_SIP, "CS_EXEC_INHERIT_SIP"),
                         (CS_KILLED, "CS_KILLED")]
    requires t[21..28] == [(CS_NO_UNTRUSTED_HELPERS, "CS_NO_UNTRUSTED_HELPERS"),
                         (CS_PLATFORM_BINARY, "CS_PLATFORM_BINARY"),
                         (CS_PLATFORM_PATH, "CS_PLATFORM_PATH"),
                         (CS_DEBUGGED, "CS_DEBUGGED"),
                         (CS_SIGNED, "CS_SIGNED"),
                         (CS_DEV_CODE, "CS_DEV_CODE"),
                         (CS_DATAVAULT_CONTROLLER, "CS_DATAVAULT_CONTROLLER")]
    ensures p + Render(Matched(t, status))
            == p + Emit(status, CS_VALID, "CS_VALID") + Emit(status, CS_ADHOC, "CS_ADHOC")
               + Emit(status, CS_GET_TASK_ALLOW, "CS_GET_TASK_ALLOW") + Emit(status, CS_INSTALLER, "CS_INSTALLER")
               + Emit(status, CS_FORCED_LV, "CS_FORCED_LV") + Emit(status, CS_INVALID_ALLOWED, "CS_INVALID_ALLOWED")
               + Emit(status, CS_HARD, "CS_HARD") + Emit(status, CS_KILL, "CS_KILL")
               + Emit(status, CS_CHECK_EXPIRATION, "CS_CHECK_EXPIRATION") + Emit(status, CS_RESTRICT, "CS_RESTRICT")
               + Emit(status, CS_ENFORCEMENT, "CS_ENFORCEMENT") + Emit(status, CS_REQUIRE_LV, "CS_REQUIRE_LV")
               + Emit(status, CS_ENTITLEMENTS_VALIDATED, "CS_ENTITLEMENTS_VALIDATED") + Emit(status, CS_NVRAM_UNRESTRICTED, "CS_NVRAM_UNRESTRICTED")
               + Emit(status, CS_RUNTIME, "CS_RUNTIME") + Emit(status, CS_LINKER_SIGNED, "CS_LINKER_SIGNED")
               + Emit(status, CS_EXEC_SET_HARD, "CS_EXEC_SET_HARD") + Emit(status, CS_EXEC_SET_KILL, "CS_EXEC_SET_KILL")
               + Emit(status, CS_EXEC_SET_ENFORCEMENT, "CS_EXEC_SET_ENFORCEMENT") + Emit(status, CS_EXEC_INHERIT_SIP, "CS_EXEC_INHERIT_SIP")
               + Emit(status, CS_KILLED, "CS_KILLED") + Emit(status, CS_NO_UNTRUSTED_HELPERS, "CS_NO_UNTRUSTED_HELPERS")
               + Emit(status, CS_PLATFORM_BINARY, "CS_PLATFORM_BINARY") + Emit(status, CS_PLATFORM_PATH, "CS_PLATFORM_PATH")
               + Emit(status, CS_DEBUGGED, "CS_DEBUGGED") + Emit(status, CS_SIGNED, "CS_SIGNED")
               + Emit(status, CS_DEV_CODE, "CS_DEV_CODE") + Emit(status, CS_DATAVAULT_CONTROLLER, "CS_DATAVAULT_CONTROLLER")
  {
    RenderFirstSeven(p, t, status);
    RenderSecondSeven(p, t, status);
    RenderThirdSeven(p, t, status);
    RenderFourthSeven(p, t, status);
  }

  /** For the fixed table, the text printed after any prefix is the 28
      contributions written out one after another, in table order. */
  lemma StatusRenderUnrolled(p: string, status: bv32)
    ensures p + Render(Matched(StatusTable, status))
            == p + Emit(status, CS_VALID, "CS_VALID") + Emit(status, CS_ADHOC, "CS_ADHOC")
               + Emit(status, CS_GET_TASK_ALLOW, "CS_GET_TASK_ALLOW") + Emit(status, CS_INSTALLER, "CS_INSTALLER")
               + Emit(status, CS_FORCED_LV, "CS_FORCED_LV") + Emit(status, CS_INVALID_ALLOWED, "CS_INVALID_ALLOWED")
               + Emit(status, CS_HARD, "CS_HARD") + Emit(status, CS_KILL, "CS_KILL")
               + Emit(status, CS_CHECK_EXPIRATION, "CS_CHECK_EXPIRATION") + Emit(status, CS_RESTRICT, "CS_RESTRICT")
               + Emit(status, CS_ENFORCEMENT, "CS_ENFORCEMENT") + Emit(status, CS_REQUIRE_LV, "CS_REQUIRE_LV")
               + Emit(status, CS_ENTITLEMENTS_VALIDATED, "CS_ENTITLEMENTS_VALIDATED") + Emit(status, CS_NVRAM_UNRESTRICTED, "CS_NVRAM_UNRESTRICTED")
               + Emit(status, CS_RUNTIME, "CS_RUNTIME") + Emit(status, CS_LINKER_SIGNED, "CS_LINKER_SIGNED")
               + Emit(status, CS_EXEC_SET_HARD, "CS_EXEC_SET_HARD") + Emit(status, CS_EXEC_SET_KILL, "CS_EXEC_SET_KILL")
               + Emit(status, CS_EXEC_SET_ENFORCEMENT, "CS_EXEC_SET_ENFORCEMENT") + Emit(status, CS_EXEC_INHERIT_SIP, "CS_EXEC_INHERIT_SIP")
               + Emit(status, CS_KILLED, "CS_KILLED") + Emit(status, CS_NO_UNTRUSTED_HELPERS, "CS_NO_UNTRUSTED_HELPERS")
               + Emit(status, CS_PLATFORM_BINARY, "CS_PLATFORM_BINARY") + Emit(status, CS_PLATFORM_PATH, "CS_PLATFORM_PATH")
               + Emit(status, CS_DEBUGGED, "CS_DEBUGGED") + Emit(status, CS_SIGNED, "CS_SIGNED")
               + Emit(status, CS_DEV_CODE, "CS_DEV_CODE") + Emit(status, CS_DATAVAULT_CONTROLLER, "CS_DATAVAULT_CONTROLLER")
  {
    RenderTwentyEight(p, StatusTable, status);
  }
}
