/**
 The two build files generated next to the keys: Android.bp, declaring one
 certificate module per apex, and keys.mk, telling the build which
 certificate overrides each apex uses. Both are pure functions of the key
 lists; writing them to disk is not modelled.
 */
module BuildConfig {
  import opened Lines

  // The fixed text is assembled from short pieces, so that the verifier can
  // check character by character that none of it holds a newline.
  const DoNotEdit := "DO NOT EDIT" + " THIS FILE" + " MANUALLY"
  const BpHeader := "// " + DoNotEdit
  const MkHeader := "# " + DoNotEdit
  const OverrideSuffix := ".certificate" + ".override"
  const HardwareCertificate := "com.android" + ".hardware" + OverrideSuffix
  const CertificateOverrides := "PRODUCT_" + "CERTIFICATE" + "_OVERRIDES"
  const PrivateKeysDir := "vendor/" + "lineage-priv" + "/keys"
  const DefaultDevCertificate := "PRODUCT_DEFAULT" + "_DEV_CERTIFICATE" + " := " + PrivateKeysDir + "/releasekey"
  const ExtraRecoveryKeys := "PRODUCT_EXTRA" + "_RECOVERY_KEYS" + " += " + PrivateKeysDir + "/signed"

  predicate NoNewlines(keys: seq<string>) {
    forall i :: 0 <= i < |keys| ==> NoNewline(keys[i])
  }

  // ---------------------------------------------------------------- Android.bp

  /** The lines of the certificate module declared for one apex. */
  function CertificateBlock(apex: string): seq<string> {
    [ "android_app_certificate {",
      "    name: \"" + apex + OverrideSuffix + "\",",
      "    certificate: \"" + apex + OverrideSuffix + "\",",
      "}" ]
  }

  /** One block of text per apex, in list order. */
  function Blocks(apexKeys: seq<string>): (bs: seq<string>)
    ensures |bs| == |apexKeys|
    decreases |apexKeys|
  {
    if apexKeys == [] then [] else [Join("\n", CertificateBlock(apexKeys[0]))] + Blocks(apexKeys[1..])
  }

  /** The Android.bp text: the header, a blank line, the blocks separated by blank lines, a final newline. */
  function AndroidBp(apexKeys: seq<string>): string {
    BpHeader + "\n\n" + Join("\n\n", Blocks(apexKeys)) + "\n"
  }

  /** The lines of the blocks: each block's four lines, with an empty line between consecutive blocks. */
  function BlockLines(apexKeys: seq<string>): seq<string>
    decreases |apexKeys|
  {
    if |apexKeys| == 0 then [""]
    else if |apexKeys| == 1 then CertificateBlock(apexKeys[0])
    else CertificateBlock(apexKeys[0]) + [""] + BlockLines(apexKeys[1..])
  }

  lemma CertificateBlockLines(apex: string)
    requires NoNewline(apex)
    ensures SplitLines(Join("\n", CertificateBlock(apex))) == CertificateBlock(apex)
  {
    var b := CertificateBlock(apex);
    assert forall i :: 0 <= i < |b| ==> NoNewline(b[i]);
    JoinedLinesRoundTrip(b);
  }

  /** Blocks joined by a blank line split into the lines of each block with an empty line between them. */
  lemma {:induction false} SplitBlocks(apexKeys: seq<string>)
    requires NoNewlines(apexKeys)
    ensures SplitLines(Join("\n\n", Blocks(apexKeys))) == BlockLines(apexKeys)
    decreases |apexKeys|
  {
    var bs := Blocks(apexKeys);
    if |apexKeys| == 0 {
    } else if |apexKeys| == 1 {
      CertificateBlockLines(apexKeys[0]);
    } else {
      var rest := apexKeys[1..];
      assert bs[1..] == Blocks(rest);
      assert NoNewlines(rest) by {
        forall i | 0 <= i < |rest| ensures NoNewline(rest[i]) { assert rest[i] == apexKeys[i + 1]; }
      }
      SplitBlocks(rest);
      CertificateBlockLines(apexKeys[0]);
      BlankLineBetween(bs[0], Join("\n\n", Blocks(rest)));
    }
  }

  /** The Android.bp file, line by line: the header, an empty line, the blocks, and an empty last line. */
  lemma AndroidBpLines(apexKeys: seq<string>)
    requires NoNewlines(apexKeys)
    ensures SplitLines(AndroidBp(apexKeys)) == [BpHeader, ""] + BlockLines(apexKeys) + [""]
  {
    FramedLines(BpHeader, Join("\n\n", Blocks(apexKeys)));
    SplitBlocks(apexKeys);
  }

  /**
   Block `i` of the bp lines is the declaration for the i-th apex, and all
   blocks but the last are followed by an empty line.
   */
  lemma {:induction false} BlockLinesLayout(apexKeys: seq<string>)
    requires apexKeys != []
    ensures |BlockLines(apexKeys)| == 5 * |apexKeys| - 1
    ensures forall i :: 0 <= i < |apexKeys| ==>
      BlockLines(apexKeys)[5 * i .. 5 * i + 4] == CertificateBlock(apexKeys[i])
    ensures forall i :: 0 <= i < |apexKeys| - 1 ==> BlockLines(apexKeys)[5 * i + 4] == ""
    decreases |apexKeys|
  {
    if |apexKeys| > 1 {
      var rest := apexKeys[1..];
      BlockLinesLayout(rest);
      var ls := BlockLines(apexKeys);
      var tail := BlockLines(rest);
      assert ls == CertificateBlock(apexKeys[0]) + [""] + tail;
      forall i | 0 <= i < |apexKeys|
        ensures ls[5 * i .. 5 * i + 4] == CertificateBlock(apexKeys[i])
      {
        if i > 0 {
          assert ls[5 * i .. 5 * i + 4] == tail[5 * (i - 1) .. 5 * (i - 1) + 4];
          assert apexKeys[i] == rest[i - 1];
        }
      }
      forall i | 0 <= i < |apexKeys| - 1
        ensures ls[5 * i + 4] == ""
      {
        if i > 0 {
          assert ls[5 * i + 4] == tail[5 * (i - 1) + 4];
        }
      }
    }
  }

  /**
   The Android.bp file of a non-empty apex list: the header, an empty line,
   then for each apex in list order its four-line declaration, the
   declarations separated by one empty line, and an empty last line.
   */
  lemma AndroidBpLayout(apexKeys: seq<string>)
    requires apexKeys != [] && NoNewlines(apexKeys)
    ensures var ls := SplitLines(AndroidBp(apexKeys));
      && |ls| == 5 * |apexKeys| + 2
      && ls[0] == BpHeader && ls[1] == "" && ls[|ls| - 1] == ""
      && (forall i :: 0 <= i < |apexKeys| ==> ls[2 + 5 * i .. 6 + 5 * i] == CertificateBlock(apexKeys[i]))
      && (forall i :: 0 <= i < |apexKeys| - 1 ==> ls[6 + 5 * i] == "")
  {
    var ls := SplitLines(AndroidBp(apexKeys));
    var body := BlockLines(apexKeys);
    assert ls == [BpHeader, ""] + body + [""] by {
      AndroidBpLines(apexKeys);
    }
    BlockLinesLayout(apexKeys);
    FramedBlocks(ls, [BpHeader, ""], body, |apexKeys|);
  }

  /** With no apex, Android.bp is the header followed by three empty lines. */
  lemma AndroidBpEmpty()
    ensures SplitLines(AndroidBp([])) == [BpHeader, "", "", ""]
  {
    AndroidBpLines([]);
  }

  /** Blocks of five lines, framed by two lines before and one after, move two lines down. */
  lemma FramedBlocks(ls: seq<string>, head: seq<string>, body: seq<string>, n: nat)
    requires |head| == 2 && n > 0 && |body| == 5 * n - 1
    requires ls == head + body + [""]
    ensures forall i :: 0 <= i < n ==> ls[2 + 5 * i .. 6 + 5 * i] == body[5 * i .. 5 * i + 4]
    ensures forall i :: 0 <= i < n - 1 ==> ls[6 + 5 * i] == body[5 * i + 4]
  {
    forall i | 0 <= i < n
      ensures ls[2 + 5 * i .. 6 + 5 * i] == body[5 * i .. 5 * i + 4]
    {
      assert ls[2 + 5 * i .. 6 + 5 * i] == (head + body)[2 + 5 * i .. 6 + 5 * i];
    }
  }

  // ------------------------------------------------------------------ keys.mk

  /** Each line followed by a continuation backslash, except the last. */
  function Continued(items: seq<string>): (ls: seq<string>)
    ensures |ls| == |items|
  {
    seq(|items|, i requires 0 <= i < |items| => if i < |items| - 1 then items[i] + " \\" else items[i])
  }

  /** The override line of an apex with its own certificate. */
  function ApexOverride(key: string): string {
    "    " + key + ":" + key + OverrideSuffix
  }

  /** The override line of an apex signed with the shared hardware certificate. */
  function HardwareOverride(key: string): string {
    "    " + key + ":" + HardwareCertificate
  }

  /** The override line of an apex app key. */
  function AppOverride(key: string): string {
    "    " + key
  }

  function ApexOverrides(keys: seq<string>): (ls: seq<string>)
    ensures |ls| == |keys|
  {
    seq(|keys|, i requires 0 <= i < |keys| => ApexOverride(keys[i]))
  }

  function HardwareOverrides(keys: seq<string>): (ls: seq<string>)
    ensures |ls| == |keys|
  {
    seq(|keys|, i requires 0 <= i < |keys| => HardwareOverride(keys[i]))
  }

  function AppOverrides(keys: seq<string>): (ls: seq<string>)
    ensures |ls| == |keys|
  {
    seq(|keys|, i requires 0 <= i < |keys| => AppOverride(keys[i]))
  }

  /** One override assignment: its opening line, its list of lines, and a blank line. */
  function OverrideSection(opening: string, lines: seq<string>): seq<string> {
    [opening, Join("\n", Continued(lines)), ""]
  }

  /** The line opening an override assignment; the list follows on continuation lines. */
  function Assignment(operator: string): string {
    CertificateOverrides + " " + operator + " \\"
  }

  /** The sections of keys.mk, in order. */
  function MakefileSections(apexKeys: seq<string>, hardwareKeys: seq<string>, appKeys: seq<string>): seq<string> {
    [MkHeader, ""]
    + OverrideSection(Assignment(":="), ApexOverrides(apexKeys))
    + OverrideSection(Assignment("+="), HardwareOverrides(hardwareKeys))
    + OverrideSection(Assignment("+="), AppOverrides(appKeys))
    + [DefaultDevCertificate, ExtraRecoveryKeys, ""]
  }

  /** The keys.mk text: its sections joined by newlines. */
  function Makefile(apexKeys: seq<string>, hardwareKeys: seq<string>, appKeys: seq<string>): string {
    Join("\n", MakefileSections(apexKeys, hardwareKeys, appKeys))
  }

  /** The lines of a list section: the list's lines, or one empty line when the list is empty. */
  function ListLines(ls: seq<string>): seq<string> {
    if ls == [] then [""] else ls
  }

  /** The continuation mark of line `i` of a list of `n` lines. */
  function Mark(i: int, n: int): string {
    if i < n - 1 then " \\" else ""
  }

  /** The number of lines a list of `n` entries takes: one empty line stands for an empty list. */
  function Width(n: nat): nat {
    if n == 0 then 1 else n
  }

  /** Every line of a continued list but the last ends in a backslash; the last is unchanged. */
  lemma ContinuationMarks(items: seq<string>)
    ensures forall i :: 0 <= i < |items| ==> Continued(items)[i] == items[i] + Mark(i, |items|)
  {
  }

  lemma ContinuedKeepsNoNewline(items: seq<string>)
    requires NoNewlines(items)
    ensures NoNewlines(Continued(items))
  {
    forall i | 0 <= i < |items|
      ensures NoNewline(Continued(items)[i])
    {
      assert forall c :: c in Continued(items)[i] ==> c in items[i] || c == ' ' || c == '\\';
    }
  }

  /**
   The lines an override section stands for: its opening line, one line per
   list entry (a single empty line for an empty list), and an empty line.
   */
  function SectionLines(opening: string, lines: seq<string>): seq<string> {
    [opening] + ListLines(Continued(lines)) + [""]
  }

  /** The lines of an override section, when none of its lines holds a newline. */
  lemma OverrideSectionLines(opening: string, lines: seq<string>)
    requires NoNewline(opening) && NoNewlines(lines)
    ensures LinesOfEach(OverrideSection(opening, lines)) == SectionLines(opening, lines)
  {
    var s := OverrideSection(opening, lines);
    SingleLine(opening);
    SingleLine("");
    var c := Continued(lines);
    if c == [] {
      assert Join("\n", c) == "";
    } else {
      ContinuedKeepsNoNewline(lines);
      JoinedLinesRoundTrip(c);
    }
    assert s == [s[0]] + [s[1]] + [s[2]];
    LinesOfEachAppend([s[0]] + [s[1]], [s[2]]);
    LinesOfEachAppend([s[0]], [s[1]]);
  }

  lemma AssignmentsHaveNoNewline()
    ensures NoNewline(Assignment(":=")) && NoNewline(Assignment("+="))
  {
    FixedTextHasNoNewline();
  }

  lemma FixedLines()
    ensures LinesOfEach([MkHeader, ""]) == [MkHeader, ""]
    ensures LinesOfEach([DefaultDevCertificate, ExtraRecoveryKeys, ""]) == [DefaultDevCertificate, ExtraRecoveryKeys, ""]
  {
    FixedTextHasNoNewline();
    LinesOfSingleLines([MkHeader, ""]);
    LinesOfSingleLines([DefaultDevCertificate, ExtraRecoveryKeys, ""]);
  }

  lemma OverridesHaveNoNewline(apexKeys: seq<string>, hardwareKeys: seq<string>, appKeys: seq<string>)
    requires NoNewlines(apexKeys) && NoNewlines(hardwareKeys) && NoNewlines(appKeys)
    ensures NoNewlines(ApexOverrides(apexKeys))
    ensures NoNewlines(HardwareOverrides(hardwareKeys))
    ensures NoNewlines(AppOverrides(appKeys))
  {
    FixedTextHasNoNewline();
  }

  lemma FixedTextHasNoNewline()
    ensures NoNewline(BpHeader) && NoNewline(MkHeader)
    ensures NoNewline(OverrideSuffix) && NoNewline(HardwareCertificate) && NoNewline(CertificateOverrides)
    ensures NoNewline(DefaultDevCertificate) && NoNewline(ExtraRecoveryKeys)
  {
    HeadersHaveNoNewline();
    OverrideTextHasNoNewline();
    DefaultDevCertificateHasNoNewline();
    ExtraRecoveryKeysHasNoNewline();
  }

  lemma HeadersHaveNoNewline()
    ensures NoNewline(BpHeader) && NoNewline(MkHeader)
  {
  }

  lemma OverrideTextHasNoNewline()
    ensures NoNewline(OverrideSuffix) && NoNewline(HardwareCertificate) && NoNewline(CertificateOverrides)
  {
  }

  lemma DefaultDevCertificateHasNoNewline()
    ensures NoNewline(DefaultDevCertificate)
  {
  }

  lemma ExtraRecoveryKeysHasNoNewline()
    ensures NoNewline(ExtraRecoveryKeys)
  {
  }

  /**
   The keys.mk file, line by line: the header and a blank line; for each of
   the three lists an assignment line followed by one line per key, in list
   order (a single empty line for an empty list), then a blank line; and the
   two fixed settings and an empty last line.
   */
  lemma MakefileLines(apexKeys: seq<string>, hardwareKeys: seq<string>, appKeys: seq<string>)
    requires NoNewlines(apexKeys) && NoNewlines(hardwareKeys) && NoNewlines(appKeys)
    ensures SplitLines(Makefile(apexKeys, hardwareKeys, appKeys))
         == [MkHeader, ""]
          + SectionLines(Assignment(":="), ApexOverrides(apexKeys))
          + SectionLines(Assignment("+="), HardwareOverrides(hardwareKeys))
          + SectionLines(Assignment("+="), AppOverrides(appKeys))
          + [DefaultDevCertificate, ExtraRecoveryKeys, ""]
  {
    var head: seq<string> := [MkHeader, ""];
    var a := OverrideSection(Assignment(":="), ApexOverrides(apexKeys));
    var h := OverrideSection(Assignment("+="), HardwareOverrides(hardwareKeys));
    var p := OverrideSection(Assignment("+="), AppOverrides(appKeys));
    var foot: seq<string> := [DefaultDevCertificate, ExtraRecoveryKeys, ""];
    SplitJoin(MakefileSections(apexKeys, hardwareKeys, appKeys));
    LinesOfEachAppend(head + a + h + p, foot);
    LinesOfEachAppend(head + a + h, p);
    LinesOfEachAppend(head + a, h);
    LinesOfEachAppend(head, a);
    FixedLines();
    OverridesHaveNoNewline(apexKeys, hardwareKeys, appKeys);
    AssignmentsHaveNoNewline();
    OverrideSectionLines(Assignment(":="), ApexOverrides(apexKeys));
    OverrideSectionLines(Assignment("+="), HardwareOverrides(hardwareKeys));
    OverrideSectionLines(Assignment("+="), AppOverrides(appKeys));
  }

  /** Where the entries of a section sit once the section follows the lines `x`. */
  lemma SectionEntries(x: seq<string>, opening: string, items: seq<string>)
    ensures |x + SectionLines(opening, items)| == |x| + 2 + Width(|items|)
    ensures forall i :: 0 <= i < |items| ==>
      (x + SectionLines(opening, items))[|x| + 1 + i] == items[i] + Mark(i, |items|)
  {
    var s := SectionLines(opening, items);
    ContinuationMarks(items);
    forall i | 0 <= i < |items|
      ensures (x + s)[|x| + 1 + i] == items[i] + Mark(i, |items|)
    {
      assert (x + s)[|x| + 1 + i] == s[1 + i];
    }
  }

  /**
   Where the list entries sit in a file made of a two-line head, three
   sections and a three-line foot: entry `i` of a section is the i-th line
   after the section's opening line, with its continuation mark.
   */
  lemma SectionsLayout(ls: seq<string>, head: seq<string>, oa: string, a: seq<string>,
                       oh: string, h: seq<string>, op: string, p: seq<string>, foot: seq<string>)
    requires |head| == 2 && |foot| == 3
    requires ls == head + SectionLines(oa, a) + SectionLines(oh, h) + SectionLines(op, p) + foot
    ensures |ls| == 11 + Width(|a|) + Width(|h|) + Width(|p|)
    ensures forall i :: 0 <= i < |a| ==> ls[3 + i] == a[i] + Mark(i, |a|)
    ensures forall i :: 0 <= i < |h| ==> ls[5 + Width(|a|) + i] == h[i] + Mark(i, |h|)
    ensures forall i :: 0 <= i < |p| ==> ls[7 + Width(|a|) + Width(|h|) + i] == p[i] + Mark(i, |p|)
  {
    var l1 := head + SectionLines(oa, a);
    var l2 := l1 + SectionLines(oh, h);
    var l3 := l2 + SectionLines(op, p);
    SectionEntries(head, oa, a);
    SectionEntries(l1, oh, h);
    SectionEntries(l2, op, p);
    forall i | 0 <= i < |a| ensures ls[3 + i] == a[i] + Mark(i, |a|) {
      assert ls[3 + i] == l3[3 + i] == l2[3 + i] == l1[|head| + 1 + i];
    }
    forall i | 0 <= i < |h| ensures ls[5 + Width(|a|) + i] == h[i] + Mark(i, |h|) {
      assert ls[5 + Width(|a|) + i] == l3[5 + Width(|a|) + i] == l2[|l1| + 1 + i];
    }
    forall i | 0 <= i < |p| ensures ls[7 + Width(|a|) + Width(|h|) + i] == p[i] + Mark(i, |p|) {
      assert ls[7 + Width(|a|) + Width(|h|) + i] == l3[|l2| + 1 + i];
    }
  }

  /**
   In keys.mk, the entry for the i-th key of each list is the i-th line after
   that list's assignment line, and it ends with a continuation backslash
   exactly when another entry of the same list follows.
   */
  lemma MakefileLayout(apexKeys: seq<string>, hardwareKeys: seq<string>, appKeys: seq<string>)
    requires NoNewlines(apexKeys) && NoNewlines(hardwareKeys) && NoNewlines(appKeys)
    ensures |SplitLines(Makefile(apexKeys, hardwareKeys, appKeys))|
         == 11 + Width(|apexKeys|) + Width(|hardwareKeys|) + Width(|appKeys|)
    ensures forall i :: 0 <= i < |apexKeys| ==>
      SplitLines(Makefile(apexKeys, hardwareKeys, appKeys))[3 + i]
        == ApexOverride(apexKeys[i]) + Mark(i, |apexKeys|)
    ensures forall i :: 0 <= i < |hardwareKeys| ==>
      SplitLines(Makefile(apexKeys, hardwareKeys, appKeys))[5 + Width(|apexKeys|) + i]
        == HardwareOverride(hardwareKeys[i]) + Mark(i, |hardwareKeys|)
    ensures forall i :: 0 <= i < |appKeys| ==>
      SplitLines(Makefile(apexKeys, hardwareKeys, appKeys))[7 + Width(|apexKeys|) + Width(|hardwareKeys|) + i]
        == AppOverride(appKeys[i]) + Mark(i, |appKeys|)
  {
    var ls := SplitLines(Makefile(apexKeys, hardwareKeys, appKeys));
    var head: seq<string> := [MkHeader, ""];
    var foot: seq<string> := [DefaultDevCertificate, ExtraRecoveryKeys, ""];
    var assign, append := Assignment(":="), Assignment("+=");
    assert ls == head + SectionLines(assign, ApexOverrides(apexKeys))
               + SectionLines(append, HardwareOverrides(hardwareKeys))
               + SectionLines(append, AppOverrides(appKeys)) + foot by {
      MakefileLines(apexKeys, hardwareKeys, appKeys);
    }
    OverridesLayout(ls, head, assign, apexKeys, append, hardwareKeys, append, appKeys, foot);
  }

  /** The override entries of the three lists, at their lines in a file laid out as keys.mk is. */
  lemma OverridesLayout(ls: seq<string>, head: seq<string>, oa: string, apexKeys: seq<string>,
                        oh: string, hardwareKeys: seq<string>, op: string, appKeys: seq<string>,
                        foot: seq<string>)
    requires |head| == 2 && |foot| == 3
    requires ls == head + SectionLines(oa, ApexOverrides(apexKeys))
                + SectionLines(oh, HardwareOverrides(hardwareKeys))
                + SectionLines(op, AppOverrides(appKeys)) + foot
    ensures |ls| == 11 + Width(|apexKeys|) + Width(|hardwareKeys|) + Width(|appKeys|)
    ensures forall i :: 0 <= i < |apexKeys| ==> ls[3 + i] == ApexOverride(apexKeys[i]) + Mark(i, |apexKeys|)
    ensures forall i :: 0 <= i < |hardwareKeys| ==>
      ls[5 + Width(|apexKeys|) + i] == HardwareOverride(hardwareKeys[i]) + Mark(i, |hardwareKeys|)
    ensures forall i :: 0 <= i < |appKeys| ==>
      ls[7 + Width(|apexKeys|) + Width(|hardwareKeys|) + i] == AppOverride(appKeys[i]) + Mark(i, |appKeys|)
  {
    var ao, ho, po := ApexOverrides(apexKeys), HardwareOverrides(hardwareKeys), AppOverrides(appKeys);
    assert |ao| == |apexKeys| && |ho| == |hardwareKeys| && |po| == |appKeys|;
    SectionsLayout(ls, head, oa, ao, oh, ho, op, po, foot);
    ApexEntriesAt(ls, 3, ao, apexKeys);
    HardwareEntriesAt(ls, 5 + Width(|ao|), ho, hardwareKeys);
    AppEntriesAt(ls, 7 + Width(|ao|) + Width(|ho|), po, appKeys);
  }

  lemma ApexEntriesAt(ls: seq<string>, at: nat, lines: seq<string>, keys: seq<string>)
    requires lines == ApexOverrides(keys) && at + |lines| <= |ls|
    requires forall i :: 0 <= i < |lines| ==> ls[at + i] == lines[i] + Mark(i, |lines|)
    ensures forall i :: 0 <= i < |keys| ==> ls[at + i] == ApexOverride(keys[i]) + Mark(i, |keys|)
  {
  }

  lemma HardwareEntriesAt(ls: seq<string>, at: nat, lines: seq<string>, keys: seq<string>)
    requires lines == HardwareOverrides(keys) && at + |lines| <= |ls|
    requires forall i :: 0 <= i < |lines| ==> ls[at + i] == lines[i] + Mark(i, |lines|)
    ensures forall i :: 0 <= i < |keys| ==> ls[at + i] == HardwareOverride(keys[i]) + Mark(i, |keys|)
  {
  }

  lemma AppEntriesAt(ls: seq<string>, at: nat, lines: seq<string>, keys: seq<string>)
    requires lines == AppOverrides(keys) && at + |lines| <= |ls|
    requires forall i :: 0 <= i < |lines| ==> ls[at + i] == lines[i] + Mark(i, |lines|)
    ensures forall i :: 0 <= i < |keys| ==> ls[at + i] == AppOverride(keys[i]) + Mark(i, |keys|)
  {
  }
}
