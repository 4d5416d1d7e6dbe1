/**
 * `execute_shell_command` of the shell namespace (nerve/tools/namespaces/shell.py)
 * after the subprocess has run: the raw output is stdout, then an
 * `EXIT CODE` line for a non-zero return code, then an `ERROR` line with
 * stderr; it is returned as stripped text when it decodes as UTF-8 and as
 * the raw bytes otherwise.
 */
module Shell {
  import opened Wrappers
  import opened Strings

  newtype byte = x: int | 0 <= x < 256

  predicate IsAscii(s: string) {
    forall k :: 0 <= k < |s| ==> s[k] as int < 128
  }

  /** `str.encode("utf-8")` on ASCII text: one byte per character. */
  function Encode(s: string): (b: seq<byte>)
    requires IsAscii(s)
    ensures |b| == |s| && forall k :: 0 <= k < |s| ==> b[k] as int == s[k] as int
  {
    seq(|s|, k requires 0 <= k < |s| => s[k] as int as byte)
  }

  /** A rendered integer is ASCII and holds no newline. */
  lemma IntToStringAscii(i: int)
    ensures IsAscii(IntToString(i)) && '\n' !in IntToString(i)
  {
    var r := IntToString(i);
    if i >= 0 {
      assert r == NatToString(i);
    }
    assert forall k :: 0 <= k < |r| ==> r[k] == '-' || IsDigit(r[k]);
  }

  /** What `subprocess.run(..., capture_output=True)` hands back. */
  datatype CompletedProcess = CompletedProcess(stdout: Option<seq<byte>>, returnCode: int, stderr: Option<seq<byte>>)

  /** `b"\nEXIT CODE: "` */
  const ExitCodeLabel: seq<byte> := [0x0A, 0x45, 0x58, 0x49, 0x54, 0x20, 0x43, 0x4F, 0x44, 0x45, 0x3A, 0x20]
  /** `b"\nERROR: "` */
  const ErrorLabel: seq<byte> := [0x0A, 0x45, 0x52, 0x52, 0x4F, 0x52, 0x3A, 0x20]

  /** The label constants are the encodings of the texts the source writes. */
  lemma LabelsAreEncodedText()
    ensures ExitCodeLabel == Encode("\nEXIT CODE: ")
    ensures ErrorLabel == Encode("\nERROR: ")
  {
  }

  /** `result.stdout or b""`. */
  function StdoutBytes(r: CompletedProcess): seq<byte> {
    if r.stdout.Some? then r.stdout.value else []
  }

  /** The bytes after the label of the `EXIT CODE` line. */
  function ReturnCodeBytes(rc: int): (b: seq<byte>)
    ensures forall k :: 0 <= k < |b| ==> b[k] != 10
  {
    IntToStringAscii(rc);
    Encode(IntToString(rc))
  }

  /** The `EXIT CODE` line, present for a non-zero return code only. */
  function ExitCodePart(r: CompletedProcess): seq<byte> {
    if r.returnCode != 0 then ExitCodeLabel + ReturnCodeBytes(r.returnCode) else []
  }

  /** The `ERROR` line, present when stderr is non-empty. */
  function ErrorPart(r: CompletedProcess): seq<byte> {
    if r.stderr.Some? && r.stderr.value != [] then ErrorLabel + r.stderr.value else []
  }

  /** The raw output: stdout, then the exit code line, then the error line. */
  function RawOutput(r: CompletedProcess): (raw: seq<byte>)
    ensures |StdoutBytes(r)| <= |raw| && raw[..|StdoutBytes(r)|] == StdoutBytes(r)
    ensures r.returnCode == 0 && (r.stderr.None? || r.stderr.value == []) ==> raw == StdoutBytes(r)
    ensures |raw| == |StdoutBytes(r)| + |ExitCodePart(r)| + |ErrorPart(r)|
  {
    StdoutBytes(r) + ExitCodePart(r) + ErrorPart(r)
  }

  /** Lines 23-29 of `execute_shell_command`: the `raw_output +=` steps. */
  method AssembleOutput(r: CompletedProcess) returns (raw: seq<byte>)
    ensures raw == RawOutput(r)
  {
    raw := if r.stdout.Some? then r.stdout.value else [];
    if r.returnCode != 0 {
      raw := raw + (ExitCodeLabel + ReturnCodeBytes(r.returnCode));
    }
    if r.stderr.Some? && r.stderr.value != [] {
      raw := raw + (ErrorLabel + r.stderr.value);
    }
  }

  /**
   * The layout of the raw output: it starts with stdout; a zero return code
   * with empty stderr gives stdout alone; the exit code line comes right
   * after stdout and the error line closes the output.
   */
  lemma RawOutputLayout(r: CompletedProcess)
    ensures var raw := RawOutput(r); var n := |StdoutBytes(r)|;
      && raw[..n] == StdoutBytes(r)
      && (r.returnCode == 0 && (r.stderr.None? || r.stderr.value == []) ==> raw == StdoutBytes(r))
      && (r.returnCode != 0 ==> raw[n..n + |ExitCodeLabel|] == ExitCodeLabel)
      && (r.stderr.Some? && r.stderr.value != [] ==>
            raw[|raw| - |r.stderr.value| - |ErrorLabel|..] == ErrorLabel + r.stderr.value)
  {
    var raw := RawOutput(r);
    var n := |StdoutBytes(r)|;
    assert raw == StdoutBytes(r) + (ExitCodePart(r) + ErrorPart(r));
    if r.returnCode != 0 {
      assert raw[n..] == ExitCodePart(r) + ErrorPart(r);
    }
  }

  lemma NatToStringInjective(m: nat, n: nat)
    requires NatToString(m) == NatToString(n)
    ensures m == n
  {
    NatToStringRoundTrip(m);
    NatToStringRoundTrip(n);
  }

  lemma IntToStringInjective(a: int, b: int)
    requires IntToString(a) == IntToString(b)
    ensures a == b
  {
    var r := IntToString(a);
    if a < 0 {
      assert r[0] == '-' && b < 0;
      assert ("-" + NatToString(-a))[1..] == NatToString(-a);
      assert ("-" + NatToString(-b))[1..] == NatToString(-b);
      NatToStringInjective(-a, -b);
    } else {
      assert r[0] != '-' && b >= 0;
      NatToStringInjective(a, b);
    }
  }

  /** Equal ASCII encodings come from equal strings. */
  lemma EncodeInjective(s: string, t: string)
    requires IsAscii(s) && IsAscii(t) && Encode(s) == Encode(t)
    ensures s == t
  {
    assert |s| == |t|;
    forall k | 0 <= k < |s| ensures s[k] == t[k] {
      assert Encode(s)[k] == Encode(t)[k];
    }
  }

  /** Two tails after equal stdouts agree on the error line once they agree on the exit code line. */
  lemma ErrorPartInjective(r1: CompletedProcess, r2: CompletedProcess)
    requires ErrorPart(r1) == ErrorPart(r2)
    ensures (r1.stderr.Some? && r1.stderr.value != []) <==> (r2.stderr.Some? && r2.stderr.value != [])
    ensures r1.stderr.Some? && r1.stderr.value != [] ==> r1.stderr.value == r2.stderr.value
  {
    var l := ErrorLabel;
    if r1.stderr.Some? && r1.stderr.value != [] && r2.stderr.Some? && r2.stderr.value != [] {
      assert r1.stderr.value == ErrorPart(r1)[|l|..];
      assert r2.stderr.value == ErrorPart(r2)[|l|..];
    }
  }

  /**
   * The raw output is unambiguous once stdout is known: it tells whether the
   * return code was non-zero, which non-zero code it was, and what stderr
   * held.
   */
  lemma RawOutputDecodable(r1: CompletedProcess, r2: CompletedProcess)
    requires StdoutBytes(r1) == StdoutBytes(r2)
    requires RawOutput(r1) == RawOutput(r2)
    ensures (r1.returnCode != 0) <==> (r2.returnCode != 0)
    ensures r1.returnCode != 0 ==> r1.returnCode == r2.returnCode
    ensures (r1.stderr.Some? && r1.stderr.value != []) <==> (r2.stderr.Some? && r2.stderr.value != [])
    ensures r1.stderr.Some? && r1.stderr.value != [] ==> r1.stderr.value == r2.stderr.value
  {
    TailAfterStdout(r1);
    TailAfterStdout(r2);
    TailDecodable(r1, r2);
    ErrorPartInjective(r1, r2);
  }

  lemma TailAfterStdout(r: CompletedProcess)
    ensures RawOutput(r)[|StdoutBytes(r)|..] == ExitCodePart(r) + ErrorPart(r)
  {
    var s, e, t := StdoutBytes(r), ExitCodePart(r), ErrorPart(r);
    assert s + e + t == s + (e + t);
  }

  /**
   * The part after stdout determines the exit code line and the error line:
   * the labels differ in their third byte, and a rendered code holds no
   * newline, so the code ends where the error line begins.
   */
  lemma TailDecodable(r1: CompletedProcess, r2: CompletedProcess)
    requires ExitCodePart(r1) + ErrorPart(r1) == ExitCodePart(r2) + ErrorPart(r2)
    ensures (r1.returnCode != 0) <==> (r2.returnCode != 0)
    ensures r1.returnCode != 0 ==> r1.returnCode == r2.returnCode
    ensures ErrorPart(r1) == ErrorPart(r2)
  {
    var tail := ExitCodePart(r1) + ErrorPart(r1);
    ThirdByte(r1);
    ThirdByte(r2);
    if r1.returnCode != 0 && r2.returnCode != 0 {
      var lx := ExitCodeLabel;
      var d1, d2 := ReturnCodeBytes(r1.returnCode), ReturnCodeBytes(r2.returnCode);
      var t1, t2 := ErrorPart(r1), ErrorPart(r2);
      assert tail == lx + (d1 + t1);
      assert ExitCodePart(r2) + ErrorPart(r2) == lx + (d2 + t2);
      assert tail[|lx|..] == d1 + t1;
      assert tail[|lx|..] == d2 + t2;
      SameDigitsBeforeNewline(d1, t1, d2, t2);
      IntToStringAscii(r1.returnCode);
      IntToStringAscii(r2.returnCode);
      EncodeInjective(IntToString(r1.returnCode), IntToString(r2.returnCode));
      IntToStringInjective(r1.returnCode, r2.returnCode);
    } else if r1.returnCode == 0 && r2.returnCode == 0 {
      assert ExitCodePart(r1) + ErrorPart(r1) == ErrorPart(r1);
      assert ExitCodePart(r2) + ErrorPart(r2) == ErrorPart(r2);
    }
  }

  /** The third byte after stdout is `X` for an exit code line and `R` for an error line. */
  lemma ThirdByte(r: CompletedProcess)
    ensures var tail := ExitCodePart(r) + ErrorPart(r);
      && (r.returnCode != 0 ==> |tail| > 2 && tail[2] == 0x58)
      && (r.returnCode == 0 && ErrorPart(r) != [] ==> |tail| > 2 && tail[2] == 0x52)
      && (r.returnCode == 0 && ErrorPart(r) == [] ==> tail == [])
  {
  }

  /**
   * Splitting `d + t` where `d` holds no newline and `t` is empty or starts
   * with one: the split point is unique.
   */
  lemma SameDigitsBeforeNewline(d1: seq<byte>, t1: seq<byte>, d2: seq<byte>, t2: seq<byte>)
    requires forall k :: 0 <= k < |d1| ==> d1[k] != 10
    requires forall k :: 0 <= k < |d2| ==> d2[k] != 10
    requires t1 != [] ==> t1[0] == 10
    requires t2 != [] ==> t2[0] == 10
    requires d1 + t1 == d2 + t2
    ensures d1 == d2 && t1 == t2
  {
    var s := d1 + t1;
    assert forall k :: 0 <= k < |d1| ==> s[k] == d1[k];
    assert forall k :: 0 <= k < |d2| ==> s[k] == d2[k];
    assert |d1| < |s| ==> s[|d1|] == t1[0];
    assert |d2| < |s| ==> s[|d2|] == t2[0];
    FirstNewlineUnique(s, |d1|, |d2|);
    assert d1 == s[..|d1|];
    assert d2 == s[..|d2|];
  }

  /** Two positions that both end a newline-free prefix at a newline or the end coincide. */
  lemma FirstNewlineUnique(s: seq<byte>, i: nat, j: nat)
    requires i <= |s| && j <= |s|
    requires forall k :: 0 <= k < i ==> s[k] != 10
    requires forall k :: 0 <= k < j ==> s[k] != 10
    requires i < |s| ==> s[i] == 10
    requires j < |s| ==> s[j] == 10
    ensures i == j
  {
  }

  // ---------------------------------------------------------------------------
  // Decoding

  /** What the tool returns: decoded text or the raw bytes. */
  datatype ShellOutput = TextOutput(text: string) | BytesOutput(raw: seq<byte>)

  /**
   * `_maybe_text`: the UTF-8 decoding, when it succeeds, stripped; the bytes
   * themselves when decoding fails. The decoder is a parameter: `None` means
   * `UnicodeDecodeError`.
   */
  function MaybeText(output: seq<byte>, decodeUtf8: seq<byte> -> Option<string>): (r: ShellOutput)
    ensures r.TextOutput? <==> decodeUtf8(output).Some?
    ensures r.BytesOutput? ==> r.raw == output
    ensures r.TextOutput? ==> r.text == PyStrip(decodeUtf8(output).value)
  {
    match decodeUtf8(output)
    case Some(text) => TextOutput(PyStrip(text))
    case None => BytesOutput(output)
  }

  /** Decoded output never begins or ends with whitespace. */
  lemma MaybeTextIsStripped(output: seq<byte>, decodeUtf8: seq<byte> -> Option<string>)
    requires decodeUtf8(output).Some?
    ensures var t := MaybeText(output, decodeUtf8).text;
      t != [] ==> !IsPySpace(t[0]) && !IsPySpace(t[|t| - 1])
  {
    TrimWithFacts(decodeUtf8(output).value, PyWhitespace);
  }

  /** `execute_shell_command` from the completed process on. */
  method ExecuteShellCommand(r: CompletedProcess, decodeUtf8: seq<byte> -> Option<string>) returns (out: ShellOutput)
    ensures out == MaybeText(RawOutput(r), decodeUtf8)
  {
    var raw := AssembleOutput(r);
    out := MaybeText(raw, decodeUtf8);
  }
}
