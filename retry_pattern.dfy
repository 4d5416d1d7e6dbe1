/**
 * The retry-after pattern of the Groq adapter,
 * `(?m)^.+try again in (.+)\. Visit.*`, as a function on the message text.
 *
 * `.` does not match a newline and `^` matches at the start of every line, so
 * a match lies within one line. The first line holding a match gives the
 * answer; within it both `.+` are greedy, so the regex engine takes the
 * LAST "try again in " that is followed (after at least one character) by a
 * ". Visit", and then the LAST ". Visit" after it.
 */
module RetryPattern {
  import opened Wrappers
  import opened Strings

  const Lead := "try again in "
  const Tail := ". Visit"

  /**
   * `line` matches the pattern with the prefix `.+` ending at `i` (where the
   * lead text starts) and the capture ending at `j` (where the tail starts).
   */
  ghost predicate MatchAt(line: string, i: nat, j: nat) {
    && 1 <= i
    && i + |Lead| < j
    && OccursAt(line, Lead, i)
    && OccursAt(line, Tail, j)
  }

  /** The largest position in `[lo, hi]` where `sub` occurs in `s`. */
  function LastOccurrence(s: string, sub: string, lo: nat, hi: int): (r: Option<nat>)
    ensures r.Some? ==> lo <= r.value <= hi && OccursAt(s, sub, r.value)
    ensures r.Some? ==> forall i: nat :: r.value < i <= hi ==> !OccursAt(s, sub, i)
    ensures r.None? ==> forall i: nat :: lo <= i <= hi ==> !OccursAt(s, sub, i)
    decreases hi - lo
  {
    if hi < lo then None
    else if OccursAt(s, sub, hi as nat) then Some(hi as nat)
    else LastOccurrence(s, sub, lo, hi - 1)
  }

  /**
   * Where the leftmost-first, greedy match of one line lies: the largest
   * prefix end `i`, and for it the largest capture end `j`.
   */
  function LineMatch(line: string): (r: Option<(nat, nat)>)
    ensures r.Some? ==> MatchAt(line, r.value.0, r.value.1)
    ensures r.Some? ==> forall i: nat, j: nat :: MatchAt(line, i, j) ==>
      i < r.value.0 || (i == r.value.0 && j <= r.value.1)
    ensures r.None? ==> forall i: nat, j: nat :: !MatchAt(line, i, j)
  {
    var tail := LastOccurrence(line, Tail, 0, |line| - |Tail|);
    if tail.None? then
      assert forall i: nat, j: nat :: MatchAt(line, i, j) ==> j <= |line| - |Tail|;
      None
    else
      var j := tail.value;
      var lead := LastOccurrence(line, Lead, 1, j - |Lead| - 1);
      if lead.None? then None
      else
        assert forall i: nat, j': nat :: MatchAt(line, i, j') ==> j' <= |line| - |Tail|;
        Some((lead.value, j))
  }

  /** The capture group of the match in one line, if the line matches. */
  function LineCapture(line: string): (r: Option<string>)
    ensures r.Some? <==> exists i: nat, j: nat :: MatchAt(line, i, j)
    ensures r.Some? ==> exists i: nat, j: nat :: MatchAt(line, i, j) && r.value == line[i + |Lead|..j]
  {
    var m := LineMatch(line);
    if m.None? then None
    else
      var (i, j) := m.value;
      assert MatchAt(line, i, j);
      Some(line[i + |Lead|..j])
  }

  /** The index of the first line that matches. */
  function FirstMatchingLine(lines: seq<string>): (r: Option<nat>)
    ensures r.Some? ==> r.value < |lines| && LineCapture(lines[r.value]).Some?
    ensures r.Some? ==> forall k :: 0 <= k < r.value ==> LineCapture(lines[k]).None?
    ensures r.None? ==> forall k :: 0 <= k < |lines| ==> LineCapture(lines[k]).None?
    decreases |lines|
  {
    if lines == [] then None
    else if LineCapture(lines[0]).Some? then Some(0)
    else
      var rest := FirstMatchingLine(lines[1..]);
      if rest.None? then None else Some(rest.value + 1)
  }

  /** `RETRY_TIME_PARSER.captures(message)` followed by taking group 1. */
  function RetryAfter(message: string): (r: Option<string>)
    ensures r.Some? ==> r.value != [] && '\n' !in r.value
  {
    var lines := Split(message, '\n');
    var k := FirstMatchingLine(lines);
    if k.None? then None else LineCapture(lines[k.value])
  }

  /** A match splits its line into prefix, lead, capture, tail and rest. */
  lemma MatchDecomposes(line: string, i: nat, j: nat)
    requires MatchAt(line, i, j)
    ensures line == line[..i] + Lead + line[i + |Lead|..j] + Tail + line[j + |Tail|..]
  {
    assert line[i..i + |Lead|] == Lead;
    assert line[j..j + |Tail|] == Tail;
    assert line == line[..i] + line[i..i + |Lead|] + line[i + |Lead|..j] + line[j..j + |Tail|] + line[j + |Tail|..];
  }

  /** The capture of a matching line sits between a non-empty prefix plus the lead and the tail. */
  lemma CaptureDecomposes(line: string)
    requires LineCapture(line).Some?
    ensures exists pre, post :: line == pre + Lead + LineCapture(line).value + Tail + post && |pre| >= 1
  {
    var c := LineCapture(line).value;
    var i: nat, j: nat :| MatchAt(line, i, j) && c == line[i + |Lead|..j];
    MatchDecomposes(line, i, j);
    var pre, post := line[..i], line[j + |Tail|..];
    assert line == pre + Lead + c + Tail + post && |pre| >= 1;
  }

  /** The answer is the capture of some line of the message. */
  lemma RetryAfterFromLine(message: string)
    requires RetryAfter(message).Some?
    ensures exists line :: line in Split(message, '\n') && LineCapture(line) == RetryAfter(message)
  {
    var lines := Split(message, '\n');
    var k := FirstMatchingLine(lines).value;
    assert lines[k] in lines;
  }

  /**
   * Soundness: a capture comes from a line of the message that reads
   * `<prefix>try again in <capture>. Visit<rest>` with a non-empty prefix.
   */
  lemma RetryAfterSound(message: string)
    requires RetryAfter(message).Some?
    ensures exists line, pre, post ::
      && line in Split(message, '\n')
      && line == pre + Lead + RetryAfter(message).value + Tail + post
      && |pre| >= 1
  {
    RetryAfterFromLine(message);
    var line :| line in Split(message, '\n') && LineCapture(line) == RetryAfter(message);
    CaptureDecomposes(line);
  }

  /** The parts of a line written as prefix, lead, capture, tail and rest. */
  lemma StandardParts(line: string, pre: string, c: string, post: string)
    requires line == pre + Lead + c + Tail + post
    requires |pre| >= 1 && |c| >= 1
    ensures MatchAt(line, |pre|, |pre| + |Lead| + |c|)
    ensures line[|pre| + |Lead|..|pre| + |Lead| + |c|] == c
  {
    var i, j := |pre|, |pre| + |Lead| + |c|;
    assert line == pre + (Lead + (c + (Tail + post)));
    assert line[i..i + |Lead|] == Lead;
    assert line[i + |Lead|..j] == c;
    assert line[j..j + |Tail|] == Tail;
  }

  /** Completeness: a message with such a line always yields a capture. */
  lemma RetryAfterComplete(message: string, pre: string, c: string, post: string)
    requires pre + Lead + c + Tail + post in Split(message, '\n')
    requires |pre| >= 1 && |c| >= 1
    ensures RetryAfter(message).Some?
  {
    var line := pre + Lead + c + Tail + post;
    var lines := Split(message, '\n');
    var k :| 0 <= k < |lines| && lines[k] == line;
    StandardParts(line, pre, c, post);
    assert LineCapture(lines[k]).Some?;
  }

  /**
   * Greediness: in the chosen line, no match has a longer prefix, and no
   * match with the same prefix has a longer capture.
   */
  lemma RetryAfterGreedy(line: string, i: nat, j: nat)
    requires LineMatch(line).Some?
    requires MatchAt(line, i, j)
    ensures var (i0, j0) := LineMatch(line).value;
      i <= i0 && (i == i0 ==> |line[i + |Lead|..j]| <= |line[i0 + |Lead|..j0]|)
  {
  }

  /** `sub` does not occur in `line` at any position after `p`. */
  ghost predicate NoOccurrenceAfter(line: string, sub: string, p: nat) {
    forall t: nat :: p < t ==> !OccursAt(line, sub, t)
  }

  /** A match after which neither the lead nor the tail recurs is the one chosen. */
  lemma LineMatchUnique(line: string, i: nat, j: nat)
    requires MatchAt(line, i, j)
    requires NoOccurrenceAfter(line, Lead, i) && NoOccurrenceAfter(line, Tail, j)
    ensures LineMatch(line) == Some((i, j))
  {
    var m := LineMatch(line);
    assert m.Some?;
    var (i0, j0) := m.value;
    assert MatchAt(line, i0, j0);
    assert i <= i0 && (i == i0 ==> j <= j0);
    assert OccursAt(line, Lead, i0);
    assert i0 == i;
    assert OccursAt(line, Tail, j0);
  }

  /**
   * A line in which the lead text does not recur after the match's lead and
   * the tail text does not recur after its tail yields exactly that match's
   * capture; with `StandardParts`, a line `<prefix>try again in <capture>.
   * Visit<rest>` of that kind yields `<capture>`.
   */
  lemma RetryAfterStandardLine(line: string, i: nat, j: nat)
    requires MatchAt(line, i, j)
    requires NoOccurrenceAfter(line, Lead, i) && NoOccurrenceAfter(line, Tail, j)
    ensures LineCapture(line) == Some(line[i + |Lead|..j])
  {
    LineMatchUnique(line, i, j);
  }
}
