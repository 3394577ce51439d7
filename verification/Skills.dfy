/** `SKILL.md` files: splitting frontmatter from body by its fences, and picking the one skill whose
    trigger phrase matches a prompt best. */
module Skills {
  import opened Wrappers
  import opened Text

  // ── lines and trimming ─────────────────────────────────────────────────

  const FENCE := "---"

  /** `trim_end_matches('\r')`: every trailing carriage return goes. */
  function TrimCrs(s: string): string {
    if s != "" && s[|s| - 1] == '\r' then TrimCrs(s[..|s| - 1]) else s
  }

  /** The first newline, or the length of a text without one. */
  function FindNewline(s: string): (n: nat)
    ensures n <= |s| && (n < |s| ==> s[n] == '\n') && '\n' !in s[..n]
  {
    if s == "" || s[0] == '\n' then 0
    else
      var n := FindNewline(s[1..]);
      assert s[..1 + n] == [s[0]] + s[1..][..n];
      1 + n
  }

  /** A line without its terminator, and what comes after the terminator. */
  datatype Cut = Cut(line: string, after: string)

  function SplitFirstLine(s: string): (r: Option<Cut>)
    ensures r.None? <==> s == ""
    ensures r.Some? ==> |r.value.after| < |s|
  {
    if s == "" then None
    else
      var n := FindNewline(s);
      if n < |s| then Some(Cut(TrimCrs(s[..n]), s[n + 1..])) else Some(Cut(TrimCrs(s), ""))
  }

  // ── splitting ──────────────────────────────────────────────────────────

  datatype Split = Parts(frontmatter: Option<string>, body: string) | UnclosedFrontmatter

  /** The text before the first fence line of `rest`, and the text after that line. */
  function Scan(rest: string): Option<(string, string)>
    decreases |rest|
  {
    match SplitFirstLine(rest)
    case None => None
    case Some(cut) =>
      if cut.line == FENCE then Some(("", cut.after))
      else match Scan(cut.after)
        case None => None
        case Some(found) => Some((rest[..|rest| - |cut.after|] + found.0, found.1))
  }

  function SplitOf(content: string): Split {
    match SplitFirstLine(content)
    case None => Parts(None, "")
    case Some(first) =>
      if first.line != FENCE then Parts(None, Trim(content))
      else match Scan(first.after)
        case None => UnclosedFrontmatter
        case Some(found) => Parts(Some(found.0), Trim(found.1))
  }

  lemma {:induction false} AfterIsSuffix(s: string)
    requires s != ""
    ensures var after := SplitFirstLine(s).value.after;
            s[|s| - |after|..] == after
  {
  }

  /** Every line before the cursor is whole and no fence: the scan goes on from here. */
  predicate ScannedTo(rest: string, cursor: nat)
    requires cursor <= |rest|
  {
    match Scan(rest[cursor..])
    case None => Scan(rest) == None
    case Some(found) => Scan(rest) == Some((rest[..cursor] + found.0, found.1))
  }

  /** `split_frontmatter`: the cursor walks whole lines, strictly forward, until a fence or the end. */
  method SplitFrontmatter(content: string) returns (r: Split)
    ensures r == SplitOf(content)
  {
    hide Scan, TrimCrs, FindNewline, ScannedTo, Trim;
    var opening := SplitFirstLine(content);
    if opening.None? {
      return Parts(None, "");
    }
    if opening.value.line != FENCE {
      return Parts(None, Trim(content));
    }
    var rest := opening.value.after;
    var cursor := 0;
    StartsScanned(rest);
    while true
      invariant 0 <= cursor <= |rest|
      invariant ScannedTo(rest, cursor)
      decreases |rest| - cursor
    {
      var remaining := rest[cursor..];
      var cut := SplitFirstLine(remaining);
      StopsHere(rest, cursor);
      if cut.None? {
        return UnclosedFrontmatter;
      }
      if cut.value.line == FENCE {
        return Parts(Some(rest[..cursor]), Trim(cut.value.after));
      }
      CursorMoves(rest, cursor);
      cursor := |rest| - |cut.value.after|;
    }
  }

  /** The cursor after a line that is no fence: what remains is what followed it, and nothing was skipped. */
  lemma CursorStep(rest: string, cursor: nat)
    requires cursor < |rest| && SplitFirstLine(rest[cursor..]).value.line != FENCE
    ensures var after := SplitFirstLine(rest[cursor..]).value.after;
            var next := |rest| - |after|;
            && cursor < next <= |rest| && rest[next..] == after
            && match Scan(rest[cursor..])
               case None => Scan(after) == None
               case Some(found) => Scan(after).Some? && rest[..next] + Scan(after).value.0 == rest[..cursor] + found.0
                                   && Scan(after).value.1 == found.1
  {
    hide Scan, TrimCrs, FindNewline;
    var remaining := rest[cursor..];
    var after := SplitFirstLine(remaining).value.after;
    var next := |rest| - |after|;
    AfterIsSuffix(remaining);
    assert rest[next..] == remaining[|remaining| - |after|..];
    assert rest[..next] == rest[..cursor] + remaining[..|remaining| - |after|];
    ScanStep(rest[..cursor], remaining, rest[..next]);
  }

  lemma StartsScanned(rest: string)
    ensures ScannedTo(rest, 0)
  {
    assert rest[0..] == rest;
    if Scan(rest).Some? { assert rest[..0] + Scan(rest).value.0 == Scan(rest).value.0; }
  }

  lemma {:induction false} StopsHere(rest: string, cursor: nat)
    requires cursor <= |rest| && ScannedTo(rest, cursor)
    ensures rest[cursor..] == "" ==> Scan(rest) == None
    ensures rest[cursor..] != "" && SplitFirstLine(rest[cursor..]).value.line == FENCE ==>
              Scan(rest) == Some((rest[..cursor], SplitFirstLine(rest[cursor..]).value.after))
  {
    hide TrimCrs, FindNewline;
    assert rest[..cursor] + "" == rest[..cursor];
  }

  lemma CursorMoves(rest: string, cursor: nat)
    requires cursor < |rest| && ScannedTo(rest, cursor) && SplitFirstLine(rest[cursor..]).value.line != FENCE
    ensures var next := |rest| - |SplitFirstLine(rest[cursor..]).value.after|;
            cursor < next <= |rest| && ScannedTo(rest, next)
  {
    hide Scan, TrimCrs, FindNewline;
    CursorStep(rest, cursor);
  }

  lemma {:induction false} ScanStep(before: string, remaining: string, next: string)
    requires remaining != "" && SplitFirstLine(remaining).value.line != FENCE
    requires next == before + remaining[..|remaining| - |SplitFirstLine(remaining).value.after|]
    ensures Scan(remaining).Some? <==> Scan(SplitFirstLine(remaining).value.after).Some?
    ensures Scan(remaining).Some? ==>
              var found := Scan(SplitFirstLine(remaining).value.after).value;
              before + Scan(remaining).value.0 == next + found.0 && Scan(remaining).value.1 == found.1
  {
    hide TrimCrs, FindNewline;
    var line := remaining[..|remaining| - |SplitFirstLine(remaining).value.after|];
    if Scan(remaining).Some? {
      var found := Scan(SplitFirstLine(remaining).value.after).value;
      assert before + (line + found.0) == before + line + found.0;
    }
  }

  // ── round trip and converse ────────────────────────────────────────────

  /** One line, terminator excluded. A fence may carry carriage returns. */
  predicate IsLine(s: string) {
    '\n' !in s
  }

  predicate IsFence(s: string) {
    IsLine(s) && TrimCrs(s) == FENCE
  }

  lemma {:induction false} TrimCrsIs(s: string)
    ensures TrimCrs(s) <= s && (forall i :: |TrimCrs(s)| <= i < |s| ==> s[i] == '\r')
    ensures TrimCrs(s) == "" || TrimCrs(s)[|TrimCrs(s)| - 1] != '\r'
  {
    if s != "" && s[|s| - 1] == '\r' { TrimCrsIs(s[..|s| - 1]); }
  }

  /** A fence is three dashes and nothing after them but carriage returns. */
  lemma FenceIs(s: string)
    ensures IsFence(s) <==> |s| >= 3 && s[..3] == "---" && forall i :: 3 <= i < |s| ==> s[i] == '\r'
  {
    TrimCrsIs(s);
    if |s| >= 3 && s[..3] == "---" {
      assert forall i :: 0 <= i < 3 ==> s[i] == s[..3][i] && s[i] == '-';
      var n := |TrimCrs(s)|;
      assert (n < |s| ==> s[n] == '\r') && (n > 0 ==> s[n - 1] != '\r');
    }
    hide TrimCrs;
  }

  /** Newline-terminated lines, none of which is a fence. */
  ghost predicate PlainLines(lines: seq<string>) {
    forall i :: 0 <= i < |lines| ==> IsLine(lines[i]) && !IsFence(lines[i])
  }

  function Terminated(lines: seq<string>): string {
    if lines == [] then "" else lines[0] + "\n" + Terminated(lines[1..])
  }

  lemma {:induction false} NewlineIs(line: string, rest: string)
    requires IsLine(line)
    ensures FindNewline(line + "\n" + rest) == |line| && FindNewline(line) == |line|
  {
    if line != "" {
      NewlineIs(line[1..], rest);
      assert (line + "\n" + rest)[1..] == line[1..] + "\n" + rest;
    }
  }

  lemma {:induction false} FirstLineIs(line: string, rest: string)
    requires IsLine(line)
    ensures SplitFirstLine(line + "\n" + rest) == Some(Cut(TrimCrs(line), rest))
  {
    var s := line + "\n" + rest;
    NewlineIs(line, rest);
    assert s[..|line|] == line && s[|line| + 1..] == rest;
  }

  lemma {:induction false} LastLineIs(line: string)
    requires IsLine(line) && line != ""
    ensures SplitFirstLine(line) == Some(Cut(TrimCrs(line), ""))
  {
  }

  lemma {:induction false} ScanFinds(lines: seq<string>, fence: string, body: string)
    requires PlainLines(lines) && IsFence(fence)
    ensures Scan(Terminated(lines) + fence + "\n" + body) == Some((Terminated(lines), body))
  {
    if lines == [] {
      FirstLineIs(fence, body);
      assert Terminated(lines) + fence + "\n" + body == fence + "\n" + body;
    } else {
      hide TrimCrs, FindNewline;
      var tail := Terminated(lines[1..]) + fence + "\n" + body;
      PutLine(lines[0], lines[1..], fence, "\n", body);
      assert [lines[0]] + lines[1..] == lines;
      FirstLineIs(lines[0], tail);
      ScanFinds(lines[1..], fence, body);
      var rest := lines[0] + "\n" + tail;
      assert rest[..|rest| - |tail|] == lines[0] + "\n";
    }
  }

  /** Writing a file and splitting it again gives back exactly the lines and the trimmed body. */
  lemma {:induction false} SplitRoundTrip(opening: string, lines: seq<string>, fence: string, body: string)
    requires IsFence(opening) && IsFence(fence) && PlainLines(lines)
    ensures SplitOf(opening + "\n" + Terminated(lines) + fence + "\n" + body) == Parts(Some(Terminated(lines)), Trim(body))
  {
    var rest := Terminated(lines) + fence + "\n" + body;
    assert opening + "\n" + Terminated(lines) + fence + "\n" + body == opening + "\n" + rest;
    FirstLineIs(opening, rest);
    ScanFinds(lines, fence, body);
    hide Terminated, PlainLines, Trim;
  }

  /** How a text starts: with a terminated line, or it is one unterminated line. */
  lemma FirstLineOf(s: string) returns (line: string, ended: bool)
    requires s != ""
    ensures IsLine(line) && SplitFirstLine(s).value.line == TrimCrs(line)
    ensures s == line + Ending(ended) + SplitFirstLine(s).value.after
    ensures !ended ==> SplitFirstLine(s).value.after == "" && line != ""
  {
    var n := FindNewline(s);
    line, ended := s[..n], n < |s|;
    assert s == s[..n] + s[n..];
    assert s[..|s|] == s;
  }

  function Ending(ended: bool): string {
    if ended then "\n" else ""
  }

  lemma {:induction false} PutLine(line: string, lines: seq<string>, fence: string, end: string, after: string)
    ensures Terminated([line] + lines) == line + "\n" + Terminated(lines)
    ensures line + "\n" + (Terminated(lines) + fence + end + after) == Terminated([line] + lines) + fence + end + after
  {
  }

  lemma {:induction false} ScanPast(rest: string, line: string)
    requires rest != "" && Scan(rest).Some? && SplitFirstLine(rest).value.line != FENCE
    requires rest == line + "\n" + SplitFirstLine(rest).value.after
    ensures Scan(SplitFirstLine(rest).value.after).Some?
    ensures Scan(rest).value.0 == line + "\n" + Scan(SplitFirstLine(rest).value.after).value.0
    ensures Scan(rest).value.1 == Scan(SplitFirstLine(rest).value.after).value.1
  {
  }

  lemma NoLines(fence: string)
    ensures Terminated([]) == "" && Terminated([]) + fence == fence
  {
  }

  lemma MorePlainLines(line: string, lines: seq<string>)
    requires PlainLines(lines) && IsLine(line) && !IsFence(line)
    ensures PlainLines([line] + lines)
  {
  }

  /** The scan stops at its first line. */
  lemma {:induction false} ScanStops(rest: string)
    requires rest != "" && SplitFirstLine(rest).value.line == FENCE
    ensures Scan(rest) == Some(("", SplitFirstLine(rest).value.after))
  {
  }

  /** The scan goes on behind its first line, which is then terminated. */
  lemma {:induction false} ScanGoesPast(rest: string, line: string, terminated: bool)
    requires rest != "" && Scan(rest).Some? && SplitFirstLine(rest).value.line != FENCE
    requires rest == line + Ending(terminated) + SplitFirstLine(rest).value.after
    requires !terminated ==> SplitFirstLine(rest).value.after == ""
    ensures var after := SplitFirstLine(rest).value.after;
            && rest == line + "\n" + after && Scan(after).Some?
            && Scan(rest).value.0 == line + "\n" + Scan(after).value.0
            && Scan(rest).value.1 == Scan(after).value.1
  {
    ScanGoesOn(rest);
    hide Scan, TrimCrs, FindNewline;
    ScanEndsWell(SplitFirstLine(rest).value.after, terminated);
    ScanPast(rest, line);
  }

  lemma {:induction false} ScanConverse(rest: string) returns (lines: seq<string>, fence: string, ended: bool)
    requires Scan(rest).Some?
    ensures PlainLines(lines) && IsFence(fence)
    ensures Scan(rest).value.0 == Terminated(lines)
    ensures rest == Terminated(lines) + fence + Ending(ended) + Scan(rest).value.1
    ensures !ended ==> Scan(rest).value.1 == ""
    decreases |rest|
  {
    assert rest != "";
    hide TrimCrs, FindNewline, IsLine, Ending, Scan, SplitFirstLine, Terminated;
    var line, terminated := FirstLineOf(rest);
    var cut := SplitFirstLine(rest).value;
    if cut.line == FENCE {
      ScanStops(rest);
      lines, fence, ended := [], line, terminated;
      NoLines(fence);
    } else {
      ScanGoesPast(rest, line, terminated);
      var lines', fence', ended' := ScanConverse(cut.after);
      PutLine(line, lines', fence', Ending(ended'), Scan(cut.after).value.1);
      MorePlainLines(line, lines');
      hide IsFence, PlainLines;
      lines, fence, ended := [line] + lines', fence', ended';
    }
  }

  lemma EndingIs(ended: bool)
    ensures Ending(ended) == if ended then "\n" else ""
  {
  }

  lemma {:induction false} ScanGoesOn(rest: string)
    requires rest != "" && Scan(rest).Some? && SplitFirstLine(rest).value.line != FENCE
    ensures Scan(SplitFirstLine(rest).value.after).Some?
  {
  }

  /** Something was found behind the first line, so that line was terminated. */
  lemma {:induction false} ScanEndsWell(after: string, terminated: bool)
    requires Scan(after).Some? && (!terminated ==> after == "")
    ensures terminated
  {
  }

  /** Whatever is returned as frontmatter is whole lines without a fence among them, and the fences around
      it, it and the untrimmed body are the file. */
  lemma SplitConverse(content: string) returns (opening: string, lines: seq<string>, fence: string, ended: bool, after: string)
    requires SplitOf(content).Parts? && SplitOf(content).frontmatter.Some?
    ensures IsFence(opening) && IsFence(fence) && PlainLines(lines)
    ensures SplitOf(content) == Parts(Some(Terminated(lines)), Trim(after))
    ensures content == opening + "\n" + (Terminated(lines) + fence + Ending(ended) + after)
  {
    var terminated;
    opening, terminated := FirstLineOf(content);
    var rest := SplitFirstLine(content).value.after;
    hide TrimCrs, FindNewline, Trim, Scan, Terminated, Ending;
    ScanEndsWell(rest, terminated);
    lines, fence, ended := ScanConverse(rest);
    after := Scan(rest).value.1;
  }

  /** The other two answers: no frontmatter exactly when the first line is no fence, and then the body is all
      of the file, trimmed; an error exactly when a fence opens it and no later line closes it. */
  lemma SplitOtherwise(content: string)
    ensures SplitOf(content).Parts? && SplitOf(content).frontmatter.None? <==>
              content == "" || SplitFirstLine(content).value.line != FENCE
    ensures SplitOf(content).Parts? && SplitOf(content).frontmatter.None? ==> SplitOf(content).body == Trim(content)
    ensures SplitOf(content).UnclosedFrontmatter? <==>
              content != "" && SplitFirstLine(content).value.line == FENCE && Scan(SplitFirstLine(content).value.after).None?
  {
  }

  /** No fence means no fence: a scan finds nothing exactly in texts made of plain lines. */
  lemma {:induction false} ScanNothing(lines: seq<string>, last: string)
    requires PlainLines(lines) && IsLine(last) && !IsFence(last)
    ensures Scan(Terminated(lines) + last).None?
  {
    var rest := Terminated(lines) + last;
    if lines == [] {
      assert rest == last;
      if last != "" { LastLineIs(last); }
    } else {
      assert rest == lines[0] + "\n" + (Terminated(lines[1..]) + last);
      FirstLineIs(lines[0], Terminated(lines[1..]) + last);
      ScanNothing(lines[1..], last);
    }
  }

  // ── triggers ───────────────────────────────────────────────────────────

  datatype Skill = Skill(name: string, triggers: seq<seq<string>>)

  predicate WindowAt(haystack: seq<string>, needle: seq<string>, i: int) {
    0 <= i <= i + |needle| <= |haystack| && haystack[i..i + |needle|] == needle
  }

  /** Some window of the haystack, from this one on, is the needle. */
  function AnyWindow(haystack: seq<string>, needle: seq<string>, from: nat): bool
    decreases |haystack| - from
  {
    from + |needle| <= |haystack| && (WindowAt(haystack, needle, from) || AnyWindow(haystack, needle, from + 1))
  }

  function IsContiguousSubslice(haystack: seq<string>, needle: seq<string>): bool {
    if needle == [] || |needle| > |haystack| then false else AnyWindow(haystack, needle, 0)
  }

  lemma {:induction false} AnyWindowIs(haystack: seq<string>, needle: seq<string>, from: nat)
    ensures AnyWindow(haystack, needle, from) <==> exists i :: from <= i && WindowAt(haystack, needle, i)
    decreases |haystack| - from
  {
    if from + |needle| <= |haystack| { AnyWindowIs(haystack, needle, from + 1); }
  }

  ghost predicate Around(haystack: seq<string>, before: seq<string>, needle: seq<string>, after: seq<string>) {
    haystack == before + needle + after
  }

  /** A phrase matches exactly when the prompt is something, the phrase, something. */
  lemma SubsliceIs(haystack: seq<string>, needle: seq<string>)
    ensures IsContiguousSubslice(haystack, needle) <==>
              needle != [] && exists before, after :: Around(haystack, before, needle, after)
  {
    AnyWindowIs(haystack, needle, 0);
    if IsContiguousSubslice(haystack, needle) {
      var i :| 0 <= i && WindowAt(haystack, needle, i);
      assert Around(haystack, haystack[..i], needle, haystack[i + |needle|..]);
    }
    if before, after :| Around(haystack, before, needle, after) {
      assert WindowAt(haystack, needle, |before|);
    }
  }

  /** The length of the longest phrase that matches, 0 if none does. */
  function Score(prompt: seq<string>, phrases: seq<seq<string>>): nat {
    if phrases == [] then 0
    else
      var n := |phrases| - 1;
      var before := Score(prompt, phrases[..n]);
      if IsContiguousSubslice(prompt, phrases[n]) && |phrases[n]| > before then |phrases[n]| else before
  }

  lemma {:induction false} ScoreIsLongest(prompt: seq<string>, phrases: seq<seq<string>>)
    ensures forall i :: 0 <= i < |phrases| && IsContiguousSubslice(prompt, phrases[i]) ==> |phrases[i]| <= Score(prompt, phrases)
    ensures Score(prompt, phrases) > 0 ==>
              exists i :: 0 <= i < |phrases| && IsContiguousSubslice(prompt, phrases[i]) && |phrases[i]| == Score(prompt, phrases)
  {
    if phrases != [] {
      var n := |phrases| - 1;
      ScoreIsLongest(prompt, phrases[..n]);
      if Score(prompt, phrases[..n]) > 0 {
        var i :| 0 <= i < n && IsContiguousSubslice(prompt, phrases[..n][i]) && |phrases[..n][i]| == Score(prompt, phrases[..n]);
        assert phrases[i] == phrases[..n][i];
      }
      forall i | 0 <= i < n && IsContiguousSubslice(prompt, phrases[i]) ensures |phrases[i]| <= Score(prompt, phrases) {
        assert phrases[..n][i] == phrases[i];
      }
    }
  }

  /** `match_trigger`: the winner's longest match is as long as any skill's and longer than every earlier
      skill's; there is no winner exactly when no phrase of any skill occurs in the prompt. */
  method MatchTrigger(prompt: seq<string>, scanned: seq<Skill>) returns (winner: Option<nat>)
    ensures winner.None? <==> forall j :: 0 <= j < |scanned| ==> Score(prompt, scanned[j].triggers) == 0
    ensures winner.Some? ==>
              && winner.value < |scanned| && Score(prompt, scanned[winner.value].triggers) > 0
              && (forall j :: 0 <= j < |scanned| ==> Score(prompt, scanned[j].triggers) <= Score(prompt, scanned[winner.value].triggers))
              && (forall j :: 0 <= j < winner.value ==> Score(prompt, scanned[j].triggers) < Score(prompt, scanned[winner.value].triggers))
  {
    winner := None;
    if prompt == [] {
      forall j | 0 <= j < |scanned| ensures Score(prompt, scanned[j].triggers) == 0 {
        ScoreIsLongest(prompt, scanned[j].triggers);
      }
      return;
    }
    var best := 0;
    var i := 0;
    while i < |scanned|
      invariant 0 <= i <= |scanned|
      invariant winner.None? <==> best == 0
      invariant winner.Some? ==> winner.value < i && best == Score(prompt, scanned[winner.value].triggers)
      invariant forall j :: 0 <= j < i ==> Score(prompt, scanned[j].triggers) <= best
      invariant winner.Some? ==> forall j :: 0 <= j < winner.value ==> Score(prompt, scanned[j].triggers) < best
    {
      var score := Score(prompt, scanned[i].triggers);
      if score != 0 && (winner.None? || score > best) {
        winner, best := Some(i), score;
      }
      i := i + 1;
    }
  }
}
