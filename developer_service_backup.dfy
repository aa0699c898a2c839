/** What the backup copy of the developer service adds to the JSON helpers: the
    truncation heuristic `is_likely_truncated`, the continuation loop
    `_recover_truncated_response`, and, inside its `process`, the `### File:` manifest
    parser and the per-file repair of truncated contents. */
module DeveloperBackup {
  import opened PyStr
  import opened JsonValue
  import opened DeveloperService

  // ---------------------------------------------------------------------------------
  // is_likely_truncated

  /** The last characters `is_likely_truncated` takes as a sign of a complete text. */
  const Closers: set<char> := {'\n', '}', ']', '>', ';', '"', '\'', ')'}

  /** `is_likely_truncated(text)` on a string: an odd number of fence markers, a last
      non-blank character outside `Closers`, or more `{` than `}`. */
  function IsLikelyTruncated(text: string): (r: bool)
    ensures text == [] ==> !r
    ensures text != [] && Count(text, Fence) % 2 != 0 ==> r
    ensures r && Count(text, Fence) % 2 == 0 ==> RStrip(text) != []
  {
    if text == [] then false
    else if Count(text, Fence) % 2 != 0 then true
    else
      var s := RStrip(text);
      if s == [] then false
      else if s[|s| - 1] !in Closers then true
      else Count(text, "{") > Count(text, "}")
  }

  /** The closers that can actually be seen: the text is right-stripped first, so its
      last character is never the newline `Closers` also lists. */
  const VisibleClosers: set<char> := {'}', ']', '>', ';', '"', '\'', ')'}

  /** The three signals, with the unreachable newline entry removed: the heuristic
      fires exactly on an odd fence count, an abrupt last character, or a missing `}`. */
  lemma TruncationSignals(text: string)
    ensures var s := RStrip(text);
      IsLikelyTruncated(text) <==>
        && text != []
        && (|| Count(text, Fence) % 2 != 0
            || (s != [] && (s[|s| - 1] !in VisibleClosers || Count(text, "{") > Count(text, "}"))))
  {
    RStripIsPrefix(text);
    assert IsSpace('\n');
  }

  /** A text cut off mid-word is truncated: with no backtick in it and a letter last,
      the fence count is even and the last character is no closer. */
  lemma AbruptEndIsTruncated(text: string)
    requires text != [] && '`' !in text
    requires 'a' <= text[|text| - 1] <= 'z' || 'A' <= text[|text| - 1] <= 'Z'
    ensures IsLikelyTruncated(text)
  {
    CountWithoutHead(text, Fence);
    assert RStrip(text) == text;
  }

  /** A closed object is not truncated. */
  lemma ClosedObjectIsComplete()
    ensures !IsLikelyTruncated("{}")
  {
    var text := "{}";
    CountWithoutHead(text, Fence);
    assert !IsSpace(text[|text| - 1]);
    assert RStrip(text) == text;
    CountWithoutHead("}", "{");
    assert text[..1] == "{" && text[1..] == "}";
    assert Count(text, "{") == 1;
    CountWithoutHead("{", "}");
    assert Count("}", "}") == 1 by {
      assert "}"[..1] == "}" && "}"[1..] == [];
    }
    assert Count(text, "}") == 1;
  }

  /** Fence-free text counts no fence marker. */
  lemma {:induction false} NoFenceCountsZero(s: string)
    requires !HasFence(s)
    ensures Count(s, Fence) == 0
    decreases |s|
  {
    StartsWithFence(s);
    if |s| >= 3 {
      SliceKeepsFenceFree(s, 1, |s|);
      assert s[1..|s|] == s[1..];
      NoFenceCountsZero(s[1..]);
    }
  }

  /** Whenever `clean_json_string` had to append braces, the heuristic sees the result
      as complete: no fence, a closing `}` last, and as many `}` as `{`. */
  lemma BraceRepairLooksComplete(text: string)
    requires |CleanText(text)| > |Normalized(text)|
    ensures !IsLikelyTruncated(CleanText(text))
  {
    var r := CleanText(text);
    CleanTextBalances(text);
    NoFenceCountsZero(r);
    assert r[|r| - 1] == '}';
    assert RStrip(r) == r;
  }

  // ---------------------------------------------------------------------------------
  // _recover_truncated_response

  /** `range(max_attempts)`: a non-positive bound makes no attempt. */
  function Budget(maxAttempts: int): nat {
    if maxAttempts > 0 then maxAttempts else 0
  }

  /** The text of a reply, `""` for anything that is not a string. */
  function TextOf(reply: Reply): string {
    if reply.Success? && reply.value.JStr? then reply.value.s else []
  }

  /** The text after the first `n` replies have each been appended on a new line. */
  function Continued(initial: string, replies: seq<Reply>, n: nat): string
    decreases n
  {
    if n == 0 then initial
    else Continued(initial, replies, n - 1) + "\n" + TextOf(ReplyAt(replies, n - 1))
  }

  /** Appending continuations only ever extends the text, by at least a newline each. */
  lemma {:induction false} ContinuedExtends(initial: string, replies: seq<Reply>, n: nat)
    ensures var t := Continued(initial, replies, n);
      |t| >= |initial| + n && StartsWith(t, initial)
    decreases n
  {
    if n > 0 {
      ContinuedExtends(initial, replies, n - 1);
      var t := Continued(initial, replies, n);
      var u := Continued(initial, replies, n - 1);
      assert t[..|initial|] == u[..|initial|];
    }
  }

  /** Whether the text after `n` continuations still looks truncated. */
  predicate TruncatedAfter(initial: string, replies: seq<Reply>, n: nat) {
    IsLikelyTruncated(Continued(initial, replies, n))
  }

  /** How a recovery that made `calls` calls and returned `full` ended, in terms of the
      replies: at most `budget` calls; all but possibly the last accepted, and the text
      is the initial text with exactly the accepted ones appended; every call was made
      on text that looked truncated; and when the last call was accepted, the budget is
      spent or the text looks complete. */
  predicate RecoveryOutcome(initial: string, replies: seq<Reply>, budget: nat, full: string, calls: nat) {
    var n := if calls > 0 && !Accepted(ReplyAt(replies, calls - 1)) then calls - 1 else calls;
    && calls <= budget
    && (forall j :: 0 <= j < n ==> Accepted(ReplyAt(replies, j)))
    && full == Continued(initial, replies, n)
    && (forall j :: 0 <= j < calls ==> TruncatedAfter(initial, replies, j))
    && (n == calls ==> calls == budget || !IsLikelyTruncated(full))
  }

  /** The number of calls the loop makes from attempt `a` on, all earlier replies
      having been accepted. */
  function RecoveryCalls(initial: string, replies: seq<Reply>, budget: nat, a: nat): nat
    decreases budget - a
  {
    if a >= budget || !TruncatedAfter(initial, replies, a) then a
    else if Accepted(ReplyAt(replies, a)) then RecoveryCalls(initial, replies, budget, a + 1)
    else a + 1
  }

  /** Any outcome made the number of calls the replies dictate. */
  lemma {:induction false} OutcomeCalls(initial: string, replies: seq<Reply>, budget: nat,
                                        full: string, calls: nat, a: nat)
    requires RecoveryOutcome(initial, replies, budget, full, calls)
    requires a <= (if calls > 0 && !Accepted(ReplyAt(replies, calls - 1)) then calls - 1 else calls)
    ensures calls == RecoveryCalls(initial, replies, budget, a)
    decreases calls - a
  {
    var n := if calls > 0 && !Accepted(ReplyAt(replies, calls - 1)) then calls - 1 else calls;
    if a < n {
      assert Accepted(ReplyAt(replies, a)) && TruncatedAfter(initial, replies, a);
      OutcomeCalls(initial, replies, budget, full, calls, a + 1);
    } else if n < calls {
      assert TruncatedAfter(initial, replies, n);
    }
  }

  /** The outcome is determined by the replies: two recoveries over the same replies
      end with the same text after the same number of calls. */
  lemma RecoveryOutcomeUnique(initial: string, replies: seq<Reply>, budget: nat,
                              full1: string, calls1: nat, full2: string, calls2: nat)
    requires RecoveryOutcome(initial, replies, budget, full1, calls1)
    requires RecoveryOutcome(initial, replies, budget, full2, calls2)
    ensures full1 == full2 && calls1 == calls2
  {
    OutcomeCalls(initial, replies, budget, full1, calls1, 0);
    OutcomeCalls(initial, replies, budget, full2, calls2, 0);
  }

  /** `_recover_truncated_response(initial_text, messages, max_attempts)`: the `i`-th
      continuation call answers with `ReplyAt(replies, i)`; also returns how many calls
      were made. */
  method RecoverTruncatedResponse(initial: string, replies: seq<Reply>, maxAttempts: int)
    returns (full: string, calls: nat)
    ensures RecoveryOutcome(initial, replies, Budget(maxAttempts), full, calls)
    ensures StartsWith(full, initial)
    ensures !IsLikelyTruncated(initial) ==> full == initial && calls == 0
  {
    var budget := Budget(maxAttempts);
    full := initial;
    calls := 0;
    var accepted := 0;
    var stopped := false;
    while calls < budget && !stopped && IsLikelyTruncated(full)
      invariant calls <= budget
      invariant accepted == (if stopped then calls - 1 else calls)
      invariant full == Continued(initial, replies, accepted)
      invariant forall j :: 0 <= j < accepted ==> Accepted(ReplyAt(replies, j))
      invariant forall j :: 0 <= j < calls ==> TruncatedAfter(initial, replies, j)
      invariant stopped ==> calls > 0 && !Accepted(ReplyAt(replies, calls - 1))
      invariant !IsLikelyTruncated(initial) ==> calls == 0
      decreases budget - calls, if stopped then 0 else 1
    {
      assert TruncatedAfter(initial, replies, calls);
      var reply := ReplyAt(replies, calls);
      if Accepted(reply) {
        full := full + "\n" + reply.value.s;
        accepted := accepted + 1;
      } else {
        stopped := true;
      }
      calls := calls + 1;
    }
    ContinuedExtends(initial, replies, accepted);
  }

  // ---------------------------------------------------------------------------------
  // The `### File:` manifest inside `process`

  const FileHeader: string := "### File: "

  datatype FileRecord = FileRecord(path: string, content: string)

  predicate IsHeader(line: string) {
    StartsWith(line, FileHeader)
  }

  predicate IsFenceLine(line: string) {
    StartsWith(line, Fence)
  }

  /** `line[9:].strip()`: the path named by a header line. */
  function HeaderPath(line: string): string
    requires IsHeader(line)
  {
    Strip(line[9..])
  }

  /** How the loop treats one line: a header naming a path, a fence line it skips, or
      text it may collect. */
  datatype Line = Header(path: string) | FenceLine | Text(text: string)

  function Classify(line: string): Line {
    if IsHeader(line) then Header(HeaderPath(line))
    else if IsFenceLine(line) then FenceLine
    else Text(line)
  }

  /** The lines, classified in the loop's order of tests: a `### File: ` line is a
      header naming its stripped path, whether or not it also starts with a fence;
      any other line starting with a fence is skipped; every other line is text. */
  function Classified(lines: seq<string>): (r: seq<Line>)
    ensures |r| == |lines| && forall i :: 0 <= i < |lines| ==> r[i] == Classify(lines[i])
    ensures forall i :: 0 <= i < |lines| ==>
      && (r[i].Header? <==> IsHeader(lines[i]))
      && (r[i].Header? ==> |lines[i]| >= 9 && r[i].path == Strip(lines[i][9..]))
      && (r[i] == FenceLine <==> !IsHeader(lines[i]) && IsFenceLine(lines[i]))
      && (!IsHeader(lines[i]) && !IsFenceLine(lines[i]) ==> r[i] == Text(lines[i]))
  {
    seq(|lines|, i requires 0 <= i < |lines| => Classify(lines[i]))
  }

  /** A file of the manifest before its lines are joined: its path and its lines. */
  datatype Section = Section(path: string, lines: seq<string>)

  /** The record written for a section: its lines joined with newlines. */
  function Record(sec: Section): FileRecord {
    FileRecord(sec.path, Join(sec.lines, '\n'))
  }

  function Records(secs: seq<Section>): (r: seq<FileRecord>)
    ensures |r| == |secs| && forall i :: 0 <= i < |secs| ==> r[i] == Record(secs[i])
  {
    seq(|secs|, i requires 0 <= i < |secs| => Record(secs[i]))
  }

  /** The section the parser emits for a path and its collected lines: none when the
      path is empty or no line was collected. */
  function Flush(path: string, lines: seq<string>): seq<Section> {
    if path != [] && lines != [] then [Section(path, lines)] else []
  }

  /** The parser's state: the emitted sections, the current path (`""` when there is
      none: `None` and `""` are equally false) and the lines collected for it. */
  datatype ScanState = ScanState(done: seq<Section>, current: string, content: seq<string>)

  /** One iteration of the line loop. */
  function Step(st: ScanState, line: Line): ScanState {
    match line
    case Header(path) => ScanState(st.done + Flush(st.current, st.content), path, [])
    case FenceLine => st
    case Text(t) => if st.current != [] then st.(content := st.content + [t]) else st
  }

  /** The loop over the remaining lines, then the final flush. */
  function Run(st: ScanState, lines: seq<Line>): seq<Section>
    decreases |lines|
  {
    if lines == [] then st.done + Flush(st.current, st.content)
    else Run(Step(st, lines[0]), lines[1..])
  }

  /** The records the manifest parser produces for a response text. */
  function Manifest(text: string): seq<FileRecord> {
    Records(Run(ScanState([], [], []), Classified(Split(text, '\n'))))
  }

  /** The manifest parser of `process`, as a method over the response text. */
  method ParseManifest(text: string) returns (files: seq<FileRecord>)
    ensures files == Manifest(text)
  {
    var lines := Split(text, '\n');
    ghost var kinds := Classified(lines);
    files := [];
    ghost var done: seq<Section> := [];
    var current: string := [];
    var content: seq<string> := [];
    var i := 0;
    while i < |lines|
      invariant i <= |lines|
      invariant files == Records(done)
      invariant Run(ScanState(done, current, content), kinds[i..]) == Run(ScanState([], [], []), kinds)
    {
      RunStep(ScanState(done, current, content), kinds, i);
      match Classify(lines[i]) {
        case Header(path) =>
          RecordsFlush(done, current, content);
          if current != [] && content != [] {
            files := files + [FileRecord(current, Join(content, '\n'))];
          }
          done := done + Flush(current, content);
          current := path;
          content := [];
        case FenceLine =>
        case Text(line) =>
          if current != [] {
            content := content + [line];
          }
      }
      i := i + 1;
    }
    RecordsFlush(done, current, content);
    if current != [] && content != [] {
      files := files + [FileRecord(current, Join(content, '\n'))];
    }
  }

  lemma RunStep(st: ScanState, lines: seq<Line>, i: nat)
    requires i < |lines|
    ensures Run(st, lines[i..]) == Run(Step(st, lines[i]), lines[i + 1..])
  {
    assert lines[i..][0] == lines[i] && lines[i..][1..] == lines[i + 1..];
  }

  lemma RecordsFlush(done: seq<Section>, path: string, lines: seq<string>)
    ensures Records(done + Flush(path, lines)) ==
      Records(done) + (if path != [] && lines != [] then [FileRecord(path, Join(lines, '\n'))] else [])
  {
    if path != [] && lines != [] {
      assert Records(done + Flush(path, lines)) == Records(done) + [FileRecord(path, Join(lines, '\n'))];
    } else {
      assert done + Flush(path, lines) == done;
    }
  }

  // A reference reading of the manifest, section by section.

  /** The text a section keeps: the text lines up to the next header. */
  function Body(rest: seq<Line>): seq<string>
    decreases |rest|
  {
    if rest == [] || rest[0].Header? then []
    else (if rest[0].Text? then [rest[0].text] else []) + Body(rest[1..])
  }

  /** The lines from the next header on. */
  function NextHeader(rest: seq<Line>): (r: seq<Line>)
    ensures |r| <= |rest|
    ensures r == [] || r[0].Header?
    decreases |rest|
  {
    if rest == [] || rest[0].Header? then rest else NextHeader(rest[1..])
  }

  /** One section per header with a non-empty path and a non-empty body, in header
      order; lines before the first header belong to no section. */
  function Sections(lines: seq<Line>): seq<Section>
    decreases |lines|
  {
    if lines == [] then []
    else if lines[0].Header? then
      Flush(lines[0].path, Body(lines[1..])) + Sections(NextHeader(lines[1..]))
    else Sections(lines[1..])
  }

  /** From any state, the loop finishes the current section with the lines up to the
      next header and then emits the sections that follow. */
  lemma {:induction false} RunIsSections(st: ScanState, lines: seq<Line>)
    ensures Run(st, lines) ==
      st.done + Flush(st.current, st.content + Body(lines)) + Sections(NextHeader(lines))
    decreases |lines|
  {
    if lines == [] {
      assert st.content + [] == st.content;
    } else {
      var line := lines[0];
      var rest := lines[1..];
      RunIsSections(Step(st, line), rest);
      match line
      case Header(_) =>
        assert st.content + [] == st.content && [] + Body(rest) == Body(rest);
      case FenceLine =>
        assert Body(lines) == Body(rest);
      case Text(t) =>
        if st.current != [] {
          assert Body(lines) == [t] + Body(rest);
          assert st.content + [t] + Body(rest) == st.content + Body(lines);
        }
    }
  }

  /** The lines before the first header do not change the sections. */
  lemma {:induction false} SectionsSkipPreamble(lines: seq<Line>)
    ensures Sections(NextHeader(lines)) == Sections(lines)
    decreases |lines|
  {
    if lines != [] && !lines[0].Header? {
      SectionsSkipPreamble(lines[1..]);
    }
  }

  /** The loop and the reference reading agree. */
  lemma ManifestIsSections(text: string)
    ensures Manifest(text) == Records(Sections(Classified(Split(text, '\n'))))
  {
    var kinds := Classified(Split(text, '\n'));
    RunIsSections(ScanState([], [], []), kinds);
    SectionsSkipPreamble(kinds);
    assert [] + Flush([], [] + Body(kinds)) == [];
  }

  /** Lines put in front that hold no header are ignored. */
  lemma {:induction false} PreambleIgnored(preamble: seq<Line>, lines: seq<Line>)
    requires forall k :: 0 <= k < |preamble| ==> !preamble[k].Header?
    ensures Sections(preamble + lines) == Sections(lines)
    decreases |preamble|
  {
    if preamble != [] {
      assert (preamble + lines)[0] == preamble[0];
      assert (preamble + lines)[1..] == preamble[1..] + lines;
      PreambleIgnored(preamble[1..], lines);
    } else {
      assert preamble + lines == lines;
    }
  }

  lemma {:induction false} BodyStopsAtHeader(a: seq<Line>, b: seq<Line>)
    requires b == [] || b[0].Header?
    ensures Body(a + b) == Body(a)
    ensures NextHeader(a + b) == NextHeader(a) + b
    decreases |a|
  {
    if a == [] {
      assert a + b == b;
    } else {
      assert (a + b)[0] == a[0];
      assert (a + b)[1..] == a[1..] + b;
      BodyStopsAtHeader(a[1..], b);
    }
  }

  /** Sections are emitted in header order: a text that continues at a header yields
      the sections of its first part followed by those of the rest. */
  lemma {:induction false} SectionsConcat(a: seq<Line>, b: seq<Line>)
    requires b == [] || b[0].Header?
    ensures Sections(a + b) == Sections(a) + Sections(b)
    decreases |a|
  {
    if a == [] {
      assert a + b == b;
    } else {
      assert (a + b)[0] == a[0];
      assert (a + b)[1..] == a[1..] + b;
      if a[0].Header? {
        BodyStopsAtHeader(a[1..], b);
        SectionsConcat(NextHeader(a[1..]), b);
      } else {
        SectionsConcat(a[1..], b);
      }
    }
  }

  /** A classified line as the split and the classification leave it: a header path
      with no whitespace at either end, a text line that holds no newline and is
      neither a header nor a fence line. */
  predicate GoodLine(l: Line) {
    match l
    case Header(p) => p == [] || (!IsSpace(p[0]) && !IsSpace(p[|p| - 1]))
    case FenceLine => true
    case Text(t) => '\n' !in t && !IsHeader(t) && !IsFenceLine(t)
  }

  lemma ClassifiedLinesAreGood(lines: seq<string>)
    requires forall k :: 0 <= k < |lines| ==> '\n' !in lines[k]
    ensures forall k :: 0 <= k < |Classified(lines)| ==> GoodLine(Classified(lines)[k])
  {
    forall k | 0 <= k < |lines| ensures GoodLine(Classify(lines[k])) {
      if IsHeader(lines[k]) {
        var _ := StripIsSlice(lines[k][9..]);
      }
    }
  }

  /** A section as the parser promises it: a non-empty path with no surrounding
      whitespace, and at least one line, none of them a header or a fence line or
      holding a newline. */
  predicate WellFormedSection(sec: Section) {
    && sec.path != []
    && !IsSpace(sec.path[0]) && !IsSpace(sec.path[|sec.path| - 1])
    && sec.lines != []
    && forall k :: 0 <= k < |sec.lines| ==>
         '\n' !in sec.lines[k] && !IsHeader(sec.lines[k]) && !IsFenceLine(sec.lines[k])
  }

  lemma {:induction false} BodyLines(rest: seq<Line>)
    requires forall k :: 0 <= k < |rest| ==> GoodLine(rest[k])
    ensures forall k :: 0 <= k < |Body(rest)| ==>
      '\n' !in Body(rest)[k] && !IsHeader(Body(rest)[k]) && !IsFenceLine(Body(rest)[k])
    decreases |rest|
  {
    if rest != [] && !rest[0].Header? {
      var more := rest[1..];
      assert forall k :: 0 <= k < |more| ==> more[k] == rest[k + 1];
      BodyLines(more);
      var head := if rest[0].Text? then [rest[0].text] else [];
      var tail := Body(more);
      assert Body(rest) == head + tail;
      assert GoodLine(rest[0]);
      forall k | 0 <= k < |head + tail|
        ensures '\n' !in (head + tail)[k] && !IsHeader((head + tail)[k]) && !IsFenceLine((head + tail)[k])
      {
        if k >= |head| {
          assert (head + tail)[k] == tail[k - |head|];
        } else {
          assert (head + tail)[k] == rest[0].text;
        }
      }
    }
  }

  lemma {:induction false} NextHeaderIsSuffix(rest: seq<Line>)
    ensures |NextHeader(rest)| <= |rest| && NextHeader(rest) == rest[|rest| - |NextHeader(rest)|..]
    decreases |rest|
  {
    if rest != [] && !rest[0].Header? {
      NextHeaderIsSuffix(rest[1..]);
    }
  }

  lemma {:induction false} SectionsWellFormed(lines: seq<Line>)
    requires forall k :: 0 <= k < |lines| ==> GoodLine(lines[k])
    ensures forall sec :: sec in Sections(lines) ==> WellFormedSection(sec)
    decreases |lines|
  {
    if lines != [] {
      var rest := lines[1..];
      assert forall k :: 0 <= k < |rest| ==> rest[k] == lines[k + 1];
      if lines[0].Header? {
        NextHeaderIsSuffix(rest);
        var next := NextHeader(rest);
        assert forall k :: 0 <= k < |next| ==> next[k] == rest[|rest| - |next| + k];
        SectionsWellFormed(next);
        BodyLines(rest);
        assert GoodLine(lines[0]);
      } else {
        SectionsWellFormed(rest);
      }
    }
  }

  /** A record as the parser promises it: a non-empty path with no surrounding
      whitespace, and a content that splits into at least one line, none of them a
      header or a fence line. */
  predicate WellFormedRecord(rec: FileRecord) {
    && rec.path != []
    && !IsSpace(rec.path[0]) && !IsSpace(rec.path[|rec.path| - 1])
    && Split(rec.content, '\n') != []
    && forall k :: 0 <= k < |Split(rec.content, '\n')| ==>
         !IsHeader(Split(rec.content, '\n')[k]) && !IsFenceLine(Split(rec.content, '\n')[k])
  }

  /** The content of a well-formed section splits back into its lines. */
  lemma RecordOfSection(sec: Section)
    requires WellFormedSection(sec)
    ensures Split(Record(sec).content, '\n') == sec.lines
    ensures WellFormedRecord(Record(sec))
  {
    SplitJoin(sec.lines, '\n');
  }

  /** Every record the parser emits is well formed. */
  lemma ManifestWellFormed(text: string)
    ensures forall i :: 0 <= i < |Manifest(text)| ==> WellFormedRecord(Manifest(text)[i])
  {
    var lines := Split(text, '\n');
    var kinds := Classified(lines);
    ManifestIsSections(text);
    SplitPartsLackSep(text, '\n');
    ClassifiedLinesAreGood(lines);
    SectionsWellFormed(kinds);
    var secs := Sections(kinds);
    forall i | 0 <= i < |secs| ensures WellFormedRecord(Record(secs[i])) {
      assert secs[i] in secs;
      RecordOfSection(secs[i]);
    }
  }

  // ---------------------------------------------------------------------------------
  // Per-file repair inside `process`

  /** The fence removal applied to a repair reply: when the stripped reply starts and
      ends with a fence marker, its first and last lines are dropped. */
  function Unfence(more: string): string {
    var t := Strip(more);
    if StartsWith(t, Fence) && EndsWith(t, Fence) then
      var parts := Split(t, '\n');
      Join(if |parts| >= 2 then parts[1..|parts| - 1] else [], '\n')
    else more
  }

  /** A fenced reply of three or more lines keeps exactly its inner lines; a fenced
      reply of one or two lines, such as "```{}```", becomes empty; any other reply
      is kept whole. */
  lemma UnfenceKeepsInnerLines(more: string)
    ensures var t := Strip(more);
      var parts := Split(t, '\n');
      && (StartsWith(t, Fence) && EndsWith(t, Fence) && |parts| >= 3 ==>
            Split(Unfence(more), '\n') == parts[1..|parts| - 1])
      && (StartsWith(t, Fence) && EndsWith(t, Fence) && |parts| <= 2 ==> Unfence(more) == "")
      && (!(StartsWith(t, Fence) && EndsWith(t, Fence)) ==> Unfence(more) == more)
  {
    var t := Strip(more);
    var parts := Split(t, '\n');
    if StartsWith(t, Fence) && EndsWith(t, Fence) && |parts| >= 3 {
      SplitPartsLackSep(t, '\n');
      SplitJoin(parts[1..|parts| - 1], '\n');
    }
  }

  /** The content of one file after the repair step: a truncated-looking content gets
      the reply appended on a new line when the reply is a non-empty string. The
      content only ever grows, and changes exactly when both hold. */
  function RepairedContent(content: string, reply: Reply): (r: string)
    ensures StartsWith(r, content)
    ensures r != content <==> IsLikelyTruncated(content) && Accepted(reply)
  {
    if IsLikelyTruncated(content) && Accepted(reply) then content + "\n" + Unfence(reply.value.s)
    else content
  }

  /** How many of the files look truncated: one repair call is made for each. */
  function TruncatedCount(files: seq<FileRecord>): nat
    decreases |files|
  {
    if files == [] then 0
    else TruncatedCount(files[..|files| - 1]) + (if IsLikelyTruncated(files[|files| - 1].content) then 1 else 0)
  }

  /** One more file: the count grows by one exactly when that file looks truncated. */
  lemma TruncatedCountStep(files: seq<FileRecord>, i: nat)
    requires i < |files|
    ensures TruncatedCount(files[..i + 1]) ==
      TruncatedCount(files[..i]) + (if IsLikelyTruncated(files[i].content) then 1 else 0)
  {
    assert files[..i + 1][..i] == files[..i];
  }

  /** The file at index `k` after the repair loop: its path, and its content repaired
      with the reply of the call numbered by how many files before it looked
      truncated. */
  function RepairedAt(before: seq<FileRecord>, replies: seq<Reply>, k: nat): FileRecord
    requires k < |before|
  {
    FileRecord(before[k].path, RepairedContent(before[k].content, ReplyAt(replies, TruncatedCount(before[..k]))))
  }

  /** The repair loop over `files`: the file at index `i` is answered by the call
      numbered by how many files before it looked truncated. */
  method RepairFiles(files: array<FileRecord>, replies: seq<Reply>) returns (calls: nat)
    modifies files
    ensures calls == TruncatedCount(old(files[..]))
    ensures forall i :: 0 <= i < files.Length ==>
      files[i] == FileRecord(old(files[i]).path,
        RepairedContent(old(files[i]).content, ReplyAt(replies, TruncatedCount(old(files[..])[..i]))))
  {
    ghost var before := files[..];
    calls := 0;
    var i := 0;
    while i < files.Length
      invariant 0 <= i <= files.Length
      invariant calls == TruncatedCount(before[..i])
      invariant forall k :: 0 <= k < i ==> files[k] == RepairedAt(before, replies, k)
      invariant forall k :: i <= k < files.Length ==> files[k] == before[k]
    {
      TruncatedCountStep(before, i);
      var f := files[i];
      ghost var repaired := RepairedAt(before, replies, i);
      if IsLikelyTruncated(f.content) {
        var reply := ReplyAt(replies, calls);
        calls := calls + 1;
        if Accepted(reply) {
          files[i] := FileRecord(f.path, f.content + "\n" + Unfence(reply.value.s));
        }
      }
      assert files[i] == repaired;
      i := i + 1;
    }
    assert before[..files.Length] == before;
  }

  // ---------------------------------------------------------------------------------
  // The response half of `process`

  /** What the response half of `process` yields before the files are written: the
      error that carries the raw text, or the repaired records. */
  datatype Outcome = NoValidFiles(rawContent: string) | Files(files: seq<FileRecord>)

  /** The replies left after the first `n` calls. */
  function Drop(replies: seq<Reply>, n: nat): (r: seq<Reply>)
    ensures forall i: nat :: ReplyAt(r, i) == ReplyAt(replies, n + i)
  {
    if n <= |replies| then replies[n..] else []
  }

  /** `repaired` is `parsed` after the repair loop, its calls answered by `replies`
      from index `start` on: each file keeps its path, and its content is repaired
      with the reply of the call numbered by how many files before it looked
      truncated. */
  predicate Repaired(parsed: seq<FileRecord>, replies: seq<Reply>, start: nat, repaired: seq<FileRecord>) {
    && |repaired| == |parsed|
    && forall i :: 0 <= i < |parsed| ==>
         repaired[i] == FileRecord(parsed[i].path,
           RepairedContent(parsed[i].content, ReplyAt(replies, start + TruncatedCount(parsed[..i]))))
  }

  /** The repair loop run on the replies left after `start` calls repairs as
      `Repaired` says. */
  lemma RepairedAfterDrop(parsed: seq<FileRecord>, replies: seq<Reply>, start: nat, repaired: seq<FileRecord>)
    requires |repaired| == |parsed|
    requires forall i :: 0 <= i < |parsed| ==>
      repaired[i] == FileRecord(parsed[i].path,
        RepairedContent(parsed[i].content, ReplyAt(Drop(replies, start), TruncatedCount(parsed[..i]))))
    ensures Repaired(parsed, replies, start, repaired)
  {
  }

  /** The default number of continuation attempts. */
  const MaxAttempts: int := 3

  /** From the first reply's text on: recovery with the default budget, the manifest,
      the per-file repair. The calls are answered by `replies` in order, recovery
      first. */
  method ProcessResponse(responseText: string, replies: seq<Reply>) returns (r: Outcome)
    ensures forall full, calls: nat :: RecoveryOutcome(responseText, replies, Budget(MaxAttempts), full, calls) ==>
      && (r.NoValidFiles? <==> Manifest(full) == [])
      && (r.NoValidFiles? ==> r.rawContent == full)
      && (r.Files? ==> Repaired(Manifest(full), replies, calls, r.files))
  {
    var full, calls := RecoverTruncatedResponse(responseText, replies, MaxAttempts);
    var files := ParseManifest(full);
    if files == [] {
      r := NoValidFiles(full);
    } else {
      var table := new FileRecord[|files|](k requires 0 <= k < |files| => files[k]);
      assert table[..] == files;
      var _ := RepairFiles(table, Drop(replies, calls));
      RepairedAfterDrop(files, replies, calls, table[..]);
      r := Files(table[..]);
    }
    forall other: string, otherCalls: nat
      | RecoveryOutcome(responseText, replies, Budget(MaxAttempts), other, otherCalls)
      ensures other == full && otherCalls == calls
    {
      RecoveryOutcomeUnique(responseText, replies, Budget(MaxAttempts), full, calls, other, otherCalls);
    }
  }
}
