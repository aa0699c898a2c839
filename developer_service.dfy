/** The JSON-recovery helpers of the developer service: `clean_json_string`, `parse_input`
    (without its URL and file branches), `extract_json` and the classification of the
    extracted payload in `process`. The backup copy of the service carries the same
    `clean_json_string` and `extract_json`; they are modelled here once. */
module DeveloperService {
  import opened PyStr
  import opened JsonValue

  const Fence: string := "```"
  const JsonFence: string := "```json"

  /** Three backticks start at index `i` of `s`. */
  predicate FenceAt(s: string, i: int) {
    0 <= i && i + 3 <= |s| && s[i] == '`' && s[i + 1] == '`' && s[i + 2] == '`'
  }

  /** `"```" in s` */
  predicate HasFence(s: string) {
    exists i :: 0 <= i < |s| && FenceAt(s, i)
  }

  /** The text `clean_json_string` balances: both fence markers removed, surrounding
      whitespace stripped, and the escaped quotes `\"` and `\'` turned into plain ones. */
  function Normalized(text: string): string {
    Unescaped(Strip(Unfenced(text)))
  }

  /** `text.replace('```json', '').replace('```', '')` */
  function Unfenced(text: string): string {
    Replace(Replace(text, JsonFence, ""), Fence, "")
  }

  /** `text.replace('\\"', '"').replace("\\'", "'")` */
  function Unescaped(text: string): string {
    Replace(Replace(text, ['\\', '"'], ['"']), ['\\', '\''], ['\''])
  }

  /** `clean_json_string` on a string: the normalized text with its braces balanced. */
  function CleanText(text: string): string {
    Balanced(Normalized(text))
  }

  /** The brace repair: as many `}` appended as the text has more `{` than `}`. */
  function Balanced(u: string): string {
    var opens, closes := Count(u, "{"), Count(u, "}");
    if opens > closes then u + Repeat('}', opens - closes) else u
  }

  /** What the repair promises: the text followed only by `}`; afterwards no `{` is left
      unclosed by count, and when anything was appended the counts are equal, so no
      more `}` were added than were missing; backtick-free text stays fence-free. */
  lemma BalancedCloses(u: string)
    ensures var r := Balanced(u);
      && |u| <= |r| && r[..|u|] == u
      && (forall i :: |u| <= i < |r| ==> r[i] == '}')
      && Count(r, "{") == Count(u, "{")
      && Count(r, "{") <= Count(r, "}")
      && (|r| > |u| ==> Count(r, "{") == Count(r, "}"))
      && (!HasFence(u) ==> !HasFence(r))
  {
    var opens, closes := Count(u, "{"), Count(u, "}");
    if opens > closes {
      var tail := Repeat('}', opens - closes);
      assert Balanced(u) == u + tail;
      CountCharAppend(u, tail, '{');
      CountCharAppend(u, tail, '}');
      CountRepeat('}', opens - closes, '{');
      CountRepeat('}', opens - closes, '}');
      if !HasFence(u) {
        AppendKeepsFenceFree(u, tail);
      }
    }
  }

  /** The cleaning as a whole: the normalized text followed only by the `}` it lacked,
      with no fence marker left. */
  lemma CleanTextBalances(text: string)
    ensures var u, r := Normalized(text), CleanText(text);
      && |u| <= |r| && r[..|u|] == u
      && (forall i :: |u| <= i < |r| ==> r[i] == '}')
      && Count(r, "{") <= Count(r, "}")
      && (|r| > |u| ==> Count(r, "{") == Count(r, "}"))
      && !HasFence(r)
  {
    NormalizedIsFenceFree(text);
    BalancedCloses(Normalized(text));
  }

  /** `clean_json_string(text)`: anything that is not a string comes back unchanged. */
  function CleanJsonString(v: Json): (r: Json)
    ensures !v.JStr? ==> r == v
    ensures v.JStr? ==> r.JStr? && !HasFence(r.s) && Count(r.s, "{") <= Count(r.s, "}")
  {
    if v.JStr? then CleanTextBalances(v.s); JStr(CleanText(v.s)) else v
  }

  lemma StartsWithFence(s: string)
    ensures StartsWith(s, Fence) <==> FenceAt(s, 0)
  {
    if |s| >= 3 && FenceAt(s, 0) {
      assert s[..3] == Fence;
    }
  }

  /** Removing every non-overlapping `"```"` leaves none: a run of backticks that stays
      after the scan is always shorter than three. */
  lemma {:induction false} RemovalLeavesNoFence(s: string)
    ensures !HasFence(Replace(s, Fence, ""))
    decreases |s|
  {
    var r := Replace(s, Fence, "");
    StartsWithFence(s);
    if |s| < 3 {
      assert r == s;
      forall i | FenceAt(r, i) ensures false { }
    } else if FenceAt(s, 0) {
      assert r == Replace(s[3..], Fence, "");
      RemovalLeavesNoFence(s[3..]);
    } else {
      var u := s[1..];
      var t := Replace(u, Fence, "");
      assert r == [s[0]] + t;
      RemovalLeavesNoFence(u);
      if s[0] == '`' {
        assert !FenceAt(u, 0);
        RemovalKeepsHead(u);
      }
      forall i | FenceAt(r, i) ensures false {
        if i > 0 {
          assert FenceAt(t, i - 1);
        }
      }
    }
  }

  /** A text that does not start with `"```"` keeps its first character (and its second,
      after a leading backtick) when the fences are removed. */
  lemma {:induction false} RemovalKeepsHead(u: string)
    requires |u| >= 1 && !FenceAt(u, 0)
    ensures var t := Replace(u, Fence, "");
      && |t| >= 1 && t[0] == u[0]
      && (u[0] == '`' && |u| >= 2 ==> |t| >= 2 && t[1] == u[1])
    decreases |u|
  {
    StartsWithFence(u);
    if |u| >= 3 {
      assert Replace(u, Fence, "") == [u[0]] + Replace(u[1..], Fence, "");
      if u[0] == '`' {
        assert !FenceAt(u[1..], 0);
        RemovalKeepsHead(u[1..]);
      }
    }
  }

  /** A slice of fence-free text is fence-free. */
  lemma SliceKeepsFenceFree(s: string, a: nat, b: nat)
    requires a <= b <= |s| && !HasFence(s)
    ensures !HasFence(s[a..b])
  {
    forall i | FenceAt(s[a..b], i) ensures false {
      assert FenceAt(s, a + i);
    }
  }

  /** Appending text without backticks keeps fence-free text fence-free. */
  lemma AppendKeepsFenceFree(a: string, b: string)
    requires !HasFence(a) && forall k :: 0 <= k < |b| ==> b[k] != '`'
    ensures !HasFence(a + b)
  {
    forall i | FenceAt(a + b, i) ensures false {
      if i + 3 <= |a| {
        assert FenceAt(a, i);
      }
    }
  }

  /** Un-escaping a quote other than a backtick creates no fence. */
  lemma {:induction false} UnescapeKeepsFenceFree(s: string, q: char)
    requires q != '`' && !HasFence(s)
    ensures !HasFence(Replace(s, ['\\', q], [q]))
    decreases |s|
  {
    var pat := ['\\', q];
    var r := Replace(s, pat, [q]);
    if |s| < 2 {
      assert r == s;
    } else if StartsWith(s, pat) {
      var t := Replace(s[2..], pat, [q]);
      assert r == [q] + t;
      SliceKeepsFenceFree(s, 2, |s|);
      assert s[2..|s|] == s[2..];
      UnescapeKeepsFenceFree(s[2..], q);
      forall i | FenceAt(r, i) ensures false {
        assert i > 0;
        assert FenceAt(t, i - 1);
      }
    } else {
      var t := Replace(s[1..], pat, [q]);
      assert r == [s[0]] + t;
      SliceKeepsFenceFree(s, 1, |s|);
      assert s[1..|s|] == s[1..];
      UnescapeKeepsFenceFree(s[1..], q);
      forall i | FenceAt(r, i) ensures false {
        if i > 0 {
          assert FenceAt(t, i - 1);
        } else {
          UnescapeTickHead(s[1..], q);
          assert s[1..][1..] == s[2..];
          UnescapeTickHead(s[2..], q);
          assert FenceAt(s, 0);
        }
      }
    }
  }

  /** An un-escaped text that starts with a backtick came from one that does. */
  lemma UnescapeTickHead(u: string, q: char)
    requires q != '`'
    requires var t := Replace(u, ['\\', q], [q]); |t| >= 1 && t[0] == '`'
    ensures |u| >= 1 && u[0] == '`'
    ensures Replace(u, ['\\', q], [q]) == [u[0]] + Replace(u[1..], ['\\', q], [q])
  {
    var pat := ['\\', q];
    if |u| < 2 {
      assert Replace(u, pat, [q]) == u;
      assert Replace(u[1..], pat, [q]) == u[1..];
    }
  }

  /** No fence marker survives the normalization. */
  lemma NormalizedIsFenceFree(text: string)
    ensures !HasFence(Normalized(text))
  {
    UnfencedIsFenceFree(text);
    StripKeepsFenceFree(Unfenced(text));
    UnescapedKeepsFenceFree(Strip(Unfenced(text)));
  }

  lemma UnfencedIsFenceFree(text: string)
    ensures !HasFence(Unfenced(text))
  {
    RemovalLeavesNoFence(Replace(text, JsonFence, ""));
  }

  lemma StripKeepsFenceFree(t: string)
    requires !HasFence(t)
    ensures !HasFence(Strip(t))
  {
    var i := StripIsSlice(t);
    SliceKeepsFenceFree(t, i, i + |Strip(t)|);
  }

  lemma UnescapedKeepsFenceFree(t: string)
    requires !HasFence(t)
    ensures !HasFence(Unescaped(t))
  {
    UnescapeKeepsFenceFree(t, '"');
    UnescapeKeepsFenceFree(Replace(t, ['\\', '"'], ['"']), '\'');
  }

  // ---------------------------------------------------------------------------------
  // parse_input

  /** What `parse_input` decides without touching the network or the disk: a value
      that is not a string is passed through, a string `json.loads` accepts gives its
      value, and any other string is left to the URL and file branches. */
  datatype ParsedInput = Parsed(value: Json) | Unresolved(text: string)

  function ParseInput(input: Json, parse: string -> Option<Json>): (r: ParsedInput)
    ensures r.Parsed? && !input.JStr? ==> r.value == input
    ensures r.Parsed? && input.JStr? ==> parse(input.s) == Some(r.value)
    ensures r.Unresolved? <==> input.JStr? && parse(input.s).None?
    ensures r.Unresolved? ==> r.text == input.s
  {
    if !input.JStr? then Parsed(input)
    else match parse(input.s)
      case Some(v) => Parsed(v)
      case None => Unresolved(input.s)
  }

  // ---------------------------------------------------------------------------------
  // extract_json

  /** The collaborators of `extract_json`: `json.loads` (`None` where it raises), and
      what its two `re.findall` scans return for a text. Both patterns are raw strings
      with doubled backslashes, so they look for literal backslashes; the candidates
      are taken as given rather than re-derived. */
  datatype Oracles = Oracles(
    parse: string -> Option<Json>,
    jsonBlocks: string -> seq<string>,
    braceObjects: string -> seq<string>)

  /** Index of the first block, from `from` on, whose cleaned form parses. */
  function FirstParsed(blocks: seq<string>, parse: string -> Option<Json>, from: nat): (r: Option<nat>)
    requires from <= |blocks|
    ensures r.Some? ==> from <= r.value < |blocks| && parse(CleanText(blocks[r.value])).Some?
    ensures r.Some? ==> forall j :: from <= j < r.value ==> parse(CleanText(blocks[j])).None?
    ensures r.None? ==> forall j :: from <= j < |blocks| ==> parse(CleanText(blocks[j])).None?
    decreases |blocks| - from
  {
    if from == |blocks| then None
    else if parse(CleanText(blocks[from])).Some? then Some(from)
    else FirstParsed(blocks, parse, from + 1)
  }

  /** Index of the candidate the longest-object scan holds after the first `n`
      candidates: a parseable candidate of maximal length, the earliest among equals
      (the scan replaces only on a strictly greater length, starting from 0, so a
      parseable empty candidate is never kept). */
  function Longest(objs: seq<string>, parse: string -> Option<Json>, n: nat): (r: Option<nat>)
    requires n <= |objs|
    ensures r.Some? ==> r.value < n && parse(objs[r.value]).Some? && |objs[r.value]| > 0
    ensures r.Some? ==> forall j :: 0 <= j < n && parse(objs[j]).Some? ==> |objs[j]| <= |objs[r.value]|
    ensures r.Some? ==> forall j :: 0 <= j < r.value && parse(objs[j]).Some? ==> |objs[j]| < |objs[r.value]|
    ensures r.None? ==> forall j :: 0 <= j < n && parse(objs[j]).Some? ==> |objs[j]| == 0
  {
    if n == 0 then None
    else
      var best := Longest(objs, parse, n - 1);
      var maxLen := if best.Some? then |objs[best.value]| else 0;
      if parse(objs[n - 1]).Some? && |objs[n - 1]| > maxLen then Some(n - 1) else best
  }

  /** The value of the first JSON block whose cleaned form parses, if any. */
  function BlockValue(blocks: seq<string>, parse: string -> Option<Json>): Option<Json> {
    var first := FirstParsed(blocks, parse, 0);
    if first.Some? then Some(parse(CleanText(blocks[first.value])).value) else None
  }

  /** The value of the longest parseable brace candidate, or `None` when there is none. */
  function LongestValue(objs: seq<string>, parse: string -> Option<Json>): Json {
    var best := Longest(objs, parse, |objs|);
    if best.Some? then parse(objs[best.value]).value else JNull
  }

  /** What `extract_json` returns, strategy by strategy: `None` for a non-string; the
      parse of the cleaned text if it parses; else the first JSON block whose cleaned
      form parses; else the longest parseable brace candidate; else `None`. */
  function Extraction(content: Json, o: Oracles): Json {
    if !content.JStr? then JNull
    else if o.parse(CleanText(content.s)).Some? then o.parse(CleanText(content.s)).value
    else if BlockValue(o.jsonBlocks(content.s), o.parse).Some? then BlockValue(o.jsonBlocks(content.s), o.parse).value
    else LongestValue(o.braceObjects(content.s), o.parse)
  }

  /** `extract_json(content)`. */
  method ExtractJson(content: Json, o: Oracles) returns (r: Json)
    ensures r == Extraction(content, o)
  {
    if !content.JStr? {
      return JNull;
    }
    var whole := o.parse(CleanText(content.s));
    if whole.Some? {
      return whole.value;
    }
    var block := FirstBlock(o.jsonBlocks(content.s), o.parse);
    if block.Some? {
      return block.value;
    }
    r := LongestObject(o.braceObjects(content.s), o.parse);
  }

  /** The block strategy of `extract_json`: try each block, cleaned, in order. */
  method FirstBlock(blocks: seq<string>, parse: string -> Option<Json>) returns (r: Option<Json>)
    ensures r == BlockValue(blocks, parse)
  {
    var i := 0;
    while i < |blocks|
      invariant i <= |blocks|
      invariant FirstParsed(blocks, parse, 0) == FirstParsed(blocks, parse, i)
    {
      var parsed := parse(CleanText(blocks[i]));
      if parsed.Some? {
        return Some(parsed.value);
      }
      i := i + 1;
    }
    return None;
  }

  /** The last strategy of `extract_json`: keep the parseable candidate of greatest
      length, replacing it only on a strictly greater length. */
  method LongestObject(objs: seq<string>, parse: string -> Option<Json>) returns (r: Json)
    ensures r == LongestValue(objs, parse)
  {
    var maxObj := JNull;
    var maxLen := 0;
    var j := 0;
    while j < |objs|
      invariant j <= |objs|
      invariant var best := Longest(objs, parse, j);
        && maxLen == (if best.Some? then |objs[best.value]| else 0)
        && maxObj == (if best.Some? then parse(objs[best.value]).value else JNull)
    {
      var parsed := parse(objs[j]);
      if parsed.Some? && |objs[j]| > maxLen {
        maxLen := |objs[j]|;
        maxObj := parsed.value;
      }
      j := j + 1;
    }
    return maxObj;
  }

  /** A JSON block that parses wins over any brace candidate, however much longer: the
      block strategy runs before the longest-object scan. */
  lemma BlockBeatsLongerObject(content: string, o: Oracles, i: nat)
    requires o.parse(CleanText(content)).None?
    requires i < |o.jsonBlocks(content)|
    requires o.parse(CleanText(o.jsonBlocks(content)[i])).Some?
    requires forall j :: 0 <= j < i ==> o.parse(CleanText(o.jsonBlocks(content)[j])).None?
    ensures Extraction(JStr(content), o) == o.parse(CleanText(o.jsonBlocks(content)[i])).value
  {
    var first := FirstParsed(o.jsonBlocks(content), o.parse, 0);
    assert first == Some(i);
  }

  // ---------------------------------------------------------------------------------
  // process: classification of the extracted payload

  function ErrorResult(message: string): Json {
    JObj(map["status" := JStr("error"), "error" := JStr(message)])
  }

  function Status(r: Json): Json {
    if r.JObj? then Get(r.fields, "status") else JNull
  }

  function Field(r: Json, key: string): Json {
    if r.JObj? then Get(r.fields, key) else JNull
  }

  /** The parsed input `process` works on: `parse_input`'s own decision, or, for a string
      it leaves to the URL and file branches, what those branches produced (`fetched`). */
  function InputValue(input: Json, fetched: Result<Json>, parse: string -> Option<Json>): Result<Json> {
    match ParseInput(input, parse)
    case Parsed(v) => Success(v)
    case Unresolved(_) => fetched
  }

  /** `process(input_data)` after the request is built: `fetched` stands for the URL or
      file branch of `parse_input`, `response` for the one call to the endpoint. Every
      path yields a status dict; exceptions become `{"status": "error", ...}`. */
  method Process(input: Json, fetched: Result<Json>, response: Reply, o: Oracles) returns (r: Json)
    ensures Status(r) == JStr("success") || Status(r) == JStr("error")
    ensures InputValue(input, fetched, o.parse).Failure? ==>
      r == ErrorResult(InputValue(input, fetched, o.parse).error)
    ensures InputValue(input, fetched, o.parse).Success? && !Truthy(InputValue(input, fetched, o.parse).value) ==>
      r == ErrorResult("Could not parse input data")
    ensures Status(r) == JStr("success") ==>
      && response.Success?
      && Field(r, "implementation") == Extraction(response.value, o)
      && Truthy(Field(r, "implementation"))
      && Field(r, "format_version") == JStr("1.0")
    ensures InputValue(input, fetched, o.parse).Success? && Truthy(InputValue(input, fetched, o.parse).value) ==>
      && (response.Failure? ==> r == ErrorResult(response.error))
      && (response.Success? ==> (Status(r) == JStr("success") <==> Truthy(Extraction(response.value, o))))
      && (response.Success? && !Truthy(Extraction(response.value, o)) ==> Field(r, "raw_content") == response.value)
  {
    var parsedInput: Json;
    match InputValue(input, fetched, o.parse) {
      case Failure(e) =>
        return ErrorResult(e);
      case Success(v) =>
        parsedInput := v;
    }
    if !Truthy(parsedInput) {
      return ErrorResult("Could not parse input data");
    }
    if response.Failure? {
      return ErrorResult(response.error);
    }
    var content := response.value;
    var implementation := ExtractJson(content, o);
    if !Truthy(implementation) {
      return JObj(map[
        "status" := JStr("error"),
        "error" := JStr("Could not extract valid JSON from response"),
        "raw_content" := content]);
    }
    return JObj(map[
      "status" := JStr("success"),
      "implementation" := implementation,
      "format_version" := JStr("1.0")]);
  }
}
