/** What every agent shares: recovering the JSON text from a model reply,
    the thinking budget of a thinking level, the system prompt, and the
    patient-context and knowledge blocks put into prompts. */
module BaseAgent {
  import opened Wrappers
  import opened Text
  import opened PyValue

  // ---------------------------------------------------------------------
  // JSON text of a model reply

  /** The content of the first fenced block: the text after the first
      "```" (and an optional "json" label and the whitespace after it) up
      to the next "```"; `None` when there is no closing fence. */
  function FenceContent(s: string): (r: Option<string>)
    ensures r.Some? ==> |r.value| <= |s|
  {
    match IndexOf(s, "```", 0)
    case None => None
    case Some(p) =>
      var j := if p + 7 <= |s| && s[p + 3..p + 7] == "json" then p + 7 else p + 3;
      var c := SkipSpace(s, j);
      match IndexOf(s, "```", c)
      case None => None
      case Some(q) => Some(s[c..q])
  }

  predicate IsBracket(c: char) { c == '{' || c == '[' }

  /** The index of the first '{' or '['. */
  function FirstBracket(s: string): (r: Option<nat>)
    ensures r.Some? ==> r.value < |s| && IsBracket(s[r.value])
    ensures r.Some? ==> forall i :: 0 <= i < r.value ==> !IsBracket(s[i])
    ensures r.None? ==> forall i :: 0 <= i < |s| ==> !IsBracket(s[i])
  {
    if s == [] then None
    else if IsBracket(s[0]) then Some(0)
    else match FirstBracket(s[1..])
      case None => None
      case Some(i) => Some(i + 1)
  }

  /** `_extract_json_text`: the reply stripped, narrowed to the stripped
      content of its first fenced block when there is one, then cut to
      start at the first '{' or '['. The result starts with a bracket or
      contains none. */
  function ExtractJsonText(text: string): (r: string)
    ensures r == [] || IsBracket(r[0]) || forall i :: 0 <= i < |r| ==> !IsBracket(r[i])
  {
    var stripped := Strip(text);
    var body := match FenceContent(stripped) case Some(g) => Strip(g) case None => stripped;
    match FirstBracket(body)
    case Some(i) => body[i..]
    case None => body
  }

  /** A reply that is already a JSON object, with no fence, is kept as
      it is, stripped. */
  lemma PlainObjectKept(text: string)
    requires Strip(text) != [] && Strip(text)[0] == '{'
    requires forall i :: 0 <= i ==> !OccursAt(Strip(text), "```", i)
    ensures ExtractJsonText(text) == Strip(text)
  {
    assert FirstBracket(Strip(text)) == Some(0);
  }

  /** A reply without any bracket is returned stripped. */
  lemma NoBracketKept(text: string)
    requires forall i :: 0 <= i ==> !OccursAt(Strip(text), "```", i)
    requires forall i :: 0 <= i < |Strip(text)| ==> !IsBracket(Strip(text)[i])
    ensures ExtractJsonText(text) == Strip(text)
  {
  }

  /** Only the first fenced block counts: a labelled block holding an
      object is reduced to that object, whatever follows its closing
      fence. */
  lemma FencedObject(body: string, rest: string)
    requires body != [] && body[0] == '{'
    requires forall i :: 0 <= i < |body| ==> body[i] != '`'
    requires rest == [] || !IsSpace(rest[|rest| - 1])
    ensures ExtractJsonText("```json\n" + body + "```" + rest) == Strip(body)
  {
    var t := "```json\n" + body + "```" + rest;
    FencedTextStripped(body, rest);
    FencedContent(body, rest);
    assert !IsSpace(body[0]);
    assert Strip(body)[0] == '{';
    assert FirstBracket(Strip(body)) == Some(0);
  }

  lemma FencedTextStripped(body: string, rest: string)
    requires rest == [] || !IsSpace(rest[|rest| - 1])
    ensures Strip("```json\n" + body + "```" + rest) == "```json\n" + body + "```" + rest
  {
    var t := "```json\n" + body + "```" + rest;
    assert t[0] == '`';
    if rest == [] {
      assert t[|t| - 1] == '`';
    } else {
      assert t[|t| - 1] == rest[|rest| - 1];
    }
    StripOfStripped(t);
  }

  lemma FencedContent(body: string, rest: string)
    requires forall i :: 0 <= i < |body| ==> body[i] != '`'
    requires body != [] && !IsSpace(body[0])
    ensures FenceContent("```json\n" + body + "```" + rest) == Some(body)
  {
    var t := "```json\n" + body + "```" + rest;
    var n := 8 + |body|;
    FenceLayout(body, rest);
    assert OccursAt(t, "```", 0);
    IndexOfFirst(t, "```", 0, 0);
    assert SkipSpace(t, 8) == 8;
    assert SkipSpace(t, 7) == 8;
    forall i | 8 <= i < n ensures !OccursAt(t, "```", i) {
      assert t[i] == body[i - 8] != '`';
      if i + 3 <= |t| {
        assert t[i..i + 3][0] == t[i];
      }
      assert !OccursAt(t, "```", i);
    }
    IndexOfFirst(t, "```", 8, n);
  }

  /** Where the parts of a labelled fenced text sit. */
  lemma FenceLayout(body: string, rest: string)
    ensures var t := "```json\n" + body + "```" + rest;
            var n := 8 + |body|;
            |t| == n + 3 + |rest| && t[..3] == "```" && t[3..7] == "json" && t[7] == '\n' &&
            t[8..n] == body && (forall i :: 8 <= i < n ==> t[i] == body[i - 8]) && OccursAt(t, "```", n)
  {
    var pre := "```json\n" + body;
    var t := pre + "```" + rest;
    var n := 8 + |body|;
    assert t[..n] == pre;
    assert t[n..n + 3] == "```";
  }

  // ---------------------------------------------------------------------
  // Thinking budget and system prompt

  /** `_get_thinking_budget`: low 1024, medium 8192, high 24576, anything
      else the medium budget. */
  function ThinkingBudget(level: string): (r: nat)
    ensures r in {1024, 8192, 24576}
    ensures level != "low" && level != "high" ==> r == 8192
  {
    if level == "low" then 1024
    else if level == "medium" then 8192
    else if level == "high" then 24576
    else 8192
  }

  lemma ThinkingBudgets()
    ensures ThinkingBudget("low") == 1024 && ThinkingBudget("medium") == 8192 && ThinkingBudget("high") == 24576
    ensures ThinkingBudget("max") == 8192 && ThinkingBudget("") == 8192
  {
  }

  /** The prompt every agent shares unless an organisation overrides it. */
  const SHARED_SYSTEM_PROMPT: string :=
    "あなたは家庭医療に精通したAIアシスタントです。\nBio-Psycho-Socialフレームワークに基づいて患者を全人的に評価します。\n\n原則:\n- 看護・薬学・社会福祉の視点も含めたBPS統合評価を行う\n- エビデンスベースの臨床推論を提供する\n- 日本の在宅医療制度・介護保険制度の知識を持つ\n- 患者の経時変化の文脈を理解した回答を生成する\n- 不確実な情報には確信度を付与する\n- 判断に迷う場合は「主治医への相談を推奨」と明示する\n\nRAGナレッジベースから取得した知識は [KNOWLEDGE] タグで参照可能。\n患者のFirestoreデータは [PATIENT_CONTEXT] タグで参照可能。\n"

  /** The agent's system prompt: the shared prompt (the organisation's
      whenever one is given, even an empty one), a blank line and the
      agent's own prompt, stripped. */
  function SystemPrompt(shared: Option<string>, custom: Option<string>): string {
    var base := if shared.Some? then shared.value else SHARED_SYSTEM_PROMPT;
    var own := if custom.Some? then custom.value else "";
    Strip(base + "\n\n" + own)
  }

  /** An empty organisation prompt replaces the shared one: the agent's
      own prompt is all that is left. */
  lemma EmptySharedPromptOverrides(custom: string)
    requires custom == [] || (!IsSpace(custom[0]) && !IsSpace(custom[|custom| - 1]))
    ensures SystemPrompt(Some(""), Some(custom)) == custom
  {
    var t := "" + "\n\n" + custom;
    assert t == "\n\n" + custom;
    assert AllSpace("\n\n");
    if custom == [] {
      assert t == "\n\n";
      StripEmptyIff(t);
    } else {
      StripLeadingSpaces("\n\n", custom);
    }
  }

  /** Two stripped prompts are joined by a blank line. */
  lemma PromptsJoined(base: string, custom: string)
    requires base != [] && !IsSpace(base[0]) && !IsSpace(base[|base| - 1])
    requires custom != [] && !IsSpace(custom[|custom| - 1])
    ensures SystemPrompt(Some(base), Some(custom)) == base + "\n\n" + custom
  {
    var t := base + "\n\n" + custom;
    assert t[0] == base[0] && t[|t| - 1] == custom[|custom| - 1];
    StripOfStripped(t);
  }

  // ---------------------------------------------------------------------
  // Prompt blocks

  /** One entry of `_summarize_bps_section`: `None` for a falsy value. */
  function SectionItem(key: string, value: Value): Option<string> {
    if !Truthy(value) then None
    else if value.VList? then Some(key + ": " + Join(StrAll(value.items), ", "))
    else Some(key + ": " + Str(value))
  }

  function SectionItems(entries: seq<(string, Value)>): (r: seq<string>)
    ensures |r| <= |entries|
  {
    if entries == [] then []
    else
      var e := entries[|entries| - 1];
      SectionItems(entries[..|entries| - 1]) + match SectionItem(e.0, e.1) case None => [] case Some(item) => [item]
  }

  /** `_summarize_bps_section`: the truthy entries, "; "-separated, or
      "特記なし" when there are none. */
  function SectionSummary(entries: seq<(string, Value)>): string {
    var items := SectionItems(entries);
    if items == [] then "特記なし" else Join(items, "; ")
  }

  /** Falsy values are skipped: a section of falsy values only has
      nothing to report. */
  lemma {:induction false} FalsySectionEmpty(entries: seq<(string, Value)>)
    requires forall i :: 0 <= i < |entries| ==> !Truthy(entries[i].1)
    ensures SectionItems(entries) == []
    ensures SectionSummary(entries) == "特記なし"
  {
    if entries != [] {
      FalsySectionEmpty(entries[..|entries| - 1]);
    }
  }

  /** A truthy list is shown as its items joined with ", ". */
  lemma ListItem(key: string, items: seq<Value>)
    requires items != []
    ensures SectionItem(key, VList(items)) == Some(key + ": " + Join(StrAll(items), ", "))
  {
  }

  /** The entry loop of `_summarize_bps_section`. */
  method SummarizeSection(entries: seq<(string, Value)>) returns (r: string)
    ensures r == SectionSummary(entries)
  {
    var items: seq<string> := [];
    var i := 0;
    while i < |entries|
      invariant 0 <= i <= |entries|
      invariant items == SectionItems(entries[..i])
    {
      assert entries[..i + 1][..i] == entries[..i];
      var (key, value) := entries[i];
      if Truthy(value) {
        if value.VList? {
          items := items + [key + ": " + Join(StrAll(value.items), ", ")];
        } else {
          items := items + [key + ": " + Str(value)];
        }
      }
      i := i + 1;
    }
    assert entries[..i] == entries;
    r := if items == [] then "特記なし" else Join(items, "; ");
  }

  /** A BPS line of the patient context: none for a falsy section, `None`
      where summarising raises (a truthy section that is not a dict). */
  function BpsLine(heading: string, section: Value): (r: Option<seq<string>>)
    ensures r.Some? ==> |r.value| <= 1
  {
    if !Truthy(section) then Some([])
    else if !section.VDict? then None
    else Some([heading + SectionSummary(section.entries)])
  }

  /** The five fixed lines of the patient block: the tag, then name, age,
      gender and diagnosis, each with its placeholder when missing. */
  function ContextHead(patient: seq<(string, Value)>): (r: seq<string>)
    ensures |r| == 5 && r[0] == "[PATIENT_CONTEXT]"
  {
    ["[PATIENT_CONTEXT]",
     "患者名: " + Str(GetOr(patient, "name", VStr("不明"))),
     "年齢: " + Str(GetOr(patient, "age", VStr("不明"))) + "歳",
     "性別: " + Str(GetOr(patient, "gender", VStr("不明"))),
     "主病名: " + Str(GetOr(patient, "primary_diagnosis", VStr("未設定")))]
  }

  /** The lines of `build_patient_context`: the header, name, age, gender
      and diagnosis, a summary line per non-empty section of a truthy
      context, and the footer. */
  function PatientContextLines(patient: seq<(string, Value)>, context: Value): Option<seq<string>> {
    var head := ContextHead(patient);
    if !Truthy(context) then Some(head + ["[/PATIENT_CONTEXT]"])
    else if !context.VDict? then None
    else match SectionLines(context.entries)
      case None => None
      case Some(lines) => Some(head + lines + ["[/PATIENT_CONTEXT]"])
  }

  /** The summary lines of a truthy context's bio, psycho and social
      sections, in that order; `None` when one of them raises. */
  function SectionLines(c: seq<(string, Value)>): (r: Option<seq<string>>)
    ensures r.Some? ==> |r.value| <= 3
  {
    match BpsLine("Bio概要: ", GetOr(c, "bio", VDict([])))
    case None => None
    case Some(b) =>
      match BpsLine("Psycho概要: ", GetOr(c, "psycho", VDict([])))
      case None => None
      case Some(p) =>
        match BpsLine("Social概要: ", GetOr(c, "social", VDict([])))
        case None => None
        case Some(s) => Some(b + p + s)
  }

  function BuildPatientContext(patient: seq<(string, Value)>, context: Value): Option<string> {
    match PatientContextLines(patient, context)
    case None => None
    case Some(lines) => Some(Join(lines, "\n"))
  }

  /** The block always opens and closes with its tags, and holds six to
      nine lines: the five fixed ones, up to three section lines and the
      footer. */
  lemma PatientContextFramed(patient: seq<(string, Value)>, context: Value)
    requires PatientContextLines(patient, context).Some?
    ensures var lines := PatientContextLines(patient, context).value;
            5 < |lines| <= 9 && lines[0] == "[PATIENT_CONTEXT]" && lines[|lines| - 1] == "[/PATIENT_CONTEXT]"
  {
  }
  /** A stored section summarises without raising: it is falsy or a dict. */
  predicate SectionRenderable(section: Value) {
    !Truthy(section) || section.VDict?
  }

  /** The stored context renders: it is falsy, or a dict whose three
      sections each render. */
  predicate ContextRenderable(context: Value) {
    !Truthy(context) ||
    (context.VDict? && SectionRenderable(GetOr(context.entries, "bio", VDict([]))) &&
     SectionRenderable(GetOr(context.entries, "psycho", VDict([]))) &&
     SectionRenderable(GetOr(context.entries, "social", VDict([]))))
  }

  /** The patient block raises exactly when the stored context does not
      render; the patient record itself never makes it raise. */
  lemma PatientContextRenders(patient: seq<(string, Value)>, context: Value)
    ensures PatientContextLines(patient, context).Some? <==> ContextRenderable(context)
  {
    if Truthy(context) && context.VDict? {
      SectionLinesRender(context.entries);
    }
  }

  /** The section lines render exactly when each of the three sections
      does. */
  lemma SectionLinesRender(c: seq<(string, Value)>)
    ensures SectionLines(c).Some? <==>
              SectionRenderable(GetOr(c, "bio", VDict([]))) && SectionRenderable(GetOr(c, "psycho", VDict([]))) &&
              SectionRenderable(GetOr(c, "social", VDict([])))
  {
    BpsLineRenders("Bio概要: ", GetOr(c, "bio", VDict([])));
    BpsLineRenders("Psycho概要: ", GetOr(c, "psycho", VDict([])));
    BpsLineRenders("Social概要: ", GetOr(c, "social", VDict([])));
  }

  lemma BpsLineRenders(heading: string, section: Value)
    ensures BpsLine(heading, section).Some? <==> SectionRenderable(section)
  {
  }

  /** Empty sections get no line: a context whose sections are all empty
      gives the same block as no context. */
  lemma EmptySectionsOmitted(patient: seq<(string, Value)>)
    ensures PatientContextLines(patient, VDict([("bio", VDict([])), ("psycho", VDict([])), ("social", VDict([]))])) ==
            PatientContextLines(patient, VNone)
  {
    var c := [("bio", VDict([])), ("psycho", VDict([])), ("social", VDict([]))];
    EmptySectionsNoLines();
    NoSectionLines(patient, c);
  }

  lemma EmptySectionsNoLines()
    ensures SectionLines([("bio", VDict([])), ("psycho", VDict([])), ("social", VDict([]))]) == Some([])
  {
    var c := [("bio", VDict([])), ("psycho", VDict([])), ("social", VDict([]))];
    EmptySectionsRead();
    assert BpsLine("Bio概要: ", GetOr(c, "bio", VDict([]))) == Some([]);
    assert BpsLine("Psycho概要: ", GetOr(c, "psycho", VDict([]))) == Some([]);
    assert BpsLine("Social概要: ", GetOr(c, "social", VDict([]))) == Some([]);
  }

  /** A truthy context whose sections all give no line frames just the
      fixed lines. */
  lemma NoSectionLines(patient: seq<(string, Value)>, c: seq<(string, Value)>)
    requires c != [] && SectionLines(c) == Some([])
    ensures PatientContextLines(patient, VDict(c)) == Some(ContextHead(patient) + ["[/PATIENT_CONTEXT]"])
    ensures PatientContextLines(patient, VNone) == Some(ContextHead(patient) + ["[/PATIENT_CONTEXT]"])
  {
    var head := ContextHead(patient);
    assert head + [] + ["[/PATIENT_CONTEXT]"] == head + ["[/PATIENT_CONTEXT]"];
  }

  lemma EmptySectionsRead()
    ensures var c := [("bio", VDict([])), ("psycho", VDict([])), ("social", VDict([]))];
            GetOr(c, "bio", VDict([])) == VDict([]) && GetOr(c, "psycho", VDict([])) == VDict([]) &&
            GetOr(c, "social", VDict([])) == VDict([])
  {
    var c := [("bio", VDict([])), ("psycho", VDict([])), ("social", VDict([]))];
    assert "psycho" != "bio" && "social" != "bio" && "social" != "psycho";
    LookupAt(c, 0);
    LookupAt(c, 1);
    LookupAt(c, 2);
  }

  /** The four lines of one knowledge chunk. The text is appended as it
      is stored, so `"\n".join` raises unless it is a string. */
  function ChunkLines(chunk: Value): Option<seq<string>> {
    if !chunk.VDict? then None
    else
      var e := chunk.entries;
      var text := GetOr(e, "text", VStr(""));
      if !text.VStr? then None
      else
        Some(["Source: " + Str(GetOr(e, "source", VStr("不明"))) + " (" + Str(GetOr(e, "category", VStr(""))) + ")",
              "---",
              text.s,
              ""])
  }

  /** A chunk renders exactly when it is a dict whose text is a string;
      the text is then its third line, after the source and a rule. */
  lemma ChunkRenders(chunk: Value)
    ensures ChunkLines(chunk).Some? <==> chunk.VDict? && GetOr(chunk.entries, "text", VStr("")).VStr?
    ensures ChunkLines(chunk).Some? ==>
              var r := ChunkLines(chunk).value;
              |r| == 4 && r[1] == "---" && r[3] == "" && r[2] == GetOr(chunk.entries, "text", VStr("")).s
  {
  }

  function ChunksLines(chunks: seq<Value>): (r: Option<seq<string>>)
    ensures r.Some? ==> |r.value| == 4 * |chunks|
  {
    if chunks == [] then Some([])
    else match ChunksLines(chunks[..|chunks| - 1])
      case None => None
      case Some(init) =>
        match ChunkLines(chunks[|chunks| - 1])
        case None => None
        case Some(last) => Some(init + last)
  }

  /** The chunks render exactly when every one of them does. */
  lemma {:induction false} ChunksLinesIff(chunks: seq<Value>)
    ensures ChunksLines(chunks).Some? <==> forall i :: 0 <= i < |chunks| ==> ChunkLines(chunks[i]).Some?
  {
    if chunks != [] {
      var n := |chunks| - 1;
      var init := chunks[..n];
      ChunksLinesIff(init);
      ChunksLinesStep(chunks, n);
      assert chunks[..n + 1] == chunks;
      if ChunksLines(chunks).Some? {
        forall i | 0 <= i < |chunks| ensures ChunkLines(chunks[i]).Some? {
          if i < n {
            assert init[i] == chunks[i] && ChunkLines(init[i]).Some?;
          } else {
            assert i == n;
          }
        }
      } else if ChunksLines(init).Some? {
        assert ChunkLines(chunks[n]).None?;
      } else {
        var j :| 0 <= j < n && ChunkLines(init[j]).None?;
        assert init[j] == chunks[j];
      }
    }
  }

  /** One more chunk appends its lines, or fails. */
  lemma ChunksLinesStep(chunks: seq<Value>, i: nat)
    requires i < |chunks|
    ensures ChunksLines(chunks[..i + 1]) ==
              match ChunksLines(chunks[..i])
              case None => None
              case Some(init) =>
                match ChunkLines(chunks[i])
                case None => None
                case Some(last) => Some(init + last)
  {
    assert chunks[..i + 1][..i] == chunks[..i];
    assert chunks[..i + 1][i] == chunks[i];
  }

  /** A chunk whose text is not a string makes the block raise. */
  lemma NonTextChunkFails(chunks: seq<Value>, i: nat)
    requires i < |chunks| && chunks[i].VDict? && !GetOr(chunks[i].entries, "text", VStr("")).VStr?
    ensures KnowledgeBlock(chunks).None?
  {
    ChunkRenders(chunks[i]);
    ChunksLinesIff(chunks);
  }

  /** `build_knowledge_block`: "" for no chunks, else the tagged block. */
  function KnowledgeBlock(chunks: seq<Value>): Option<string> {
    if chunks == [] then Some("")
    else match ChunksLines(chunks)
      case None => None
      case Some(lines) => Some(Join(["[KNOWLEDGE]"] + lines + ["[/KNOWLEDGE]"], "\n"))
  }

  /** A chunk renders: a dict whose text is a string. */
  predicate ChunkRenderable(chunk: Value) {
    chunk.VDict? && GetOr(chunk.entries, "text", VStr("")).VStr?
  }

  /** The knowledge block raises exactly when some chunk does not render. */
  lemma KnowledgeBlockRenders(chunks: seq<Value>)
    ensures KnowledgeBlock(chunks).Some? <==> forall i :: 0 <= i < |chunks| ==> ChunkRenderable(chunks[i])
  {
    ChunksLinesIff(chunks);
    forall i | 0 <= i < |chunks| ensures ChunkLines(chunks[i]).Some? <==> ChunkRenderable(chunks[i]) {
      ChunkRenders(chunks[i]);
    }
  }

  /** The block has four lines per chunk between its tags. */
  lemma KnowledgeBlockShape(chunks: seq<Value>)
    requires chunks != [] && ChunksLines(chunks).Some?
    ensures var lines := ["[KNOWLEDGE]"] + ChunksLines(chunks).value + ["[/KNOWLEDGE]"];
            |lines| == 4 * |chunks| + 2 && KnowledgeBlock(chunks) == Some(Join(lines, "\n"))
  {
  }

  /** The chunk loop of `build_knowledge_block`. */
  method BuildKnowledgeBlock(chunks: seq<Value>) returns (r: Option<string>)
    ensures r == KnowledgeBlock(chunks)
    ensures chunks == [] ==> r == Some("")
  {
    if chunks == [] {
      return Some("");
    }
    var lines := ChunksLinesLoop(chunks);
    if lines.None? {
      return None;
    }
    r := Some(Join(["[KNOWLEDGE]"] + lines.value + ["[/KNOWLEDGE]"], "\n"));
  }

  /** The loop over the chunks, appending each chunk's four lines. */
  method ChunksLinesLoop(chunks: seq<Value>) returns (r: Option<seq<string>>)
    ensures r == ChunksLines(chunks)
  {
    var parts: seq<string> := [];
    var i := 0;
    while i < |chunks|
      invariant 0 <= i <= |chunks|
      invariant ChunksLines(chunks[..i]) == Some(parts)
    {
      var lines := ChunkLines(chunks[i]);
      ChunksLinesNext(chunks, i, parts);
      if lines.None? {
        ChunksLinesFailed(chunks, i + 1);
        return None;
      }
      parts := parts + lines.value;
      i := i + 1;
    }
    assert chunks[..i] == chunks;
    r := Some(parts);
  }

  lemma ChunksLinesNext(chunks: seq<Value>, i: nat, done: seq<string>)
    requires i < |chunks| && ChunksLines(chunks[..i]) == Some(done)
    ensures ChunkLines(chunks[i]).None? ==> ChunksLines(chunks[..i + 1]).None?
    ensures ChunkLines(chunks[i]).Some? ==> ChunksLines(chunks[..i + 1]) == Some(done + ChunkLines(chunks[i]).value)
  {
    ChunksLinesStep(chunks, i);
  }

  /** A chunk that raises makes the whole block raise. */
  lemma {:induction false} ChunksLinesFailed(chunks: seq<Value>, n: nat)
    requires n <= |chunks| && ChunksLines(chunks[..n]).None?
    ensures ChunksLines(chunks).None?
    decreases |chunks| - n
  {
    if n < |chunks| {
      assert chunks[..n + 1][..n] == chunks[..n];
      ChunksLinesFailed(chunks, n + 1);
    } else {
      assert chunks[..n] == chunks;
    }
  }
}
