/** The intake agent's deterministic parts: merging a structured
    (bio-psycho-social) report into the patient's stored context, the
    section summaries and confirmation text posted to Slack, and the
    outcomes of processing one report. The model call that structures the
    report is its parsed response, a parameter. */
module IntakeAgent {
  import opened Wrappers
  import opened Text
  import opened PyValue
  import BaseAgent

  type Dict = seq<(string, Value)>

  /** The context a patient without one starts from. */
  function EmptyContext(): Dict {
    [("bio", VDict([])), ("psycho", VDict([])), ("social", VDict([]))]
  }

  // ---------------------------------------------------------------------
  // Context merge

  /** The inner loop of `_update_context`: every truthy new value is
      stored under its key, in order; falsy ones are skipped. */
  function MergeValues(prev: Dict, incoming: Dict): Dict {
    if incoming == [] then prev
    else
      var merged := MergeValues(prev, incoming[..|incoming| - 1]);
      var e := incoming[|incoming| - 1];
      if Truthy(e.1) then Put(merged, e.0, e.1) else merged
  }

  predicate AnyTruthy(entries: Dict) {
    exists i :: 0 <= i < |entries| && Truthy(entries[i].1)
  }

  /** The value a key has after the merge: the new one when it is truthy,
      else the old one (or none). */
  lemma {:induction false} LookupMergeValues(prev: Dict, incoming: Dict, k: string)
    requires UniqueKeys(incoming)
    ensures Lookup(MergeValues(prev, incoming), k) ==
              if Lookup(incoming, k).Some? && Truthy(Lookup(incoming, k).value) then Lookup(incoming, k) else Lookup(prev, k)
  {
    if incoming != [] {
      var init, e := incoming[..|incoming| - 1], incoming[|incoming| - 1];
      LastKeyFresh(incoming);
      LookupSnoc(init, e, k);
      LookupMergeValues(prev, init, k);
      if Truthy(e.1) {
        LookupPut(MergeValues(prev, init), e.0, e.1, k);
      }
    }
  }

  /** Merging with no truthy new value changes nothing. */
  lemma {:induction false} MergeNothingTruthy(prev: Dict, incoming: Dict)
    requires !AnyTruthy(incoming)
    ensures MergeValues(prev, incoming) == prev
  {
    if incoming != [] {
      MergeNothingTruthy(prev, incoming[..|incoming| - 1]);
    }
  }

  /** One section of `_update_context`; `None` where the Python raises (a
      truthy new section that is not a dict, or a stored section that is
      not a dict when a value is to be stored into it). */
  function MergeSection(current: Dict, section: string, bps: Dict): Option<Dict> {
    var ns := GetOr(bps, section, VDict([]));
    if !Truthy(ns) then Some(current)
    else if !ns.VDict? then None
    else
      var base := if section in Keys(current) then current else Put(current, section, VDict([]));
      var prev := GetOr(base, section, VDict([]));
      if prev.VDict? then Some(Put(base, section, VDict(MergeValues(prev.entries, ns.entries))))
      else if AnyTruthy(ns.entries) then None
      else Some(base)
  }

  /** The context `_update_context` writes back: the stored one, or the
      empty one when there is none (or it is empty), with the three
      sections merged in order. */
  function MergeContext(current: Option<Dict>, bps: Dict): Option<Dict> {
    var start := if current.None? || current.value == [] then EmptyContext() else current.value;
    match MergeSection(start, "bio", bps)
    case None => None
    case Some(c1) =>
      match MergeSection(c1, "psycho", bps)
      case None => None
      case Some(c2) => MergeSection(c2, "social", bps)
  }

  /** A patient without a context gets the three empty sections, merged. */
  lemma MissingContextStartsEmpty(bps: Dict)
    requires !Truthy(GetOr(bps, "bio", VDict([]))) && !Truthy(GetOr(bps, "psycho", VDict([])))
    requires !Truthy(GetOr(bps, "social", VDict([])))
    ensures MergeContext(None, bps) == Some(EmptyContext())
    ensures MergeContext(Some([]), bps) == Some(EmptyContext())
  {
  }

  /** A section merge leaves every other key as it was. */
  lemma MergeSectionKeepsOthers(current: Dict, section: string, bps: Dict, k: string)
    requires k != section && MergeSection(current, section, bps).Some?
    ensures Lookup(MergeSection(current, section, bps).value, k) == Lookup(current, k)
  {
    var ns := GetOr(bps, section, VDict([]));
    if Truthy(ns) {
      var base := if section in Keys(current) then current else Put(current, section, VDict([]));
      if section !in Keys(current) {
        LookupPut(current, section, VDict([]), k);
      }
      var prev := GetOr(base, section, VDict([]));
      if prev.VDict? {
        LookupPut(base, section, VDict(MergeValues(prev.entries, ns.entries)), k);
      }
    }
  }

  /** The merge touches only the bio, psycho and social keys: every other
      key of the context keeps its value. */
  lemma MergeKeepsOtherKeys(current: Dict, bps: Dict, k: string)
    requires current != [] && MergeContext(Some(current), bps).Some?
    requires k != "bio" && k != "psycho" && k != "social"
    ensures Lookup(MergeContext(Some(current), bps).value, k) == Lookup(current, k)
  {
    var c1 := MergeSection(current, "bio", bps).value;
    MergeSectionKeepsOthers(current, "bio", bps, k);
    var c2 := MergeSection(c1, "psycho", bps).value;
    MergeSectionKeepsOthers(c1, "psycho", bps, k);
    MergeSectionKeepsOthers(c2, "social", bps, k);
  }

  /** Within a merged section, a key takes the new value when that is
      truthy and keeps its old value otherwise. */
  lemma MergeSectionValue(current: Dict, section: string, bps: Dict, prev: Dict, incoming: Dict, k: string)
    requires Lookup(bps, section) == Some(VDict(incoming)) && incoming != [] && UniqueKeys(incoming)
    requires Lookup(current, section) == Some(VDict(prev))
    ensures MergeSection(current, section, bps).Some?
    ensures Lookup(MergeSection(current, section, bps).value, section) == Some(VDict(MergeValues(prev, incoming)))
    ensures Lookup(MergeValues(prev, incoming), k) ==
              if Lookup(incoming, k).Some? && Truthy(Lookup(incoming, k).value) then Lookup(incoming, k) else Lookup(prev, k)
  {
    LookupPut(current, section, VDict(MergeValues(prev, incoming)), section);
    LookupMergeValues(prev, incoming, k);
  }

  /** The merge loop of `_update_context`, section by section and, within
      a truthy section, value by value. */
  method UpdateContext(current: Option<Dict>, bps: Dict) returns (merged: Option<Dict>)
    ensures merged == MergeContext(current, bps)
  {
    var ctx := if current.None? || current.value == [] then EmptyContext() else current.value;
    var sections := ["bio", "psycho", "social"];
    var i := 0;
    while i < 3
      invariant 0 <= i <= 3
      invariant i == 0 ==> ctx == (if current.None? || current.value == [] then EmptyContext() else current.value)
      invariant i == 1 ==> Some(ctx) == MergeSection(if current.None? || current.value == [] then EmptyContext() else current.value, "bio", bps)
      invariant i == 2 ==> MergeSection(if current.None? || current.value == [] then EmptyContext() else current.value, "bio", bps).Some?
      invariant i == 2 ==> Some(ctx) == MergeSection(MergeSection(if current.None? || current.value == [] then EmptyContext() else current.value, "bio", bps).value, "psycho", bps)
      invariant i == 3 ==> Some(ctx) == MergeContext(current, bps)
    {
      var next := MergeOneSection(ctx, sections[i], bps);
      if next.None? {
        return None;
      }
      ctx := next.value;
      i := i + 1;
    }
    merged := Some(ctx);
  }

  /** One pass of the section loop. */
  method MergeOneSection(current: Dict, section: string, bps: Dict) returns (r: Option<Dict>)
    ensures r == MergeSection(current, section, bps)
  {
    var ns := GetOr(bps, section, VDict([]));
    if !Truthy(ns) {
      return Some(current);
    }
    if !ns.VDict? {
      return None;
    }
    var ctx := current;
    if section !in Keys(ctx) {
      ctx := Put(ctx, section, VDict([]));
    }
    var prev := GetOr(ctx, section, VDict([]));
    var merged := MergeItems(prev, ns.entries);
    if merged.None? {
      return None;
    }
    if prev.VDict? {
      ctx := Put(ctx, section, merged.value);
    }
    r := Some(ctx);
  }

  /** The value loop: each truthy value is stored into the section, which
      raises when the section is not a dict. */
  method MergeItems(prev: Value, items: Dict) returns (r: Option<Value>)
    ensures prev.VDict? ==> r == Some(VDict(MergeValues(prev.entries, items)))
    ensures !prev.VDict? ==> r == if AnyTruthy(items) then None else Some(prev)
  {
    var sectionValues := prev;
    var j := 0;
    while j < |items|
      invariant 0 <= j <= |items|
      invariant prev.VDict? ==> sectionValues == VDict(MergeValues(prev.entries, items[..j]))
      invariant !prev.VDict? ==> sectionValues == prev && !AnyTruthy(items[..j])
    {
      assert items[..j + 1][..j] == items[..j];
      var (key, value) := items[j];
      if Truthy(value) {
        if !sectionValues.VDict? {
          assert items[j].1 == value;
          return None;
        }
        sectionValues := VDict(Put(sectionValues.entries, key, value));
      }
      j := j + 1;
    }
    assert items[..j] == items;
    r := Some(sectionValues);
  }

  // ---------------------------------------------------------------------
  // Summaries

  /** One vital of `_summarize_bio`: `None` where the Python raises (a
      vital that is not a dict), `Some(None)` for a vital left out because
      its type or value is falsy. */
  function VitalPart(vital: Value): Option<Option<Value>> {
    if !vital.VDict? then None
    else
      var e := vital.entries;
      var kind := GetOr(e, "type", VStr(""));
      var value := GetOr(e, "value", VStr(""));
      if Truthy(kind) && Truthy(value) then
        Some(Some(VStr(Str(kind) + " " + Str(value) + Str(GetOr(e, "unit", VStr(""))) + Str(GetOr(e, "trend", VStr(""))))))
      else Some(None)
  }

  function VitalParts(vitals: seq<Value>): (r: Option<seq<Value>>)
    ensures r.Some? ==> |r.value| <= |vitals|
  {
    if vitals == [] then Some([])
    else match VitalParts(vitals[..|vitals| - 1])
      case None => None
      case Some(parts) =>
        match VitalPart(vitals[|vitals| - 1])
        case None => None
        case Some(None) => Some(parts)
        case Some(Some(p)) => Some(parts + [p])
  }

  /** `parts.extend(v[:n])` when `v` is truthy. */
  function ExtendIfTruthy(v: Value, n: nat): (r: Option<seq<Value>>)
    ensures r.Some? ==> |r.value| <= n
  {
    if Truthy(v) then Slice(v, n) else Some([])
  }

  function AppendIfTruthy(v: Value): seq<Value> {
    if Truthy(v) then [v] else []
  }

  /** The parts of `_summarize_bio`: the first three vitals that have a
      type and a value, then at most two symptoms, then the ADL note. */
  function BioParts(bio: Value): Option<seq<Value>> {
    if !bio.VDict? then None
    else
      var e := bio.entries;
      match Slice(GetOr(e, "vitals", VList([])), 3)
      case None => None
      case Some(vitals) =>
        match VitalParts(vitals)
        case None => None
        case Some(vp) =>
          match ExtendIfTruthy(GetOr(e, "symptoms", VList([])), 2)
          case None => None
          case Some(sp) => Some(vp + sp + AppendIfTruthy(GetOr(e, "adl", VNone)))
  }

  /** The parts of `_summarize_psycho` (keys "mood", "cognition") and
      `_summarize_social` (keys "family", "services"): the two notes that
      are truthy, then at most two concerns. */
  function NoteParts(section: Value, first: string, second: string): Option<seq<Value>> {
    if !section.VDict? then None
    else
      var e := section.entries;
      match ExtendIfTruthy(GetOr(e, "concerns", VList([])), 2)
      case None => None
      case Some(cp) =>
        Some(AppendIfTruthy(GetOr(e, first, VNone)) + AppendIfTruthy(GetOr(e, second, VNone)) + cp)
  }

  function Summary(parts: Option<seq<Value>>): Option<string> {
    match parts
    case None => None
    case Some(ps) => JoinTexts(ps, ", ")
  }

  /** A bio summary has at most three vital parts, two symptoms and the
      ADL note, which comes last. */
  lemma BioPartsShape(bio: Value)
    requires BioParts(bio).Some?
    ensures |BioParts(bio).value| <= 6
    ensures Truthy(GetOr(bio.entries, "adl", VNone)) ==>
              BioParts(bio).value[|BioParts(bio).value| - 1] == GetOr(bio.entries, "adl", VNone)
  {
  }

  /** A vital is shown exactly when both its type and its value are
      truthy; a value of 0 drops it. */
  lemma VitalShownIff(e: Dict)
    ensures VitalPart(VDict(e)).Some?
    ensures VitalPart(VDict(e)).value.Some? <==>
              Truthy(GetOr(e, "type", VStr(""))) && Truthy(GetOr(e, "value", VStr("")))
    ensures Lookup(e, "value") == Some(VInt(0)) ==> VitalPart(VDict(e)) == Some(None)
  {
  }

  /** Only the first three vitals are looked at: a fourth one, even a
      malformed one, changes nothing. */
  lemma FourthVitalIgnored(e: Dict, vitals: seq<Value>, extra: Value)
    requires |vitals| >= 3
    requires Lookup(e, "vitals") == Some(VList(vitals))
    ensures BioParts(VDict(Put(e, "vitals", VList(vitals[..3] + [extra])))) == BioParts(VDict(e))
  {
    var e' := Put(e, "vitals", VList(vitals[..3] + [extra]));
    VitalsReplacedReads(e, VList(vitals[..3] + [extra]));
    assert Slice(VList(vitals[..3] + [extra]), 3) == Slice(VList(vitals), 3) by {
      assert Take(vitals[..3] + [extra], 3) == vitals[..3] == Take(vitals, 3);
    }
  }

  /** Setting "vitals" leaves the symptoms and the ADL note as read. */
  lemma VitalsReplacedReads(e: Dict, v: Value)
    ensures GetOr(Put(e, "vitals", v), "vitals", VList([])) == v
    ensures GetOr(Put(e, "vitals", v), "symptoms", VList([])) == GetOr(e, "symptoms", VList([]))
    ensures GetOr(Put(e, "vitals", v), "adl", VNone) == GetOr(e, "adl", VNone)
  {
    LookupPut(e, "vitals", v, "vitals");
    LookupPut(e, "vitals", v, "symptoms");
    LookupPut(e, "vitals", v, "adl");
  }

  /** The psycho summary lists the mood and the cognition note first,
      then the concerns. */
  lemma PsychoOrder(mood: string, cognition: string, concern: string)
    requires mood != [] && cognition != [] && concern != []
    ensures Summary(NoteParts(VDict([("concerns", VList([VStr(concern)])), ("cognition", VStr(cognition)),
                                     ("mood", VStr(mood))]), "mood", "cognition")) ==
            Some(mood + ", " + cognition + ", " + concern)
  {
    var d := [("concerns", VList([VStr(concern)])), ("cognition", VStr(cognition)), ("mood", VStr(mood))];
    assert "mood" != "concerns" && "mood" != "cognition";
    LookupAt(d, 2);
    assert "cognition" != "concerns";
    LookupAt(d, 1);
    LookupAt(d, 0);
    assert ExtendIfTruthy(VList([VStr(concern)]), 2) == Some([VStr(concern)]);
    assert NoteParts(VDict(d), "mood", "cognition") == Some([VStr(mood)] + [VStr(cognition)] + [VStr(concern)]);
    assert [VStr(mood)] + [VStr(cognition)] + [VStr(concern)] == [VStr(mood), VStr(cognition), VStr(concern)];
    TextsOfThree(mood, cognition, concern);
    JoinThree(mood, cognition, concern, ", ");
  }

  lemma TextsOfThree(a: string, b: string, c: string)
    ensures Texts([VStr(a), VStr(b), VStr(c)]) == Some([a, b, c])
  {
    var parts := [VStr(a), VStr(b), VStr(c)];
    assert Texts([]) == Some([]);
    TextsSnoc([], a);
    assert [] + [VStr(a)] == [VStr(a)] && [] + [a] == [a];
    TextsSnoc([VStr(a)], b);
    assert [VStr(a)] + [VStr(b)] == parts[..2] && [a] + [b] == [a, b];
    TextsSnoc(parts[..2], c);
    assert parts[..2] + [VStr(c)] == parts && [a, b] + [c] == [a, b, c];
  }

  lemma JoinThree(a: string, b: string, c: string, sep: string)
    ensures Join([a, b, c], sep) == a + sep + b + sep + c
  {
    var texts := [a, b, c];
    assert texts[1..] == [b, c] && texts[1..][1..] == [c];
    assert Join([c], sep) == c;
    assert Join([b, c], sep) == b + sep + c;
    assert Join(texts, sep) == a + sep + (b + sep + c);
  }

  /** `_summarize_bio`, with its vitals loop. */
  method SummarizeBio(bio: Value) returns (r: Option<string>)
    ensures r == Summary(BioParts(bio))
  {
    if !bio.VDict? {
      return None;
    }
    var e := bio.entries;
    var vitals := Slice(GetOr(e, "vitals", VList([])), 3);
    if vitals.None? {
      return None;
    }
    var vp := SummarizeVitals(vitals.value);
    if vp.None? {
      return None;
    }
    var parts := vp.value;
    var symptoms := ExtendIfTruthy(GetOr(e, "symptoms", VList([])), 2);
    if symptoms.None? {
      return None;
    }
    parts := parts + symptoms.value + AppendIfTruthy(GetOr(e, "adl", VNone));
    r := JoinTexts(parts, ", ");
  }

  /** A vital that raises makes the whole summary raise. */
  lemma {:induction false} VitalPartsFailed(vitals: seq<Value>, n: nat)
    requires n <= |vitals| && VitalParts(vitals[..n]).None?
    ensures VitalParts(vitals).None?
    decreases |vitals| - n
  {
    if n < |vitals| {
      assert vitals[..n + 1][..n] == vitals[..n];
      VitalPartsFailed(vitals, n + 1);
    } else {
      assert vitals[..n] == vitals;
    }
  }

  /** The vitals loop of `_summarize_bio`. */
  method SummarizeVitals(vitals: seq<Value>) returns (r: Option<seq<Value>>)
    ensures r == VitalParts(vitals)
  {
    var parts: seq<Value> := [];
    var i := 0;
    while i < |vitals|
      invariant 0 <= i <= |vitals|
      invariant VitalParts(vitals[..i]) == Some(parts)
    {
      assert vitals[..i + 1][..i] == vitals[..i];
      var p := VitalPart(vitals[i]);
      if p.None? {
        VitalPartsFailed(vitals, i + 1);
        return None;
      }
      if p.value.Some? {
        parts := parts + [p.value.value];
      }
      i := i + 1;
    }
    assert vitals[..i] == vitals;
    r := Some(parts);
  }

  // ---------------------------------------------------------------------
  // Confirmation

  /** The confirmation text; `confidence` is the confidence as rendered
      with two decimals. */
  function ConfirmationText(bio: string, psycho: string, social: string, confidence: string, reporterName: string): string {
    "✅ 保存しました\n\nBio: " + OrDash(bio) + "\nPsycho: " + OrDash(psycho) + "\nSocial: " + OrDash(social)
    + "\n\n📊 確信度: " + confidence + " | 報告者: " + reporterName + " | ソース: テキスト"
  }

  /** `_format_confirmation`; `None` where a summariser raises. */
  function FormatConfirmation(bps: Dict, reporterName: string, confidence: string): Option<string> {
    var bio := Summary(BioParts(GetOr(bps, "bio", VDict([]))));
    var psycho := Summary(NoteParts(GetOr(bps, "psycho", VDict([])), "mood", "cognition"));
    var social := Summary(NoteParts(GetOr(bps, "social", VDict([])), "family", "services"));
    if bio.None? || psycho.None? || social.None? then None
    else Some(ConfirmationText(bio.value, psycho.value, social.value, confidence, reporterName))
  }

  /** An empty bio section has no parts. */
  lemma EmptyBioParts()
    ensures BioParts(VDict([])) == Some([])
  {
    var e: Dict := [];
    var sl := Slice(GetOr(e, "vitals", VList([])), 3);
    assert sl == Some([]);
    var vp := VitalParts(sl.value);
    assert vp == Some([]);
    var sp := ExtendIfTruthy(GetOr(e, "symptoms", VList([])), 2);
    assert sp == Some([]);
    var adl := AppendIfTruthy(GetOr(e, "adl", VNone));
    assert BioParts(VDict(e)) == Some(vp.value + sp.value + adl);
    assert vp.value + sp.value + adl == [];
  }

  /** Empty summaries are shown as "-". */
  lemma EmptySectionsDashed(bps: Dict, reporterName: string, confidence: string)
    requires "bio" !in Keys(bps) && "psycho" !in Keys(bps) && "social" !in Keys(bps)
    ensures FormatConfirmation(bps, reporterName, confidence) ==
              Some("✅ 保存しました\n\nBio: " + "-" + "\nPsycho: " + "-" + "\nSocial: " + "-"
                   + "\n\n📊 確信度: " + confidence + " | 報告者: " + reporterName + " | ソース: テキスト")
  {
    EmptyBioParts();
    assert NoteParts(VDict([]), "mood", "cognition") == Some([]);
    assert NoteParts(VDict([]), "family", "services") == Some([]);
  }

  // ---------------------------------------------------------------------
  // Processing one report

  /** The report document, with the bio-psycho-social classification as
      exactly three sections. `confidence` is `None` for the 0.0 default. */
  datatype Report = Report(reporterName: string, reporterRole: string, rawText: string,
                           bio: Value, psycho: Value, social: Value, confidence: Option<Value>, slackTs: Value)

  /** What `process` does: a failure it reports, a saved report with the
      merged context and the confirmation, or an exception. An exception
      records what was already written: the stored report, and the
      merged context once `_update_context` has written it. */
  datatype IntakeOutcome =
    | Failure(error: string)
    | Saved(report: Report, context: Dict, confirmation: string)
    | Raised(storedReport: Option<Report>, writtenContext: Option<Dict>)

  /** The stored context as the prompt builder reads it: `None` when the
      patient has none. */
  function ContextValue(context: Option<Dict>): Value {
    match context
    case None => VNone
    case Some(c) => VDict(c)
  }

  /** Both prompt blocks render: every knowledge chunk and the stored
      context can be rendered. */
  predicate PromptBuilt(chunks: seq<Value>, context: Option<Dict>) {
    (forall i :: 0 <= i < |chunks| ==> BaseAgent.ChunkRenderable(chunks[i])) &&
    BaseAgent.ContextRenderable(ContextValue(context))
  }

  /** The prompt is built exactly when the knowledge block and the
      patient-context block both render, whatever the patient record. */
  lemma PromptBuiltIff(patient: Dict, chunks: seq<Value>, context: Option<Dict>)
    ensures PromptBuilt(chunks, context) <==>
              BaseAgent.KnowledgeBlock(chunks).Some? && BaseAgent.PatientContextLines(patient, ContextValue(context)).Some?
  {
    BaseAgent.KnowledgeBlockRenders(chunks);
    BaseAgent.PatientContextRenders(patient, ContextValue(context));
  }

  /** `process` for a patient record (falsy when missing), the knowledge
      chunks, the model's response parsed (`None` when it is not JSON),
      the stored context and the rendering of the confidence. The prompt
      is built before the model is called, so a block that raises stops
      everything before anything is written. */
  function Process(patient: Value, chunks: seq<Value>, response: Option<Value>, context: Option<Dict>,
                   reporterName: string, reporterRole: string, rawText: string, slackTs: Value,
                   renderConfidence: Option<Value> -> Option<string>): IntakeOutcome
  {
    if !Truthy(patient) then Failure("患者が見つかりません")
    else if !patient.VDict? || !PromptBuilt(chunks, context) then Raised(None, None)
    else Respond(response, context, reporterName, reporterRole, rawText, slackTs, renderConfidence)
  }

  /** The part of `process` after the prompt is built: the response is
      parsed, the report stored, the context merged and written, and the
      confirmation formatted. */
  function Respond(response: Option<Value>, context: Option<Dict>, reporterName: string, reporterRole: string,
                   rawText: string, slackTs: Value, renderConfidence: Option<Value> -> Option<string>): IntakeOutcome
  {
    match response
      case None => Failure("BPS構造化に失敗しました")
      case Some(bps) =>
        if !bps.VDict? then Raised(None, None)
        else
          var e := bps.entries;
          var report := Report(reporterName, reporterRole, rawText, GetOr(e, "bio", VDict([])),
                               GetOr(e, "psycho", VDict([])), GetOr(e, "social", VDict([])),
                               Lookup(e, "confidence"), slackTs);
          match MergeContext(context, e)
          case None => Raised(Some(report), None)
          case Some(merged) =>
            match renderConfidence(Lookup(e, "confidence"))
            case None => Raised(Some(report), Some(merged))
            case Some(conf) =>
              match FormatConfirmation(e, reporterName, conf)
              case None => Raised(Some(report), Some(merged))
              case Some(text) => Saved(report, merged, text)
  }

  /** Once the prompt is built, a response that is not JSON is a failure
      and stores nothing. */
  lemma UnparsableResponseFails(patient: Dict, chunks: seq<Value>, context: Option<Dict>, reporterName: string,
                                reporterRole: string, rawText: string, slackTs: Value,
                                renderConfidence: Option<Value> -> Option<string>)
    requires patient != [] && PromptBuilt(chunks, context)
    ensures Process(VDict(patient), chunks, None, context, reporterName, reporterRole, rawText, slackTs, renderConfidence) ==
              Failure("BPS構造化に失敗しました")
  {
    assert Truthy(VDict(patient));
  }

  /** A truthy stored section that is not a dict makes the patient-context
      block raise, so nothing is stored and the model is never asked,
      whatever it would answer. */
  lemma BadStoredSectionRaisesFirst(patient: Dict, chunks: seq<Value>, response: Option<Value>, context: Dict,
                                    reporterName: string, reporterRole: string, rawText: string, slackTs: Value,
                                    renderConfidence: Option<Value> -> Option<string>)
    requires patient != []
    requires Truthy(GetOr(context, "bio", VDict([]))) && !GetOr(context, "bio", VDict([])).VDict?
    ensures BaseAgent.PatientContextLines(patient, VDict(context)).None?
    ensures Process(VDict(patient), chunks, response, Some(context), reporterName, reporterRole, rawText, slackTs,
                    renderConfidence) == Raised(None, None)
  {
    assert context != [] by {
      assert GetOr([], "bio", VDict([])) == VDict([]);
    }
    assert !BaseAgent.ContextRenderable(ContextValue(Some(context)));
    BaseAgent.PatientContextRenders(patient, VDict(context));
  }

  /** A knowledge chunk that cannot be rendered stops the report before
      anything is written. */
  lemma BadChunkRaisesFirst(patient: Dict, chunks: seq<Value>, i: nat, response: Option<Value>, context: Option<Dict>,
                            reporterName: string, reporterRole: string, rawText: string, slackTs: Value,
                            renderConfidence: Option<Value> -> Option<string>)
    requires patient != []
    requires i < |chunks| && chunks[i].VDict? && !GetOr(chunks[i].entries, "text", VStr("")).VStr?
    ensures BaseAgent.KnowledgeBlock(chunks).None?
    ensures Process(VDict(patient), chunks, response, context, reporterName, reporterRole, rawText, slackTs,
                    renderConfidence) == Raised(None, None)
  {
    BaseAgent.NonTextChunkFails(chunks, i);
    assert !BaseAgent.ChunkRenderable(chunks[i]);
  }

  /** A saved report was built from a prompt that rendered; its
      classification is the response's three sections, each `{}` when
      absent, and the context written is the merge. */
  lemma SavedReportSections(patient: Value, chunks: seq<Value>, bps: Dict, context: Option<Dict>, reporterName: string,
                            reporterRole: string, rawText: string, slackTs: Value,
                            renderConfidence: Option<Value> -> Option<string>)
    requires Process(patient, chunks, Some(VDict(bps)), context, reporterName, reporterRole, rawText, slackTs,
                     renderConfidence).Saved?
    ensures patient.VDict? && PromptBuilt(chunks, context)
    ensures var out := Process(patient, chunks, Some(VDict(bps)), context, reporterName, reporterRole, rawText, slackTs,
                               renderConfidence);
            out.report.bio == GetOr(bps, "bio", VDict([])) && out.report.psycho == GetOr(bps, "psycho", VDict([]))
            && out.report.social == GetOr(bps, "social", VDict([])) && Some(out.context) == MergeContext(context, bps)
            && Some(out.confirmation) == FormatConfirmation(bps, reporterName, renderConfidence(Lookup(bps, "confidence")).value)
  {
  }

  /** A null section is stored and merged without complaint, but the
      confirmation then raises, after both the report and the merged
      context were written. */
  lemma NullSectionRaisesAfterSaving(patient: Dict, chunks: seq<Value>, bps: Dict, reporterName: string,
                                     reporterRole: string, rawText: string, slackTs: Value,
                                     renderConfidence: Option<Value> -> Option<string>)
    requires patient != [] && PromptBuilt(chunks, None) && Lookup(bps, "bio") == Some(VNone)
    requires MergeContext(None, bps).Some? && renderConfidence(Lookup(bps, "confidence")).Some?
    ensures var out := Process(VDict(patient), chunks, Some(VDict(bps)), None, reporterName, reporterRole, rawText,
                               slackTs, renderConfidence);
            out.Raised? && out.storedReport.Some? && out.storedReport.value.bio == VNone &&
            out.writtenContext == MergeContext(None, bps)
  {
    assert Truthy(VDict(patient));
    var conf := renderConfidence(Lookup(bps, "confidence")).value;
    assert GetOr(bps, "bio", VDict([])) == VNone;
    assert FormatConfirmation(bps, reporterName, conf).None?;
  }
}
