/** The progress-summary agent's prompt material: the brief summary of a
    BPS section (vitals and medications by name, other lists by their
    first items) and the reports block with each report's original text
    cut to 200 characters. */
module SummaryAgent {
  import opened Wrappers
  import opened Text
  import opened PyValue

  const NO_REPORTS: string := "報告データなし"
  const RAW_TEXT_LIMIT: nat := 200

  // ---------------------------------------------------------------------
  // Section summary

  /** What one vital or medication entry contributes: its type (or else
      its name), with its value when it has one; nothing when it has
      neither type nor name or is not a dict. A name shown without a
      value is kept as it is, not as its text. */
  function NamedItem(item: Value): (r: seq<Value>)
    ensures |r| <= 1
  {
    if !item.VDict? then []
    else
      var e := item.entries;
      var t := GetOr(e, "type", VNone);
      var name := if Truthy(t) then t else GetOr(e, "name", VStr(""));
      var val := GetOr(e, "value", VStr(""));
      if !Truthy(name) then []
      else if Truthy(val) then [VStr(Str(name) + ": " + Str(val))]
      else [name]
  }

  function NamedItems(vs: seq<Value>): (r: seq<Value>)
    ensures |r| <= |vs|
  {
    if vs == [] then [] else NamedItems(vs[..|vs| - 1]) + NamedItem(vs[|vs| - 1])
  }

  /** What one section entry contributes: a list headed by a dict gives
      its first two entries by name, another list its first three
      elements as text, a dict "key: あり", anything else its text; a
      falsy value nothing. */
  function EntryItems(key: string, value: Value): (r: seq<Value>)
    ensures !Truthy(value) ==> r == []
  {
    if !Truthy(value) then []
    else if value.VList? then
      if value.items[0].VDict? then NamedItems(Take(value.items, 2)) else Strs(StrAll(Take(value.items, 3)))
    else if value.VDict? then [VStr(key + ": あり")]
    else [VStr(Str(value))]
  }

  function EntryItemsOf(e: (string, Value)): seq<Value> {
    EntryItems(e.0, e.1)
  }

  function SectionItems(entries: seq<(string, Value)>): seq<Value> {
    Gather(entries, EntryItemsOf)
  }

  /** `_summarize_section`: the first five items, ", "-separated, or
      "特記なし"; `None` where the join meets an item that is not text. */
  function SectionSummary(entries: seq<(string, Value)>): Option<string> {
    var items := SectionItems(entries);
    if items == [] then Some("特記なし") else JoinTexts(Take(items, 5), ", ")
  }

  lemma OneEntryItems(key: string, value: Value)
    ensures SectionItems([(key, value)]) == EntryItems(key, value)
  {
    GatherSnoc([], (key, value), EntryItemsOf);
    assert [] + [(key, value)] == [(key, value)];
  }

  /** Once five items are found, later entries no longer show. */
  lemma LaterEntriesIgnored(a: seq<(string, Value)>, b: seq<(string, Value)>)
    requires |SectionItems(a)| >= 5
    ensures SectionSummary(a + b) == SectionSummary(a)
  {
    GatherAppend(a, b, EntryItemsOf);
    var items := SectionItems(a);
    assert Take(items + SectionItems(b), 5) == items[..5] == Take(items, 5);
  }

  /** A section of falsy values only has nothing of note. */
  lemma FalsySectionNothingOfNote(entries: seq<(string, Value)>)
    requires forall i :: 0 <= i < |entries| ==> !Truthy(entries[i].1)
    ensures SectionItems(entries) == []
    ensures SectionSummary(entries) == Some("特記なし")
  {
    assert forall i :: 0 <= i < |entries| ==> EntryItemsOf(entries[i]) == [];
    GatherNothing(entries, EntryItemsOf);
  }

  /** A vital with a type and a value shows as "type: value". */
  lemma VitalItem(t: string, v: string)
    requires t != [] && v != []
    ensures NamedItem(VDict([("type", VStr(t)), ("value", VStr(v))])) == [VStr(t + ": " + v)]
  {
    var e := [("type", VStr(t)), ("value", VStr(v))];
    assert "value" != "type";
    LookupAt(e, 0);
    LookupAt(e, 1);
  }

  /** Of a list of vitals only the first two show. */
  lemma OnlyTwoVitalsShown(key: string, t1: string, v1: string, t2: string, v2: string, more: seq<Value>)
    requires t1 != [] && v1 != [] && t2 != [] && v2 != []
    ensures var a := VDict([("type", VStr(t1)), ("value", VStr(v1))]);
            var b := VDict([("type", VStr(t2)), ("value", VStr(v2))]);
            SectionSummary([(key, VList([a, b] + more))]) == Some(t1 + ": " + v1 + ", " + t2 + ": " + v2)
  {
    var a := VDict([("type", VStr(t1)), ("value", VStr(v1))]);
    var b := VDict([("type", VStr(t2)), ("value", VStr(v2))]);
    var x := t1 + ": " + v1;
    var y := t2 + ": " + v2;
    TwoVitalsItems(key, t1, v1, t2, v2, more);
    JoinTwo(x, y);
    assert SectionItems([(key, VList([a, b] + more))]) == [VStr(x), VStr(y)];
    assert SectionSummary([(key, VList([a, b] + more))]) == Some(x + ", " + y);
    assert x + ", " + y == t1 + ": " + v1 + ", " + t2 + ": " + v2;
  }

  /** Two text items are joined with a comma. */
  lemma JoinTwo(x: string, y: string)
    ensures JoinTexts(Take([VStr(x), VStr(y)], 5), ", ") == Some(x + ", " + y)
  {
    assert Take([VStr(x), VStr(y)], 5) == Strs([x, y]);
    TextsOfStrs([x, y]);
    assert [x, y][1..] == [y];
    assert Join([x, y], ", ") == x + ", " + y;
  }

  lemma TwoVitalsItems(key: string, t1: string, v1: string, t2: string, v2: string, more: seq<Value>)
    requires t1 != [] && v1 != [] && t2 != [] && v2 != []
    ensures var a := VDict([("type", VStr(t1)), ("value", VStr(v1))]);
            var b := VDict([("type", VStr(t2)), ("value", VStr(v2))]);
            SectionItems([(key, VList([a, b] + more))]) == [VStr(t1 + ": " + v1), VStr(t2 + ": " + v2)]
  {
    var a := VDict([("type", VStr(t1)), ("value", VStr(v1))]);
    var b := VDict([("type", VStr(t2)), ("value", VStr(v2))]);
    VitalItem(t1, v1);
    VitalItem(t2, v2);
    var vs := [a, b] + more;
    assert vs[0] == a;
    assert Take(vs, 2) == [a, b];
    assert [a, b][..1] == [a] && [a][..0] == [];
    assert NamedItems([a, b]) == NamedItem(a) + NamedItem(b);
    OneEntryItems(key, VList(vs));
  }

  /** A list of plain values shows its first three values as text. */
  lemma PlainListFirstThree(key: string, vs: seq<Value>)
    requires vs != [] && !vs[0].VDict?
    ensures SectionSummary([(key, VList(vs))]) == Some(Join(StrAll(Take(vs, 3)), ", "))
  {
    var texts := StrAll(Take(vs, 3));
    OneEntryItems(key, VList(vs));
    assert Take(Strs(texts), 5) == Strs(texts);
    TextsOfStrs(texts);
  }

  /** A named entry without a value is joined as it is: a name that is
      not text makes the whole summary raise. */
  lemma NonTextNameRaises(key: string, n: int)
    requires n != 0
    ensures SectionSummary([(key, VList([VDict([("name", VInt(n))])]))]) == None
  {
    var item := VDict([("name", VInt(n))]);
    assert "type" != "name" && "value" != "name";
    assert NamedItem(item) == [VInt(n)];
    assert [item][..0] == [];
    OneEntryItems(key, VList([item]));
  }

  /** The first-two-entries loop over a list of vitals or medications. */
  method CollectNamed(vs: seq<Value>) returns (out: seq<Value>)
    ensures out == NamedItems(vs)
  {
    out := [];
    var i := 0;
    while i < |vs|
      invariant 0 <= i <= |vs|
      invariant out == NamedItems(vs[..i])
    {
      assert vs[..i + 1][..i] == vs[..i];
      var item := vs[i];
      if item.VDict? {
        var e := item.entries;
        var t := GetOr(e, "type", VNone);
        var name := if Truthy(t) then t else GetOr(e, "name", VStr(""));
        var val := GetOr(e, "value", VStr(""));
        if Truthy(name) {
          out := out + [if Truthy(val) then VStr(Str(name) + ": " + Str(val)) else name];
        }
      }
      i := i + 1;
    }
    assert vs[..i] == vs;
  }

  /** The entry loop of `_summarize_section`; a section that is not a
      dict raises (`None`). */
  method SummarizeSection(section: Value) returns (r: Option<string>)
    ensures r == if section.VDict? then SectionSummary(section.entries) else None
  {
    if !section.VDict? {
      return None;
    }
    var entries := section.entries;
    var items: seq<Value> := [];
    var i := 0;
    while i < |entries|
      invariant 0 <= i <= |entries|
      invariant items == SectionItems(entries[..i])
    {
      assert entries[..i + 1] == entries[..i] + [entries[i]];
      GatherSnoc(entries[..i], entries[i], EntryItemsOf);
      var (key, value) := entries[i];
      if Truthy(value) {
        if value.VList? {
          if value.items[0].VDict? {
            var named := CollectNamed(Take(value.items, 2));
            items := items + named;
          } else {
            items := items + Strs(StrAll(Take(value.items, 3)));
          }
        } else if value.VDict? {
          items := items + [VStr(key + ": あり")];
        } else {
          items := items + [VStr(Str(value))];
        }
      }
      i := i + 1;
    }
    assert entries[..i] == entries;
    if items == [] {
      r := Some("特記なし");
    } else {
      r := JoinTexts(Take(items, 5), ", ");
    }
  }

  // ---------------------------------------------------------------------
  // Reports

  /** The original-text line: up to 200 characters, and "..." when the
      text was longer. `len` and the cut work on strings and lists; a
      dict can only be shown whole; anything else raises. */
  function RawTextLine(raw: Value): (r: Option<string>)
    ensures raw.VStr? ==> r.Some? && |r.value| <= 4 + RAW_TEXT_LIMIT + 3
    ensures raw.VStr? && |raw.s| <= RAW_TEXT_LIMIT ==> r == Some("原文: " + raw.s)
    ensures r.Some? ==> |r.value| >= 4 && r.value[..4] == "原文: "
    ensures r.None? <==> !(raw.VStr? || raw.VList? || raw.VDict?) || (raw.VDict? && |raw.entries| > RAW_TEXT_LIMIT)
  {
    match raw
    case VStr(s) => Some(if |s| > RAW_TEXT_LIMIT then "原文: " + s[..RAW_TEXT_LIMIT] + "..." else "原文: " + s)
    case VList(items) =>
      Some(if |items| > RAW_TEXT_LIMIT then "原文: " + Str(VList(items[..RAW_TEXT_LIMIT])) + "..." else "原文: " + Str(raw))
    case VDict(entries) => if |entries| > RAW_TEXT_LIMIT then None else Some("原文: " + Str(raw))
    case _ => None
  }

  /** Only the first 200 characters of a longer text show. */
  lemma RawTextCut(s: string, t: string, u: string)
    requires |s| == RAW_TEXT_LIMIT && t != [] && u != []
    ensures RawTextLine(VStr(s + t)) == RawTextLine(VStr(s + u)) == Some("原文: " + s + "...")
  {
    assert (s + t)[..RAW_TEXT_LIMIT] == s;
    assert (s + u)[..RAW_TEXT_LIMIT] == s;
  }

  /** A section's line: none for a falsy section, `None` where a truthy
      section is not a dict or its summary raises. */
  function BpsLine(heading: string, section: Value): (r: Option<seq<string>>)
    ensures r.Some? ==> |r.value| <= 1
    ensures !Truthy(section) ==> r == Some([])
  {
    if !Truthy(section) then Some([])
    else if !section.VDict? then None
    else match SectionSummary(section.entries)
      case None => None
      case Some(t) => Some([heading + t])
  }

  /** Who reported and when. */
  function ReportHead(e: seq<(string, Value)>): string {
    "[" + Stamp(GetOr(e, "timestamp", VStr(""))) + "] " + Str(GetOr(e, "reporter_name", VStr("不明")))
    + "(" + Str(GetOr(e, "reporter_role", VStr(""))) + ")"
  }

  /** The lines of the non-empty sections, Bio, Psycho, Social. */
  function SectionLines(bps: seq<(string, Value)>): (r: Option<seq<string>>)
    ensures r.Some? ==> |r.value| <= 3
  {
    match BpsLine("Bio: ", GetOr(bps, "bio", VDict([])))
    case None => None
    case Some(b) =>
      match BpsLine("Psycho: ", GetOr(bps, "psycho", VDict([])))
      case None => None
      case Some(p) =>
        match BpsLine("Social: ", GetOr(bps, "social", VDict([])))
        case None => None
        case Some(so) => Some(b + p + so)
  }

  /** The lines of one report: who and when, the original text, and a
      line per non-empty section. */
  function ReportLines(report: Value): Option<seq<string>> {
    if !report.VDict? then None
    else
      var e := report.entries;
      var bps := GetOr(e, "bps_classification", VDict([]));
      if !bps.VDict? then None
      else match RawTextLine(GetOr(e, "raw_text", VStr("")))
        case None => None
        case Some(raw) =>
          match SectionLines(bps.entries)
          case None => None
          case Some(ls) => Some([ReportHead(e), raw] + ls)
  }

  function ReportText(report: Value): Option<string> {
    match ReportLines(report)
    case None => None
    case Some(lines) => Some(Join(lines, "\n"))
  }

  /** `_format_reports`: "報告データなし" for no reports, else the reports
      separated by rules. */
  function FormatReports(reports: seq<Value>): Option<string> {
    if reports == [] then Some(NO_REPORTS)
    else match MapAll(reports, ReportText)
      case None => None
      case Some(texts) => Some(Join(texts, "\n\n---\n\n"))
  }

  /** Every report has its header and original-text lines and at most one
      line per section. */
  lemma ReportLinesShape(report: Value)
    requires ReportLines(report).Some?
    ensures 2 <= |ReportLines(report).value| <= 5
    ensures ReportLines(report).value[1][..4] == "原文: "
  {
  }

  /** An unclassified report has only its header and its text. */
  lemma UnclassifiedReportTwoLines(stamp: string, name: string, role: string, raw: string)
    requires |raw| <= RAW_TEXT_LIMIT
    ensures ReportLines(VDict([("timestamp", VStr(stamp)), ("reporter_name", VStr(name)),
                               ("reporter_role", VStr(role)), ("raw_text", VStr(raw))])) ==
            Some(["[" + stamp + "] " + name + "(" + role + ")", "原文: " + raw])
  {
    var e := [("timestamp", VStr(stamp)), ("reporter_name", VStr(name)), ("reporter_role", VStr(role)), ("raw_text", VStr(raw))];
    UnclassifiedFields(e, stamp, name, role, raw);
    UnclassifiedHead(e, stamp, name, role, raw);
    var line := "原文: " + raw;
    assert RawTextLine(VStr(raw)) == Some(line);
    NoSectionLines();
    assert ReportLines(VDict(e)) == Some([ReportHead(e), line] + []);
    assert [ReportHead(e), line] + [] == [ReportHead(e), line];
  }

  lemma NoSectionLines()
    ensures SectionLines([]) == Some([])
  {
    assert BpsLine("Bio: ", GetOr([], "bio", VDict([]))) == Some([]);
    assert BpsLine("Psycho: ", GetOr([], "psycho", VDict([]))) == Some([]);
    assert BpsLine("Social: ", GetOr([], "social", VDict([]))) == Some([]);
    var none: seq<string> := [];
    assert none + none + none == none;
  }

  lemma UnclassifiedFields(e: seq<(string, Value)>, stamp: string, name: string, role: string, raw: string)
    requires e == [("timestamp", VStr(stamp)), ("reporter_name", VStr(name)), ("reporter_role", VStr(role)), ("raw_text", VStr(raw))]
    ensures GetOr(e, "bps_classification", VDict([])) == VDict([])
    ensures GetOr(e, "raw_text", VStr("")) == VStr(raw)
  {
    assert "raw_text" != "timestamp" && "raw_text" != "reporter_name" && "raw_text" != "reporter_role";
    LookupAt(e, 3);
    assert forall i :: 0 <= i < |e| ==> e[i].0 != "bps_classification";
    assert "bps_classification" !in Keys(e);
  }

  lemma UnclassifiedHead(e: seq<(string, Value)>, stamp: string, name: string, role: string, raw: string)
    requires e == [("timestamp", VStr(stamp)), ("reporter_name", VStr(name)), ("reporter_role", VStr(role)), ("raw_text", VStr(raw))]
    ensures ReportHead(e) == "[" + stamp + "] " + name + "(" + role + ")"
  {
    assert "reporter_name" != "timestamp" && "reporter_role" != "timestamp" && "reporter_role" != "reporter_name";
    LookupAt(e, 0);
    LookupAt(e, 1);
    LookupAt(e, 2);
    assert GetOr(e, "timestamp", VStr("")) == VStr(stamp);
    assert GetOr(e, "reporter_name", VStr("不明")) == VStr(name);
    assert GetOr(e, "reporter_role", VStr("")) == VStr(role);
  }

  /** A stored null text is not replaced by the default: the report
      raises. */
  lemma NullRawTextRaises(e: seq<(string, Value)>)
    requires Lookup(e, "raw_text") == Some(VNone)
    ensures ReportLines(VDict(e)) == None
    ensures FormatReports([VDict(e)]) == None
  {
    MapAllSnoc([], VDict(e), ReportText);
    assert [] + [VDict(e)] == [VDict(e)];
  }

  /** One pass of the report loop. */
  method FormatReport(report: Value) returns (r: Option<string>)
    ensures r == ReportText(report)
  {
    if !report.VDict? {
      return None;
    }
    var e := report.entries;
    var bps := GetOr(e, "bps_classification", VDict([]));
    var head := ReportHead(e);
    var raw := RawTextLine(GetOr(e, "raw_text", VStr("")));
    if !bps.VDict? || raw.None? {
      return None;
    }
    var sections := CollectSectionLines(bps.entries);
    if sections.None? {
      return None;
    }
    r := Some(Join([head, raw.value] + sections.value, "\n"));
  }

  /** The three section lines of a report, Bio, Psycho and Social. */
  method CollectSectionLines(bps: seq<(string, Value)>) returns (r: Option<seq<string>>)
    ensures r == SectionLines(bps)
  {
    var b := AppendSectionLine([], "Bio: ", GetOr(bps, "bio", VDict([])));
    if b.None? {
      return None;
    }
    var p := AppendSectionLine(b.value, "Psycho: ", GetOr(bps, "psycho", VDict([])));
    if p.None? {
      return None;
    }
    var bio := BpsLine("Bio: ", GetOr(bps, "bio", VDict([]))).value;
    assert b.value == bio by {
      assert [] + bio == bio;
    }
    r := AppendSectionLine(p.value, "Social: ", GetOr(bps, "social", VDict([])));
  }

  /** Appends a section's line when the section is not empty. */
  method AppendSectionLine(lines: seq<string>, heading: string, section: Value) returns (r: Option<seq<string>>)
    ensures r == match BpsLine(heading, section) case None => None case Some(l) => Some(lines + l)
  {
    if !Truthy(section) {
      assert lines + [] == lines;
      return Some(lines);
    }
    var summary := SummarizeSection(section);
    if summary.None? {
      return None;
    }
    r := Some(lines + [heading + summary.value]);
  }

  /** The report loop of `_format_reports`. */
  method FormatSummaryReports(reports: seq<Value>) returns (r: Option<string>)
    ensures r == FormatReports(reports)
    ensures reports == [] ==> r == Some(NO_REPORTS)
  {
    if reports == [] {
      return Some(NO_REPORTS);
    }
    var formatted: seq<string> := [];
    var i := 0;
    while i < |reports|
      invariant 0 <= i <= |reports|
      invariant MapAll(reports[..i], ReportText) == Some(formatted)
    {
      assert reports[..i + 1][..i] == reports[..i];
      var text := FormatReport(reports[i]);
      if text.None? {
        MapAllSnoc(reports[..i], reports[i], ReportText);
        MapAllFailed(reports, i + 1, ReportText);
        return None;
      }
      formatted := formatted + [text.value];
      i := i + 1;
    }
    assert reports[..i] == reports;
    r := Some(Join(formatted, "\n\n---\n\n"));
  }
}
