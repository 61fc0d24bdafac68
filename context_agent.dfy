/** The question-answering agent's prompt material: the brief summary of a
    BPS section and the recent-reports block, and the save command's fixed
    reply. */
module ContextAgent {
  import opened Wrappers
  import opened Text
  import opened PyValue

  const NO_REPORTS: string := "報告データなし"

  // ---------------------------------------------------------------------
  // Section summary

  /** What one entry contributes: nothing for a falsy value, a one-item
      list as its item, a longer list as its length, a dict as "あり",
      anything else as its text. */
  function ItemOf(key: string, value: Value): (r: Option<string>)
    ensures r.Some? <==> Truthy(value)
  {
    if !Truthy(value) then None
    else if value.VList? then
      Some(if |value.items| == 1 then Str(value.items[0]) else key + ": " + IntToString(|value.items|) + "件")
    else if value.VDict? then Some(key + ": あり")
    else Some(Str(value))
  }

  /** The items of a section, in entry order. */
  function SectionItems(entries: seq<(string, Value)>): (r: seq<string>)
    ensures |r| <= |entries|
  {
    if entries == [] then []
    else
      var e := entries[|entries| - 1];
      SectionItems(entries[..|entries| - 1]) + match ItemOf(e.0, e.1) case None => [] case Some(item) => [item]
  }

  /** `_summarize_section`: the first three items, ", "-separated; "" when
      there are none. */
  function SectionSummary(entries: seq<(string, Value)>): string {
    var items := SectionItems(entries);
    if items == [] then "" else Join(Take(items, 3), ", ")
  }

  lemma {:induction false} SectionItemsAppend(a: seq<(string, Value)>, b: seq<(string, Value)>)
    ensures SectionItems(a + b) == SectionItems(a) + SectionItems(b)
    decreases |b|
  {
    if b == [] {
      assert a + b == a;
    } else {
      var init := b[..|b| - 1];
      assert (a + b)[..|a + b| - 1] == a + init;
      assert (a + b)[|a + b| - 1] == b[|b| - 1];
      SectionItemsAppend(a, init);
    }
  }

  /** A section has no items exactly when every value in it is falsy. */
  lemma {:induction false} NoItemsIff(entries: seq<(string, Value)>)
    ensures SectionItems(entries) == [] <==> forall i :: 0 <= i < |entries| ==> !Truthy(entries[i].1)
  {
    if entries != [] {
      var init := entries[..|entries| - 1];
      NoItemsIff(init);
      assert forall i :: 0 <= i < |init| ==> init[i] == entries[i];
    }
  }

  /** Once three items are found, later entries no longer show. */
  lemma LaterEntriesIgnored(a: seq<(string, Value)>, b: seq<(string, Value)>)
    requires |SectionItems(a)| >= 3
    ensures SectionSummary(a + b) == SectionSummary(a)
  {
    SectionItemsAppend(a, b);
    var items := SectionItems(a);
    assert Take(items + SectionItems(b), 3) == items[..3] == Take(items, 3);
  }

  /** A falsy entry adds nothing. */
  lemma FalsyEntrySkipped(a: seq<(string, Value)>, key: string, value: Value)
    requires !Truthy(value)
    ensures SectionSummary(a + [(key, value)]) == SectionSummary(a)
  {
    var b := a + [(key, value)];
    assert b[..|b| - 1] == a && b[|b| - 1] == (key, value);
    assert SectionItems(b) == SectionItems(a);
  }

  /** A section of falsy values only is summarised as "". */
  lemma FalsySectionBlank(entries: seq<(string, Value)>)
    requires forall i :: 0 <= i < |entries| ==> !Truthy(entries[i].1)
    ensures SectionSummary(entries) == ""
  {
    NoItemsIff(entries);
  }

  /** A one-item list shows as its item, a longer list as its length, a
      non-empty dict as present. */
  lemma SingleEntryShapes(key: string, v: Value, items: seq<Value>, entries: seq<(string, Value)>)
    ensures SectionSummary([(key, VList([v]))]) == Str(v)
    ensures |items| >= 2 ==> SectionSummary([(key, VList(items))]) == key + ": " + IntToString(|items|) + "件"
    ensures entries != [] ==> SectionSummary([(key, VDict(entries))]) == key + ": あり"
  {
    assert [(key, VList([v]))][..0] == [];
    assert [(key, VList(items))][..0] == [];
    assert [(key, VDict(entries))][..0] == [];
  }

  /** The entry loop of `_summarize_section`; a section that is not a
      dict raises (`None`). */
  method SummarizeSection(section: Value) returns (r: Option<string>)
    ensures r.Some? <==> section.VDict?
    ensures r.Some? ==> r.value == SectionSummary(section.entries)
  {
    if !section.VDict? {
      return None;
    }
    var entries := section.entries;
    var items: seq<string> := [];
    var i := 0;
    while i < |entries|
      invariant 0 <= i <= |entries|
      invariant items == SectionItems(entries[..i])
    {
      assert entries[..i + 1][..i] == entries[..i];
      var (key, value) := entries[i];
      if Truthy(value) {
        if value.VList? {
          items := items + [if |value.items| == 1 then Str(value.items[0]) else key + ": " + IntToString(|value.items|) + "件"];
        } else if value.VDict? {
          items := items + [key + ": あり"];
        } else {
          items := items + [Str(value)];
        }
      }
      i := i + 1;
    }
    assert entries[..i] == entries;
    r := Some(if items == [] then "" else Join(Take(items, 3), ", "));
  }

  // ---------------------------------------------------------------------
  // Recent reports

  function ReportLine(stamp: string, reporter: string, role: string, bio: string, psycho: string, social: string): string {
    "[" + stamp + "] " + reporter + "(" + role + ")\n"
    + "  Bio: " + OrDash(bio) + "\n"
    + "  Psycho: " + OrDash(psycho) + "\n"
    + "  Social: " + OrDash(social)
  }

  /** One report's block; `None` where the report, its classification or
      one of its sections is not a dict (an explicit null, say). */
  function ReportBlock(report: Value): Option<string> {
    if !report.VDict? then None
    else
      var e := report.entries;
      var bps := GetOr(e, "bps_classification", VDict([]));
      if !bps.VDict? then None
      else
        var bio := GetOr(bps.entries, "bio", VDict([]));
        var psycho := GetOr(bps.entries, "psycho", VDict([]));
        var social := GetOr(bps.entries, "social", VDict([]));
        if !bio.VDict? || !psycho.VDict? || !social.VDict? then None
        else Some(ReportLine(Stamp(GetOr(e, "timestamp", VStr(""))),
                             Str(GetOr(e, "reporter_name", VStr("不明"))),
                             Str(GetOr(e, "reporter_role", VStr(""))),
                             SectionSummary(bio.entries), SectionSummary(psycho.entries), SectionSummary(social.entries)))
  }

  /** Every report formats exactly when each of them does. */
  lemma BlocksIff(reports: seq<Value>)
    ensures MapAll(reports, ReportBlock).Some? <==> forall i :: 0 <= i < |reports| ==> ReportBlock(reports[i]).Some?
  {
    MapAllIff(reports, ReportBlock);
  }

  /** `_format_reports`: "報告データなし" for no reports, else the blocks
      separated by blank lines. */
  function FormatReports(reports: seq<Value>): Option<string> {
    if reports == [] then Some(NO_REPORTS)
    else match MapAll(reports, ReportBlock)
      case None => None
      case Some(bs) => Some(Join(bs, "\n\n"))
  }

  /** A report with no classification shows a dash for every section,
      and a report without name or role shows the defaults. */
  lemma UnclassifiedReportDashed(stamp: string, name: string, role: string)
    ensures ReportBlock(VDict([("timestamp", VStr(stamp)), ("reporter_name", VStr(name)), ("reporter_role", VStr(role))])) ==
            Some("[" + stamp + "] " + name + "(" + role + ")\n" + "  Bio: " + "-" + "\n" + "  Psycho: " + "-" + "\n" + "  Social: " + "-")
    ensures ReportBlock(VDict([])) ==
            Some("[" + "" + "] " + "不明" + "(" + "" + ")\n" + "  Bio: " + "-" + "\n" + "  Psycho: " + "-" + "\n" + "  Social: " + "-")
  {
    var e := [("timestamp", VStr(stamp)), ("reporter_name", VStr(name)), ("reporter_role", VStr(role))];
    assert "reporter_name" != "timestamp" && "reporter_role" != "timestamp" && "reporter_role" != "reporter_name";
    LookupAt(e, 0);
    LookupAt(e, 1);
    LookupAt(e, 2);
    assert "bps_classification" !in Keys(e);
    assert GetOr(e, "bps_classification", VDict([])) == VDict([]);
  }

  /** A section stored as null is not replaced by the default: the report
      raises. */
  lemma NullSectionRaises(e: seq<(string, Value)>, bps: seq<(string, Value)>)
    requires Lookup(e, "bps_classification") == Some(VDict(bps))
    requires Lookup(bps, "psycho") == Some(VNone)
    ensures ReportBlock(VDict(e)) == None
    ensures FormatReports([VDict(e)]) == None
  {
    MapAllSnoc([], VDict(e), ReportBlock);
    assert [] + [VDict(e)] == [VDict(e)];
  }

  /** The report loop of `_format_reports`. */
  method FormatRecentReports(reports: seq<Value>) returns (r: Option<string>)
    ensures r == FormatReports(reports)
    ensures reports == [] ==> r == Some(NO_REPORTS)
  {
    if reports == [] {
      return Some(NO_REPORTS);
    }
    var formatted: seq<string> := [];
    var i := 0;
    while i < |reports|
      invariant 0 <= i <= |reports|
      invariant MapAll(reports[..i], ReportBlock) == Some(formatted)
    {
      assert reports[..i + 1][..i] == reports[..i];
      var block := FormatReport(reports[i]);
      if block.None? {
        MapAllSnoc(reports[..i], reports[i], ReportBlock);
        MapAllFailed(reports, i + 1, ReportBlock);
        return None;
      }
      formatted := formatted + [block.value];
      i := i + 1;
    }
    assert reports[..i] == reports;
    r := Some(Join(formatted, "\n\n"));
  }

  /** One pass of the report loop. */
  method FormatReport(report: Value) returns (r: Option<string>)
    ensures r == ReportBlock(report)
  {
    if !report.VDict? {
      return None;
    }
    var e := report.entries;
    var bps := GetOr(e, "bps_classification", VDict([]));
    if !bps.VDict? {
      return None;
    }
    var bio := SummarizeSection(GetOr(bps.entries, "bio", VDict([])));
    var psycho := SummarizeSection(GetOr(bps.entries, "psycho", VDict([])));
    var social := SummarizeSection(GetOr(bps.entries, "social", VDict([])));
    if bio.None? || psycho.None? || social.None? {
      return None;
    }
    r := Some(ReportLine(Stamp(GetOr(e, "timestamp", VStr(""))),
                         Str(GetOr(e, "reporter_name", VStr("不明"))),
                         Str(GetOr(e, "reporter_role", VStr(""))),
                         bio.value, psycho.value, social.value));
  }

  // ---------------------------------------------------------------------
  // Save command

  /** `SaveAgent.process`: the save command only tells the user how to
      save, whatever it is asked. */
  function SaveCommand(patientId: string, channelId: string, threadTs: Option<string>): (r: Value)
    ensures r.VDict? && Lookup(r.entries, "success") == Some(VBool(true))
    ensures r.VDict? && Lookup(r.entries, "message") ==
              Some(VStr("直近のメッセージを保存する場合は、アンカーメッセージへの返信として報告を投稿してください。"))
  {
    var entries := [("success", VBool(true)),
                    ("message", VStr("直近のメッセージを保存する場合は、アンカーメッセージへの返信として報告を投稿してください。"))];
    assert "message" != "success";
    LookupAt(entries, 1);
    VDict(entries)
  }
}
