/** The alert agent's deterministic parts: the alert documents written
    for detected alerts, the morning scan's counters and severity buckets,
    and the Slack texts of the morning report, of one alert and of the
    report history given to the model. Detection itself (a model call) is
    the parameter `detect`. */
module AlertAgent {
  import opened Wrappers
  import opened Text
  import opened PyValue

  const REPORT_SECTION_LIMIT: nat := 5
  const HISTORY_LIMIT: nat := 10
  const NO_HISTORY: string := "過去7日間の報告なし"

  /** The alert document `process` writes (its `id` is the store's). */
  datatype SavedAlert = SavedAlert(id: string, patternId: Value, patternName: Value, severity: string,
                                   title: Value, message: Value, evidence: Value, recommendations: Value,
                                   patientId: string, orgId: Value)

  /** One detected alert as saved: the severity is the given one lowercased,
      "MEDIUM" when absent; `None` when the detected alert is not a dict or
      its severity is not text (the call raises). */
  function BuildAlert(alert: Value, id: string, patientId: string, orgId: Value): Option<SavedAlert> {
    if !alert.VDict? then None
    else
      var e := alert.entries;
      var sev := GetOr(e, "severity", VStr("MEDIUM"));
      if !sev.VStr? then None
      else Some(SavedAlert(id, GetOr(e, "pattern_id", VNone), GetOr(e, "pattern_name", VNone), Lower(sev.s),
                           GetOr(e, "title", VNone), GetOr(e, "message", VNone), GetOr(e, "evidence", VList([])),
                           GetOr(e, "recommendations", VList([])), patientId, orgId))
  }

  /** An alert without a severity is saved as "medium". */
  lemma SeverityDefaultsToMedium(entries: seq<(string, Value)>, id: string, patientId: string, orgId: Value)
    requires "severity" !in Keys(entries)
    ensures BuildAlert(VDict(entries), id, patientId, orgId).Some?
    ensures BuildAlert(VDict(entries), id, patientId, orgId).value.severity == "medium"
  {
    assert Lower("MEDIUM") == "medium";
  }

  /** A given severity is saved lowercased. */
  lemma SeverityLowercased(entries: seq<(string, Value)>, s: string, id: string, patientId: string, orgId: Value)
    requires Lookup(entries, "severity") == Some(VStr(s))
    ensures BuildAlert(VDict(entries), id, patientId, orgId) ==
              Some(SavedAlert(id, GetOr(entries, "pattern_id", VNone), GetOr(entries, "pattern_name", VNone), Lower(s),
                              GetOr(entries, "title", VNone), GetOr(entries, "message", VNone),
                              GetOr(entries, "evidence", VList([])), GetOr(entries, "recommendations", VList([])),
                              patientId, orgId))
  {
  }

  /** `saved` is what writing the first `|saved|` detected alerts gives. */
  predicate SavedPrefix(alerts: seq<Value>, saved: seq<SavedAlert>, patientId: string, orgId: Value,
                        newId: nat -> string)
  {
    |saved| <= |alerts| &&
    forall i :: 0 <= i < |saved| ==> BuildAlert(alerts[i], newId(i), patientId, orgId) == Some(saved[i])
  }

  lemma SavedPrefixSnoc(alerts: seq<Value>, saved: seq<SavedAlert>, a: SavedAlert, patientId: string, orgId: Value,
                        newId: nat -> string)
    requires SavedPrefix(alerts, saved, patientId, orgId, newId) && |saved| < |alerts|
    requires BuildAlert(alerts[|saved|], newId(|saved|), patientId, orgId) == Some(a)
    ensures SavedPrefix(alerts, saved + [a], patientId, orgId, newId)
  {
    var s := saved + [a];
    forall i | 0 <= i < |s| ensures BuildAlert(alerts[i], newId(i), patientId, orgId) == Some(s[i]) {
      if i < |saved| {
        assert s[i] == saved[i];
        assert BuildAlert(alerts[i], newId(i), patientId, orgId) == Some(s[i]);
      } else {
        assert s[i] == a;
        assert BuildAlert(alerts[i], newId(i), patientId, orgId) == Some(s[i]);
      }
    }
  }

  /** The alerts `process` saves before it stops: every detected alert in
      order, up to the first one that cannot be written. */
  function SavedRun(alerts: seq<Value>, patientId: string, orgId: Value, newId: nat -> string): (r: seq<SavedAlert>)
    ensures SavedPrefix(alerts, r, patientId, orgId, newId)
    ensures |r| < |alerts| ==> BuildAlert(alerts[|r|], newId(|r|), patientId, orgId).None?
    decreases |alerts|
  {
    if alerts == [] then []
    else
      var n := |alerts| - 1;
      var r := SavedRun(alerts[..n], patientId, orgId, newId);
      SavedPrefixWiden(alerts, n, r, patientId, orgId, newId);
      if |r| < n then r
      else match BuildAlert(alerts[n], newId(n), patientId, orgId)
        case None => r
        case Some(a) => SavedPrefixSnoc(alerts, r, a, patientId, orgId, newId); r + [a]
  }

  /** A prefix saved from the first `n` alerts is a prefix saved from all
      of them, and stops at the same alert. */
  lemma SavedPrefixWiden(alerts: seq<Value>, n: nat, r: seq<SavedAlert>, patientId: string, orgId: Value,
                         newId: nat -> string)
    requires n <= |alerts| && SavedPrefix(alerts[..n], r, patientId, orgId, newId)
    ensures SavedPrefix(alerts, r, patientId, orgId, newId)
    ensures |r| < n ==> alerts[..n][|r|] == alerts[|r|]
  {
    forall i | 0 <= i < |r| ensures BuildAlert(alerts[i], newId(i), patientId, orgId) == Some(r[i]) {
      assert alerts[..n][i] == alerts[i];
    }
  }

  /** Saving stops at one place only: two saved prefixes that each either
      cover every alert or stop at an alert that cannot be written are the
      same. */
  lemma SavedPrefixUnique(alerts: seq<Value>, s1: seq<SavedAlert>, s2: seq<SavedAlert>, patientId: string,
                          orgId: Value, newId: nat -> string)
    requires SavedPrefix(alerts, s1, patientId, orgId, newId) && SavedPrefix(alerts, s2, patientId, orgId, newId)
    requires |s1| < |alerts| ==> BuildAlert(alerts[|s1|], newId(|s1|), patientId, orgId).None?
    requires |s2| < |alerts| ==> BuildAlert(alerts[|s2|], newId(|s2|), patientId, orgId).None?
    ensures s1 == s2
  {
    if |s1| < |s2| {
      assert false;
    } else if |s2| < |s1| {
      assert false;
    } else {
      forall i | 0 <= i < |s1| ensures s1[i] == s2[i] {
        assert BuildAlert(alerts[i], newId(i), patientId, orgId) == Some(s1[i]);
      }
    }
  }

  /** The saving loop of `process`: alerts are written in order until one
      cannot be (the call then raises); the risk level is recalculated
      only when the loop completes with at least one saved alert. `newId(i)`
      is the id the store gives the i-th written alert. */
  method SaveAlerts(alerts: seq<Value>, patientId: string, orgId: Value, newId: nat -> string)
    returns (saved: seq<SavedAlert>, completed: bool, recalculate: bool)
    ensures SavedPrefix(alerts, saved, patientId, orgId, newId)
    ensures completed <==> |saved| == |alerts|
    ensures !completed ==> BuildAlert(alerts[|saved|], newId(|saved|), patientId, orgId).None?
    ensures recalculate <==> completed && |alerts| > 0
    ensures saved == SavedRun(alerts, patientId, orgId, newId)
  {
    saved := [];
    var i := 0;
    while i < |alerts|
      invariant 0 <= i <= |alerts| && |saved| == i
      invariant SavedPrefix(alerts, saved, patientId, orgId, newId)
    {
      var a := BuildAlert(alerts[i], newId(i), patientId, orgId);
      if a.None? {
        completed, recalculate := false, false;
        SavedPrefixUnique(alerts, saved, SavedRun(alerts, patientId, orgId, newId), patientId, orgId, newId);
        return;
      }
      SavedPrefixSnoc(alerts, saved, a.value, patientId, orgId, newId);
      saved := saved + [a.value];
      i := i + 1;
    }
    completed := true;
    recalculate := saved != [];
    SavedPrefixUnique(alerts, saved, SavedRun(alerts, patientId, orgId, newId), patientId, orgId, newId);
  }

  // ---------------------------------------------------------------------
  // Morning scan

  /** A saved alert as the scan annotates it. */
  datatype ScanAlert = ScanAlert(alert: SavedAlert, patientName: Value, patientId: Value, channelName: Value)

  datatype ScanResults = ScanResults(high: seq<ScanAlert>, medium: seq<ScanAlert>, low: seq<ScanAlert>,
                                     unchangedCount: nat, scannedCount: nat)

  function EmptyResults(): ScanResults { ScanResults([], [], [], 0, 0) }

  /** Sorting one alert: "high" and "medium" have their own lists,
      anything else is low. */
  function AddAlert(r: ScanResults, a: ScanAlert): ScanResults {
    var sev := Lower(a.alert.severity);
    if sev == "high" then r.(high := r.high + [a])
    else if sev == "medium" then r.(medium := r.medium + [a])
    else r.(low := r.low + [a])
  }

  function Annotate(a: SavedAlert, patient: seq<(string, Value)>, pid: Value): ScanAlert {
    ScanAlert(a, GetOr(patient, "name", VStr("不明")), pid, GetOr(patient, "slack_channel_name", VStr("")))
  }

  function AddAlerts(r: ScanResults, alerts: seq<SavedAlert>, patient: seq<(string, Value)>, pid: Value): ScanResults
  {
    if alerts == [] then r
    else AddAlert(AddAlerts(r, alerts[..|alerts| - 1], patient, pid), Annotate(alerts[|alerts| - 1], patient, pid))
  }

  /** What `process` gives the scan for one patient: a failure it
      reports, the saved alerts, or an exception, which ends the scan. */
  datatype Detection = DetectFailed | Detected(alerts: seq<SavedAlert>) | DetectRaised

  /** One patient of the scan. `hasRecent(pid)` says whether the patient
      has a report in the look-back window and `detect(pid)` is the
      detection outcome; `None` when it raised. */
  function ScanStep(r: ScanResults, patient: seq<(string, Value)>,
                    hasRecent: Value -> bool, detect: Value -> Detection): Option<ScanResults>
  {
    var pid := GetOr(patient, "id", VNone);
    if !Truthy(pid) then Some(r)
    else
      var r1 := r.(scannedCount := r.scannedCount + 1);
      if !hasRecent(pid) then Some(r1.(unchangedCount := r1.unchangedCount + 1))
      else match detect(pid)
        case DetectFailed => Some(r1)
        case Detected(alerts) => Some(AddAlerts(r1, alerts, patient, pid))
        case DetectRaised => None
  }

  /** `scan_all_patients` over the listed patients, in order; `None` when
      some detection raised. */
  function Scan(patients: seq<seq<(string, Value)>>, hasRecent: Value -> bool,
                detect: Value -> Detection): Option<ScanResults>
  {
    if patients == [] then Some(EmptyResults())
    else match Scan(patients[..|patients| - 1], hasRecent, detect)
      case None => None
      case Some(r) => ScanStep(r, patients[|patients| - 1], hasRecent, detect)
  }

  /** Detection is run for this patient and raises. */
  predicate RaisesAt(patient: seq<(string, Value)>, hasRecent: Value -> bool, detect: Value -> Detection) {
    var pid := GetOr(patient, "id", VNone);
    Truthy(pid) && hasRecent(pid) && detect(pid) == DetectRaised
  }

  /** The scan raises exactly when the detection of some patient with an
      id and recent reports raises. */
  lemma {:induction false} ScanRaisesIff(patients: seq<seq<(string, Value)>>, hasRecent: Value -> bool,
                                          detect: Value -> Detection)
    ensures Scan(patients, hasRecent, detect).None? <==>
              exists i :: 0 <= i < |patients| && RaisesAt(patients[i], hasRecent, detect)
  {
    if patients != [] {
      var n := |patients| - 1;
      ScanRaisesIff(patients[..n], hasRecent, detect);
      ScanRaisesStep(patients, hasRecent, detect);
      RaisesSomewhereStep(patients, hasRecent, detect);
    }
  }

  /** The scan of one more patient raises when the scan before did, or
      when this patient's detection raises. */
  lemma ScanRaisesStep(patients: seq<seq<(string, Value)>>, hasRecent: Value -> bool, detect: Value -> Detection)
    requires patients != []
    ensures Scan(patients, hasRecent, detect).None? <==>
              Scan(patients[..|patients| - 1], hasRecent, detect).None? ||
              RaisesAt(patients[|patients| - 1], hasRecent, detect)
  {
  }

  lemma RaisesSomewhereStep(patients: seq<seq<(string, Value)>>, hasRecent: Value -> bool, detect: Value -> Detection)
    requires patients != []
    ensures var n := |patients| - 1;
            (exists i :: 0 <= i < |patients| && RaisesAt(patients[i], hasRecent, detect)) <==>
              (exists i :: 0 <= i < n && RaisesAt(patients[..n][i], hasRecent, detect)) ||
              RaisesAt(patients[n], hasRecent, detect)
  {
    var n := |patients| - 1;
    if exists i :: 0 <= i < |patients| && RaisesAt(patients[i], hasRecent, detect) {
      var i :| 0 <= i < |patients| && RaisesAt(patients[i], hasRecent, detect);
      if i < n {
        assert patients[..n][i] == patients[i];
      }
    }
    if exists i :: 0 <= i < n && RaisesAt(patients[..n][i], hasRecent, detect) {
      var i :| 0 <= i < n && RaisesAt(patients[..n][i], hasRecent, detect);
      assert patients[..n][i] == patients[i];
    }
  }

  function AlertCount(r: ScanResults): nat { |r.high| + |r.medium| + |r.low| }

  /** Every sorted alert lands in exactly one list, at its end. */
  lemma {:induction false} AddAlertsCount(r: ScanResults, alerts: seq<SavedAlert>, patient: seq<(string, Value)>, pid: Value)
    ensures AlertCount(AddAlerts(r, alerts, patient, pid)) == AlertCount(r) + |alerts|
    ensures AddAlerts(r, alerts, patient, pid).scannedCount == r.scannedCount
    ensures AddAlerts(r, alerts, patient, pid).unchangedCount == r.unchangedCount
    decreases |alerts|
  {
    if alerts != [] {
      AddAlertsCount(r, alerts[..|alerts| - 1], patient, pid);
    }
  }

  /** Patients with an id. */
  function WithId(patients: seq<seq<(string, Value)>>): nat {
    if patients == [] then 0
    else WithId(patients[..|patients| - 1]) + if Truthy(GetOr(patients[|patients| - 1], "id", VNone)) then 1 else 0
  }

  /** Every patient with an id is scanned exactly once, those without are
      skipped, and a patient counted unchanged was scanned, so `unchanged`
      never exceeds `scanned`. */
  lemma {:induction false} ScanCounters(patients: seq<seq<(string, Value)>>, hasRecent: Value -> bool,
                                         detect: Value -> Detection)
    ensures Scan(patients, hasRecent, detect).Some? ==>
              Scan(patients, hasRecent, detect).value.scannedCount == WithId(patients)
    ensures Scan(patients, hasRecent, detect).Some? ==>
              Scan(patients, hasRecent, detect).value.unchangedCount <= Scan(patients, hasRecent, detect).value.scannedCount
  {
    if patients != [] {
      var init, p := patients[..|patients| - 1], patients[|patients| - 1];
      ScanCounters(init, hasRecent, detect);
      if Scan(init, hasRecent, detect).Some? {
        StepCounters(Scan(init, hasRecent, detect).value, p, hasRecent, detect);
      }
    }
  }

  /** One patient adds one to `scanned` when it has an id, and to
      `unchanged` at most as much. */
  lemma StepCounters(r: ScanResults, patient: seq<(string, Value)>,
                     hasRecent: Value -> bool, detect: Value -> Detection)
    ensures var d := if Truthy(GetOr(patient, "id", VNone)) then 1 else 0;
            ScanStep(r, patient, hasRecent, detect).Some? ==>
              ScanStep(r, patient, hasRecent, detect).value.scannedCount == r.scannedCount + d &&
              ScanStep(r, patient, hasRecent, detect).value.unchangedCount <= r.unchangedCount + d
  {
    var pid := GetOr(patient, "id", VNone);
    var r1 := r.(scannedCount := r.scannedCount + 1);
    if !Truthy(pid) {
      assert ScanStep(r, patient, hasRecent, detect) == Some(r);
    } else if !hasRecent(pid) {
      assert ScanStep(r, patient, hasRecent, detect) == Some(r1.(unchangedCount := r.unchangedCount + 1));
    } else if detect(pid).DetectFailed? {
      assert ScanStep(r, patient, hasRecent, detect) == Some(r1);
    } else if detect(pid).Detected? {
      AddAlertsCount(r1, detect(pid).alerts, patient, pid);
      assert ScanStep(r, patient, hasRecent, detect) == Some(AddAlerts(r1, detect(pid).alerts, patient, pid));
    } else {
      assert ScanStep(r, patient, hasRecent, detect).None?;
    }
  }

  /** A failed detection changes nothing but `scanned`; a patient without
      recent reports is only counted unchanged, and detection is not run
      for it. */
  lemma FailedOrQuietPatient(r: ScanResults, patient: seq<(string, Value)>,
                             hasRecent: Value -> bool, detect: Value -> Detection)
    requires Truthy(GetOr(patient, "id", VNone))
    ensures !hasRecent(GetOr(patient, "id", VNone)) ==>
              ScanStep(r, patient, hasRecent, detect) == Some(r.(scannedCount := r.scannedCount + 1, unchangedCount := r.unchangedCount + 1))
    ensures hasRecent(GetOr(patient, "id", VNone)) && detect(GetOr(patient, "id", VNone)).DetectFailed? ==>
              ScanStep(r, patient, hasRecent, detect) == Some(r.(scannedCount := r.scannedCount + 1))
  {
  }

  /** The bucket an alert goes to. */
  lemma BucketOfSeverity(r: ScanResults, a: ScanAlert)
    ensures Lower(a.alert.severity) == "high" ==> AddAlert(r, a) == r.(high := r.high + [a])
    ensures Lower(a.alert.severity) == "medium" ==> AddAlert(r, a) == r.(medium := r.medium + [a])
    ensures Lower(a.alert.severity) != "high" && Lower(a.alert.severity) != "medium" ==>
              AddAlert(r, a) == r.(low := r.low + [a])
  {
  }

  /** The scan loop; an exception from a detection ends it. */
  method ScanAllPatients(patients: seq<seq<(string, Value)>>, hasRecent: Value -> bool,
                         detect: Value -> Detection) returns (r: Option<ScanResults>)
    ensures r == Scan(patients, hasRecent, detect)
  {
    var acc := EmptyResults();
    var i := 0;
    while i < |patients|
      invariant 0 <= i <= |patients|
      invariant Scan(patients[..i], hasRecent, detect) == Some(acc)
    {
      ScanPrefixStep(patients, i, hasRecent, detect);
      var next := ScanPatient(acc, patients[i], hasRecent, detect);
      if next.None? {
        ScanRaisedStays(patients, i + 1, hasRecent, detect);
        return None;
      }
      acc := next.value;
      i := i + 1;
    }
    assert patients[..i] == patients;
    r := Some(acc);
  }

  /** The body of the scan loop for one patient. */
  method ScanPatient(r0: ScanResults, patient: seq<(string, Value)>, hasRecent: Value -> bool,
                     detect: Value -> Detection) returns (r: Option<ScanResults>)
    ensures r == ScanStep(r0, patient, hasRecent, detect)
  {
    var pid := GetOr(patient, "id", VNone);
    if !Truthy(pid) {
      return Some(r0);
    }
    var r1 := r0.(scannedCount := r0.scannedCount + 1);
    if !hasRecent(pid) {
      return Some(r1.(unchangedCount := r1.unchangedCount + 1));
    }
    var result := detect(pid);
    if result.DetectRaised? {
      return None;
    }
    if result.DetectFailed? {
      return Some(r1);
    }
    var sorted := SortAlerts(r1, result.alerts, patient, pid);
    r := Some(sorted);
  }

  lemma ScanPrefixStep(patients: seq<seq<(string, Value)>>, i: nat, hasRecent: Value -> bool,
                       detect: Value -> Detection)
    requires i < |patients|
    ensures Scan(patients[..i + 1], hasRecent, detect) ==
              match Scan(patients[..i], hasRecent, detect)
              case None => None
              case Some(r) => ScanStep(r, patients[i], hasRecent, detect)
  {
    assert patients[..i + 1][..i] == patients[..i];
  }

  /** Once a prefix of the patients raised, the whole scan has. */
  lemma {:induction false} ScanRaisedStays(patients: seq<seq<(string, Value)>>, i: nat, hasRecent: Value -> bool,
                                            detect: Value -> Detection)
    requires i <= |patients| && Scan(patients[..i], hasRecent, detect).None?
    ensures Scan(patients, hasRecent, detect).None?
    decreases |patients| - i
  {
    if i < |patients| {
      ScanPrefixStep(patients, i, hasRecent, detect);
      ScanRaisedStays(patients, i + 1, hasRecent, detect);
    } else {
      assert patients[..i] == patients;
    }
  }

  /** The inner loop: each detected alert, annotated, goes to the list of
      its severity. */
  method SortAlerts(r0: ScanResults, alerts: seq<SavedAlert>, patient: seq<(string, Value)>, pid: Value)
    returns (r: ScanResults)
    ensures r == AddAlerts(r0, alerts, patient, pid)
  {
    r := r0;
    var j := 0;
    while j < |alerts|
      invariant 0 <= j <= |alerts|
      invariant r == AddAlerts(r0, alerts[..j], patient, pid)
    {
      assert alerts[..j + 1][..j] == alerts[..j];
      var a := Annotate(alerts[j], patient, pid);
      var sev := Lower(a.alert.severity);
      if sev == "high" {
        r := r.(high := r.high + [a]);
      } else if sev == "medium" {
        r := r.(medium := r.medium + [a]);
      } else {
        r := r.(low := r.low + [a]);
      }
      j := j + 1;
    }
    assert alerts[..j] == alerts;
  }

  // ---------------------------------------------------------------------
  // Morning report

  function Weekday(i: nat): string
    requires i < 7
  {
    ["月", "火", "水", "木", "金", "土", "日"][i]
  }

  function AlertLine(a: ScanAlert): string {
    "• " + Str(a.patientName) + " - " + Str(a.alert.title) + " → #" + Str(a.channelName)
  }

  function AlertLines(alerts: seq<ScanAlert>): (r: seq<string>)
    ensures |r| == |alerts|
  {
    if alerts == [] then [] else AlertLines(alerts[..|alerts| - 1]) + [AlertLine(alerts[|alerts| - 1])]
  }

  /** The report has one line per alert, in order. */
  lemma {:induction false} AlertLinesAt(alerts: seq<ScanAlert>)
    ensures forall i :: 0 <= i < |alerts| ==> AlertLines(alerts)[i] == AlertLine(alerts[i])
  {
    if alerts != [] {
      var init, last := alerts[..|alerts| - 1], alerts[|alerts| - 1];
      AlertLinesAt(init);
      var prefix := AlertLines(init);
      assert AlertLines(alerts) == prefix + [AlertLine(last)];
      forall i | 0 <= i < |alerts| ensures AlertLines(alerts)[i] == AlertLine(alerts[i]) {
        if i < |init| {
          assert init[i] == alerts[i];
          assert prefix[i] == AlertLine(init[i]);
          assert AlertLines(alerts)[i] == prefix[i];
        } else {
          assert i == |init| && alerts[i] == last;
          assert AlertLines(alerts)[i] == AlertLine(last);
        }
      }
    }
  }

  /** A severity section: omitted when empty, else a heading with the
      count, at most five alert lines and a blank line. */
  function Section(heading: string, alerts: seq<ScanAlert>): seq<string> {
    if alerts == [] then []
    else [heading + " (" + NatToString(|alerts|) + "名)"] + AlertLines(Take(alerts, REPORT_SECTION_LIMIT)) + [""]
  }

  function ReportHeader(r: ScanResults, today: string, weekday: nat): seq<string>
    requires weekday < 7
  {
    ["📊 朝レポート | " + today + "（" + Weekday(weekday) + "）",
     "",
     "状態変化: " + IntToString(r.scannedCount - r.unchangedCount) + "名 / 全" + NatToString(r.scannedCount) + "名",
     ""]
  }

  function ReportLines(r: ScanResults, today: string, weekday: nat): seq<string>
    requires weekday < 7
  {
    ReportHeader(r, today, weekday) + Section("🔴 HIGH", r.high) + Section("🟡 MED", r.medium)
    + ["🟢 変化なし: " + NatToString(r.unchangedCount) + "名"]
  }

  /** A section has at most five alert lines and exists only for a
      non-empty list. */
  lemma SectionShape(heading: string, alerts: seq<ScanAlert>)
    ensures Section(heading, alerts) == [] <==> alerts == []
    ensures |Section(heading, alerts)| <= REPORT_SECTION_LIMIT + 2
    ensures alerts != [] ==> Section(heading, alerts)[1..|Section(heading, alerts)| - 1] ==
                               AlertLines(Take(alerts, REPORT_SECTION_LIMIT))
  {
  }

  /** The report never depends on the low alerts, and its change figure
      is scanned minus unchanged. */
  lemma ReportIgnoresLow(r: ScanResults, low: seq<ScanAlert>, today: string, weekday: nat)
    requires weekday < 7
    ensures ReportLines(r.(low := low), today, weekday) == ReportLines(r, today, weekday)
    ensures ReportLines(r, today, weekday)[2] ==
              "状態変化: " + IntToString(r.scannedCount - r.unchangedCount) + "名 / 全" + NatToString(r.scannedCount) + "名"
  {
    HeaderLine(r, today, weekday);
  }

  lemma HeaderLine(r: ScanResults, today: string, weekday: nat)
    requires weekday < 7
    ensures |ReportLines(r, today, weekday)| > 2
    ensures ReportLines(r, today, weekday)[2] == ReportHeader(r, today, weekday)[2]
  {
    IndexInPrefix(ReportHeader(r, today, weekday), Section("🔴 HIGH", r.high), Section("🟡 MED", r.medium),
                  ["🟢 変化なし: " + NatToString(r.unchangedCount) + "名"], 2);
  }

  lemma IndexInPrefix(h: seq<string>, a: seq<string>, b: seq<string>, c: seq<string>, i: nat)
    requires i < |h|
    ensures (h + a + b + c)[i] == h[i]
  {
  }

  /** `format_morning_report`: the lines are built in order and joined
      with newlines. `today` and `weekday` are the clock's date and day. */
  method FormatMorningReport(r: ScanResults, today: string, weekday: nat) returns (text: string)
    requires weekday < 7
    ensures text == Join(ReportLines(r, today, weekday), "\n")
  {
    var lines := ReportHeader(r, today, weekday);
    var high := AppendSection(lines, "🔴 HIGH", r.high);
    var med := AppendSection(high, "🟡 MED", r.medium);
    lines := med + ["🟢 変化なし: " + NatToString(r.unchangedCount) + "名"];
    assert lines == ReportLines(r, today, weekday);
    text := Join(lines, "\n");
  }

  /** The section of one severity: heading, the first five alert lines,
      a blank. */
  method AppendSection(lines: seq<string>, heading: string, alerts: seq<ScanAlert>) returns (out: seq<string>)
    ensures out == lines + Section(heading, alerts)
  {
    out := lines;
    if alerts != [] {
      var shown := AppendAlertLines(out + [heading + " (" + NatToString(|alerts|) + "名)"],
                                    Take(alerts, REPORT_SECTION_LIMIT));
      out := shown + [""];
    }
  }

  /** The loop over the shown alerts of a section. */
  method AppendAlertLines(lines: seq<string>, alerts: seq<ScanAlert>) returns (out: seq<string>)
    ensures out == lines + AlertLines(alerts)
  {
    out := lines;
    var i := 0;
    while i < |alerts|
      invariant 0 <= i <= |alerts|
      invariant out == lines + AlertLines(alerts[..i])
    {
      AlertLinesSnoc(lines, alerts, i);
      out := out + [AlertLine(alerts[i])];
      i := i + 1;
    }
    assert alerts[..i] == alerts;
  }

  lemma AlertLinesSnoc(lines: seq<string>, alerts: seq<ScanAlert>, i: nat)
    requires i < |alerts|
    ensures lines + AlertLines(alerts[..i + 1]) == lines + AlertLines(alerts[..i]) + [AlertLine(alerts[i])]
  {
    assert alerts[..i + 1][..i] == alerts[..i];
  }

  // ---------------------------------------------------------------------
  // One alert as a Slack message

  function SeverityEmoji(severity: string): string {
    if severity == "high" then "🔴"
    else if severity == "medium" then "🟡"
    else if severity == "low" then "🟢"
    else "⚪"
  }

  function Bullets(items: seq<Value>): (r: seq<string>)
    ensures |r| == |items|
    ensures forall i :: 0 <= i < |items| ==> r[i] == "• " + Str(items[i])
  {
    if items == [] then [] else Bullets(items[..|items| - 1]) + ["• " + Str(items[|items| - 1])]
  }

  /** The evidence or recommendation block: nothing for a falsy value,
      else the heading, one bullet per item and, for evidence, a blank
      line; `None` when a truthy value cannot be iterated. */
  function ListBlock(heading: string, v: Value, blank: bool): Option<seq<string>> {
    if !Truthy(v) then Some([])
    else match Iterate(v)
      case None => None
      case Some(items) => Some([heading] + Bullets(items) + if blank then [""] else [])
  }

  function AlertHeading(severity: string, title: Value): string {
    SeverityEmoji(Lower(severity)) + " " + Str(title)
  }

  /** The lines of `format_alert_message`, or `None` where the Python
      raises: a non-text severity, a non-iterable truthy list field, or a
      message that is not text (the final join). */
  function AlertMessageLines(alert: seq<(string, Value)>): Option<seq<string>> {
    var sev := GetOr(alert, "severity", VStr("medium"));
    var message := GetOr(alert, "message", VStr(""));
    if !sev.VStr? || !message.VStr? then None
    else
      var ev := ListBlock("📎 根拠:", GetOr(alert, "evidence", VList([])), true);
      var rc := ListBlock("📋 推奨アクション:", GetOr(alert, "recommendations", VList([])), false);
      if ev.None? || rc.None? then None
      else Some([AlertHeading(sev.s, GetOr(alert, "title", VStr("アラート"))), "", message.s, ""] + ev.value + rc.value)
  }

  /** The dict a saved alert is posted from. */
  function AlertDict(a: SavedAlert): seq<(string, Value)> {
    [("pattern_id", a.patternId), ("pattern_name", a.patternName), ("severity", VStr(a.severity)),
     ("title", a.title), ("message", a.message), ("evidence", a.evidence),
     ("recommendations", a.recommendations), ("patient_id", VStr(a.patientId)), ("org_id", a.orgId),
     ("id", VStr(a.id))]
  }

  /** Falsy evidence and recommendations leave out their blocks: the
      message is its heading, a blank, the message text and a blank. */
  lemma QuietAlertMessage(alert: seq<(string, Value)>, sev: string, title: Value, message: string, ev: Value, rc: Value)
    requires Lookup(alert, "severity") == Some(VStr(sev))
    requires Lookup(alert, "title") == Some(title) && Lookup(alert, "message") == Some(VStr(message))
    requires Lookup(alert, "evidence") == Some(ev) && !Truthy(ev)
    requires Lookup(alert, "recommendations") == Some(rc) && !Truthy(rc)
    ensures AlertMessageLines(alert) == Some([AlertHeading(sev, title), "", message, ""])
  {
    QuietReads(alert, sev, title, message, ev, rc);
    var head := AlertHeading(sev, title);
    assert [head, "", message, ""] + [] + [] == [head, "", message, ""];
  }

  lemma QuietReads(alert: seq<(string, Value)>, sev: string, title: Value, message: string, ev: Value, rc: Value)
    requires Lookup(alert, "severity") == Some(VStr(sev))
    requires Lookup(alert, "title") == Some(title) && Lookup(alert, "message") == Some(VStr(message))
    requires Lookup(alert, "evidence") == Some(ev) && !Truthy(ev)
    requires Lookup(alert, "recommendations") == Some(rc) && !Truthy(rc)
    ensures GetOr(alert, "severity", VStr("medium")) == VStr(sev)
    ensures GetOr(alert, "message", VStr("")) == VStr(message)
    ensures GetOr(alert, "title", VStr("アラート")) == title
    ensures ListBlock("📎 根拠:", GetOr(alert, "evidence", VList([])), true) == Some([])
    ensures ListBlock("📋 推奨アクション:", GetOr(alert, "recommendations", VList([])), false) == Some([])
  {
  }

  /** A severity other than high, medium or low gets the white circle. */
  lemma UnknownSeverityHeading(sev: string, title: Value)
    requires Lower(sev) != "high" && Lower(sev) != "medium" && Lower(sev) != "low"
    ensures AlertHeading(sev, title) == "⚪ " + Str(title)
  {
  }

  lemma SavedSeverityKey(a: SavedAlert)
    ensures Lookup(AlertDict(a), "severity") == Some(VStr(a.severity))
  {
    assert "severity" != "pattern_id" && "severity" != "pattern_name";
    LookupAt(AlertDict(a), 2);
  }

  lemma SavedTitleKey(a: SavedAlert)
    ensures Lookup(AlertDict(a), "title") == Some(a.title)
  {
    assert "title" != "pattern_id" && "title" != "pattern_name" && "title" != "severity";
    LookupAt(AlertDict(a), 3);
  }

  lemma SavedMessageKey(a: SavedAlert)
    ensures Lookup(AlertDict(a), "message") == Some(a.message)
  {
    assert "message" != "pattern_id" && "message" != "pattern_name" && "message" != "severity" && "message" != "title";
    LookupAt(AlertDict(a), 4);
  }

  lemma SavedEvidenceKey(a: SavedAlert)
    ensures Lookup(AlertDict(a), "evidence") == Some(a.evidence)
  {
    assert "evidence" != "pattern_id" && "evidence" != "pattern_name" && "evidence" != "severity" && "evidence" != "title" && "evidence" != "message";
    LookupAt(AlertDict(a), 5);
  }

  lemma SavedRecommendationsKey(a: SavedAlert)
    ensures Lookup(AlertDict(a), "recommendations") == Some(a.recommendations)
  {
    assert "recommendations" != "pattern_id" && "recommendations" != "pattern_name" && "recommendations" != "severity" && "recommendations" != "title" && "recommendations" != "message" && "recommendations" != "evidence";
    LookupAt(AlertDict(a), 6);
  }

  /** A saved alert always carries a title key, so the "アラート" default
      never applies to it: an alert detected without a title is posted
      under the heading "None". */
  lemma UntitledSavedAlertHeading(a: SavedAlert)
    requires a.title == VNone && a.message.VStr?
    requires !Truthy(a.evidence) && !Truthy(a.recommendations)
    ensures AlertMessageLines(AlertDict(a)) == Some([AlertHeading(a.severity, VNone), "", a.message.s, ""])
    ensures AlertHeading(a.severity, VNone) == SeverityEmoji(Lower(a.severity)) + " " + "None"
  {
    var d := AlertDict(a);
    SavedSeverityKey(a);
    SavedTitleKey(a);
    SavedMessageKey(a);
    SavedEvidenceKey(a);
    SavedRecommendationsKey(a);
    QuietAlertMessage(d, a.severity, VNone, a.message.s, a.evidence, a.recommendations);
  }

  /** A detected alert without a message is saved with `None` as its
      message, and posting the saved alert then raises in the final join. */
  lemma MessagelessAlertCannotBePosted(entries: seq<(string, Value)>, id: string, patientId: string, orgId: Value)
    requires "message" !in Keys(entries) && BuildAlert(VDict(entries), id, patientId, orgId).Some?
    ensures BuildAlert(VDict(entries), id, patientId, orgId).value.message == VNone
    ensures AlertMessageLines(AlertDict(BuildAlert(VDict(entries), id, patientId, orgId).value)).None?
  {
    SavedMessageKey(BuildAlert(VDict(entries), id, patientId, orgId).value);
  }

  /** `format_alert_message`: the heading, message, evidence and
      recommendation lines, built in order and joined with newlines. Every
      raising path gives `None`, so the message is checked first. */
  method FormatAlertMessage(alert: seq<(string, Value)>) returns (text: Option<string>)
    ensures text.None? <==> AlertMessageLines(alert).None?
    ensures text.Some? ==> text.value == Join(AlertMessageLines(alert).value, "\n")
  {
    var sev := GetOr(alert, "severity", VStr("medium"));
    var message := GetOr(alert, "message", VStr(""));
    if !sev.VStr? || !message.VStr? {
      return None;
    }
    var lines := [AlertHeading(sev.s, GetOr(alert, "title", VStr("アラート"))), "", message.s, ""];
    var ev := AppendBlock(lines, "📎 根拠:", GetOr(alert, "evidence", VList([])), true);
    if ev.None? {
      return None;
    }
    var rc := AppendBlock(ev.value, "📋 推奨アクション:", GetOr(alert, "recommendations", VList([])), false);
    if rc.None? {
      return None;
    }
    text := Some(Join(rc.value, "\n"));
  }

  /** The bullet loop. */
  method AppendBullets(lines: seq<string>, items: seq<Value>) returns (out: seq<string>)
    ensures out == lines + Bullets(items)
  {
    out := lines;
    var i := 0;
    while i < |items|
      invariant 0 <= i <= |items|
      invariant out == lines + Bullets(items[..i])
    {
      assert items[..i + 1][..i] == items[..i];
      out := out + ["• " + Str(items[i])];
      i := i + 1;
    }
    assert items[..i] == items;
  }

  /** Appending one block. */
  method AppendBlock(lines: seq<string>, heading: string, v: Value, blank: bool) returns (out: Option<seq<string>>)
    ensures ListBlock(heading, v, blank).None? <==> out.None?
    ensures out.Some? ==> out.value == lines + ListBlock(heading, v, blank).value
  {
    if !Truthy(v) {
      return Some(lines);
    }
    var items := Iterate(v);
    if items.None? {
      return None;
    }
    var block := AppendBullets([heading], items.value);
    if blank {
      block := block + [""];
    }
    out := Some(lines + block);
  }

  // ---------------------------------------------------------------------
  // Report history for the detection prompt

  /** `_format_historical_reports`: a placeholder for no reports, else the
      first ten rendered reports separated by rules. `render` is
      `_format_report`. */
  function HistoryText(reports: seq<Value>, render: Value -> string): string {
    if reports == [] then NO_HISTORY
    else Join(Rendered(Take(reports, HISTORY_LIMIT), render), "\n\n---\n\n")
  }

  function Rendered(reports: seq<Value>, render: Value -> string): (r: seq<string>)
    ensures |r| == |reports|
    ensures forall i :: 0 <= i < |reports| ==> r[i] == render(reports[i])
  {
    if reports == [] then [] else Rendered(reports[..|reports| - 1], render) + [render(reports[|reports| - 1])]
  }

  /** At most ten reports are rendered, the first ten in order. */
  lemma HistoryUsesFirstTen(reports: seq<Value>, render: Value -> string)
    requires |reports| > HISTORY_LIMIT
    ensures HistoryText(reports, render) == HistoryText(reports[..HISTORY_LIMIT], render)
  {
  }

  /** The loop of `_format_historical_reports`. */
  method FormatHistoricalReports(reports: seq<Value>, render: Value -> string) returns (text: string)
    ensures text == HistoryText(reports, render)
  {
    if reports == [] {
      return NO_HISTORY;
    }
    var shown := Take(reports, HISTORY_LIMIT);
    var formatted: seq<string> := [];
    var i := 0;
    while i < |shown|
      invariant 0 <= i <= |shown|
      invariant formatted == Rendered(shown[..i], render)
    {
      assert shown[..i + 1][..i] == shown[..i];
      formatted := formatted + [render(shown[i])];
      i := i + 1;
    }
    assert shown[..i] == shown;
    text := Join(formatted, "\n\n---\n\n");
  }
}
