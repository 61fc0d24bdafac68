/** The alert endpoints: listing with patient names and title fallback,
    the detail lookup, acknowledgement followed by a risk recalculation,
    the dashboard statistics and the on-demand patient scan. Store reads
    are inputs; the risk store is `RiskService.RiskStore`. */
module AlertsApi {
  import opened Wrappers
  import opened Text
  import opened PyValue
  import Doc
  import RiskService
  import AlertAgent

  type Dict = seq<(string, Value)>

  /** How many alerts the detail and statistics endpoints read. */
  const READ_LIMIT: nat := 100
  const RECENT_LIMIT: nat := 5

  // ---------------------------------------------------------------------
  // Statistics

  /** `alert.get("severity", "medium")`. */
  function AlertSeverity(alert: Dict): Value {
    GetOr(alert, "severity", VStr("medium"))
  }

  /** The count of one alert: only an exact "high", "medium" or "low" is
      counted; an unhashable severity raises in the `in` test. */
  function SeverityCount(sev: Value): (r: Option<RiskService.Counts>)
    ensures r.Some? <==> Hashable(sev)
    ensures r.Some? ==> r.value.Total() <= 1
  {
    if !Hashable(sev) then None
    else if sev == VStr("high") then Some(RiskService.Counts(1, 0, 0))
    else if sev == VStr("medium") then Some(RiskService.Counts(0, 1, 0))
    else if sev == VStr("low") then Some(RiskService.Counts(0, 0, 1))
    else Some(RiskService.Counts(0, 0, 0))
  }

  predicate IsExactLevel(sev: Value) {
    sev == VStr("high") || sev == VStr("medium") || sev == VStr("low")
  }

  /** The `severity_counts` of a listing. */
  function SeverityCounts(alerts: seq<Dict>): (r: Option<RiskService.Counts>)
    ensures r.Some? ==> r.value.Total() <= |alerts|
  {
    if alerts == [] then Some(RiskService.Counts(0, 0, 0))
    else match SeverityCounts(alerts[..|alerts| - 1])
      case None => None
      case Some(c) =>
        match SeverityCount(AlertSeverity(alerts[|alerts| - 1]))
        case None => None
        case Some(one) => Some(c.Plus(one))
  }

  datatype Stats = Stats(totalUnacknowledged: nat, bySeverity: RiskService.Counts, recent: seq<Dict>)

  /** `get_alert_stats` over the unacknowledged alerts, newest first; the
      store returns at most 100 of them. */
  function AlertStats(unacked: seq<Dict>): (r: Option<Stats>)
    ensures r.Some? ==> r.value.totalUnacknowledged == if |unacked| <= READ_LIMIT then |unacked| else READ_LIMIT
    ensures r.Some? ==> r.value.bySeverity.Total() <= r.value.totalUnacknowledged
    ensures r.Some? ==> |r.value.recent| <= RECENT_LIMIT && r.value.recent <= unacked
  {
    var listed := Take(unacked, READ_LIMIT);
    match SeverityCounts(listed)
    case None => None
    case Some(c) => Some(Stats(|listed|, c, Take(listed, RECENT_LIMIT)))
  }

  /** A missing severity counts as medium; a null or upper-case one is
      not counted at all. */
  lemma StatsSeverityRules(alert: Dict)
    ensures "severity" !in Keys(alert) ==> SeverityCount(AlertSeverity(alert)) == Some(RiskService.Counts(0, 1, 0))
    ensures SeverityCount(VNone) == Some(RiskService.Counts(0, 0, 0))
    ensures SeverityCount(VStr("HIGH")) == Some(RiskService.Counts(0, 0, 0))
  {
  }

  /** The dashboard and the risk engine disagree on the same alerts: a
      missing severity is medium to the one and low to the other, and an
      upper-case "HIGH" is high only to the engine. */
  lemma DashboardDiffersFromEngine()
    ensures SeverityCount(AlertSeverity([])) == Some(RiskService.Counts(0, 1, 0))
    ensures RiskService.CountOne(None) == RiskService.Counts(0, 0, 1)
    ensures SeverityCount(VStr("HIGH")) == Some(RiskService.Counts(0, 0, 0))
    ensures RiskService.CountOne(Some("HIGH")) == RiskService.Counts(1, 0, 0)
  {
    assert AlertSeverity([]) == VStr("medium");
    StatsSeverityRules([]);
    RiskService.MissingSeverityIsLow();
    RiskService.SeverityCaseIgnored();
  }

  /** Exactly the alerts with an exact level are counted: when every
      alert has one, the counts add up to the total. */
  lemma {:induction false} ExactSeveritiesAllCounted(alerts: seq<Dict>)
    requires forall i :: 0 <= i < |alerts| ==> IsExactLevel(AlertSeverity(alerts[i]))
    ensures SeverityCounts(alerts).Some? && SeverityCounts(alerts).value.Total() == |alerts|
  {
    if alerts != [] {
      var init := alerts[..|alerts| - 1];
      assert forall i :: 0 <= i < |init| ==> init[i] == alerts[i];
      ExactSeveritiesAllCounted(init);
      assert IsExactLevel(AlertSeverity(alerts[|alerts| - 1]));
    }
  }

  /** The counting loop of `get_alert_stats`. */
  method GetAlertStats(unacked: seq<Dict>) returns (r: Option<Stats>)
    ensures r == AlertStats(unacked)
  {
    var listed := Take(unacked, READ_LIMIT);
    var high, medium, low := 0, 0, 0;
    var i := 0;
    while i < |listed|
      invariant 0 <= i <= |listed|
      invariant SeverityCounts(listed[..i]) == Some(RiskService.Counts(high, medium, low))
    {
      CountsStep(listed, i);
      var sev := AlertSeverity(listed[i]);
      if !Hashable(sev) {
        CountsFailed(listed, i + 1);
        return None;
      }
      high, medium, low := Tally(high, medium, low, sev);
      i := i + 1;
    }
    assert listed[..i] == listed;
    r := Some(Stats(|listed|, RiskService.Counts(high, medium, low), Take(listed, RECENT_LIMIT)));
  }

  /** The `if`/`elif` chain that counts one hashable severity. */
  method Tally(high: nat, medium: nat, low: nat, sev: Value) returns (high': nat, medium': nat, low': nat)
    requires Hashable(sev)
    ensures RiskService.Counts(high', medium', low') == RiskService.Counts(high, medium, low).Plus(SeverityCount(sev).value)
  {
    high', medium', low' := high, medium, low;
    if sev == VStr("high") {
      high' := high + 1;
    } else if sev == VStr("medium") {
      medium' := medium + 1;
    } else if sev == VStr("low") {
      low' := low + 1;
    }
  }

  /** Counting one more alert of the listing. */
  lemma CountsStep(alerts: seq<Dict>, i: nat)
    requires i < |alerts|
    ensures SeverityCounts(alerts[..i + 1]) ==
              match SeverityCounts(alerts[..i])
              case None => None
              case Some(c) =>
                match SeverityCount(AlertSeverity(alerts[i]))
                case None => None
                case Some(one) => Some(c.Plus(one))
  {
    assert alerts[..i + 1][..i] == alerts[..i];
  }

  lemma {:induction false} CountsFailed(alerts: seq<Dict>, n: nat)
    requires n <= |alerts| && SeverityCounts(alerts[..n]).None?
    ensures SeverityCounts(alerts).None?
    decreases |alerts| - n
  {
    if n < |alerts| {
      assert alerts[..n + 1][..n] == alerts[..n];
      CountsFailed(alerts, n + 1);
    } else {
      assert alerts[..n] == alerts;
    }
  }

  // ---------------------------------------------------------------------
  // Listing

  function PatientIdOf(alert: Dict): Value {
    GetOr(alert, "patient_id", VNone)
  }

  /** The set of truthy patient ids of the listed alerts, fetched once
      each; an unhashable id raises. */
  function PatientIds(alerts: seq<Dict>): (r: Option<set<Value>>)
    ensures r.Some? ==> |r.value| <= |alerts|
  {
    if alerts == [] then Some({})
    else
      var pid := PatientIdOf(alerts[|alerts| - 1]);
      match PatientIds(alerts[..|alerts| - 1])
      case None => None
      case Some(ids) =>
        if !Truthy(pid) then Some(ids)
        else if !Hashable(pid) then None
        else Some(ids + {pid})
  }

  /** Every truthy id is fetched. */
  lemma {:induction false} TruthyIdFetched(alerts: seq<Dict>, i: nat)
    requires PatientIds(alerts).Some? && i < |alerts| && Truthy(PatientIdOf(alerts[i]))
    ensures PatientIdOf(alerts[i]) in PatientIds(alerts).value
  {
    var init := alerts[..|alerts| - 1];
    if i < |init| {
      assert init[i] == alerts[i];
      TruthyIdFetched(init, i);
    }
  }

  /** Only truthy ids of the listed alerts are fetched. */
  lemma {:induction false} FetchedIdIsTruthyId(alerts: seq<Dict>, v: Value)
    requires PatientIds(alerts).Some? && v in PatientIds(alerts).value
    ensures Truthy(v) && exists i :: 0 <= i < |alerts| && PatientIdOf(alerts[i]) == v
  {
    var init := alerts[..|alerts| - 1];
    var last := |alerts| - 1;
    if v in PatientIds(init).value {
      FetchedIdIsTruthyId(init, v);
      var i :| 0 <= i < |init| && PatientIdOf(init[i]) == v;
      assert alerts[i] == init[i];
    } else {
      assert PatientIdOf(alerts[last]) == v;
    }
  }

  /** Many alerts of one patient make one fetch. */
  lemma {:induction false} SamePatientFetchedOnce(alerts: seq<Dict>, pid: Value)
    requires Truthy(pid) && Hashable(pid)
    requires forall i :: 0 <= i < |alerts| ==> PatientIdOf(alerts[i]) == pid
    ensures alerts != [] ==> PatientIds(alerts) == Some({pid})
    ensures alerts == [] ==> PatientIds(alerts) == Some({})
  {
    if alerts != [] {
      var init := alerts[..|alerts| - 1];
      assert forall i :: 0 <= i < |init| ==> init[i] == alerts[i];
      SamePatientFetchedOnce(init, pid);
    }
  }

  /** One alert as listed: the patient's name when the patient was
      fetched, and a title falling back to the pattern name and then to
      "アラート". */
  function Enrich(alert: Dict, patients: map<Value, Dict>): Dict {
    var pid := PatientIdOf(alert);
    var named := if Truthy(pid) && pid in patients then Put(alert, "patient_name", GetOr(patients[pid], "name", VStr("不明"))) else alert;
    if !Truthy(GetOr(named, "title", VNone)) then Put(named, "title", GetOr(named, "pattern_name", VStr("アラート"))) else named
  }

  /** Every listed alert has a title: its own when it is truthy, else the
      pattern name (whatever it is), else "アラート". */
  lemma EnrichedTitle(alert: Dict, patients: map<Value, Dict>)
    ensures var t := GetOr(alert, "title", VNone);
            Lookup(Enrich(alert, patients), "title") ==
              Some(if Truthy(t) then t else GetOr(alert, "pattern_name", VStr("アラート")))
  {
    var pid := PatientIdOf(alert);
    if Truthy(pid) && pid in patients {
      var named := Put(alert, "patient_name", GetOr(patients[pid], "name", VStr("不明")));
      LookupPut(alert, "patient_name", GetOr(patients[pid], "name", VStr("不明")), "title");
      LookupPut(alert, "patient_name", GetOr(patients[pid], "name", VStr("不明")), "pattern_name");
      LookupPut(named, "title", GetOr(named, "pattern_name", VStr("アラート")), "title");
    } else {
      LookupPut(alert, "title", GetOr(alert, "pattern_name", VStr("アラート")), "title");
    }
  }

  /** The patient's name is set only when the patient was fetched;
      otherwise the alert keeps what it had. */
  lemma EnrichedPatientName(alert: Dict, patients: map<Value, Dict>)
    ensures var pid := PatientIdOf(alert);
            Lookup(Enrich(alert, patients), "patient_name") ==
              if Truthy(pid) && pid in patients then Some(GetOr(patients[pid], "name", VStr("不明")))
              else Lookup(alert, "patient_name")
  {
    var pid := PatientIdOf(alert);
    var named := if Truthy(pid) && pid in patients then Put(alert, "patient_name", GetOr(patients[pid], "name", VStr("不明"))) else alert;
    if Truthy(pid) && pid in patients {
      LookupPut(alert, "patient_name", GetOr(patients[pid], "name", VStr("不明")), "patient_name");
    }
    LookupPut(named, "title", GetOr(named, "pattern_name", VStr("アラート")), "patient_name");
  }

  /** Nothing else of an alert changes. */
  lemma EnrichKeepsOtherKeys(alert: Dict, patients: map<Value, Dict>, k: string)
    requires k != "title" && k != "patient_name"
    ensures Lookup(Enrich(alert, patients), k) == Lookup(alert, k)
  {
    var pid := PatientIdOf(alert);
    var named := if Truthy(pid) && pid in patients then Put(alert, "patient_name", GetOr(patients[pid], "name", VStr("不明"))) else alert;
    if Truthy(pid) && pid in patients {
      LookupPut(alert, "patient_name", GetOr(patients[pid], "name", VStr("不明")), k);
    }
    LookupPut(named, "title", GetOr(named, "pattern_name", VStr("アラート")), k);
  }

  /** The enrichment loop of `list_alerts`, on the listed dicts in place. */
  method EnrichInPlace(alerts: array<Dict>, patients: map<Value, Dict>)
    modifies alerts
    ensures forall i :: 0 <= i < alerts.Length ==> alerts[i] == Enrich(old(alerts[i]), patients)
  {
    var i := 0;
    while i < alerts.Length
      invariant 0 <= i <= alerts.Length
      invariant forall j :: 0 <= j < i ==> alerts[j] == Enrich(old(alerts[j]), patients)
      invariant forall j :: i <= j < alerts.Length ==> alerts[j] == old(alerts[j])
    {
      alerts[i] := Enrich(alerts[i], patients);
      i := i + 1;
    }
  }

  /** `list_alerts`: the listed alerts enriched with the patients fetched
      for their ids, and their number; `None` where an id is unhashable.
      `fetch` is the store's batch read. */
  method ListAlerts(listed: seq<Dict>, fetch: set<Value> -> map<Value, Dict>) returns (r: Option<(seq<Dict>, nat)>)
    ensures PatientIds(listed).None? <==> r.None?
    ensures r.Some? ==> var patients := fetch(PatientIds(listed).value);
                        |r.value.0| == |listed| == r.value.1 &&
                        forall i :: 0 <= i < |listed| ==> r.value.0[i] == Enrich(listed[i], patients)
  {
    var ids := PatientIds(listed);
    if ids.None? {
      return None;
    }
    var patients := fetch(ids.value);
    var alerts := new Dict[|listed|](i requires 0 <= i < |listed| => listed[i]);
    EnrichInPlace(alerts, patients);
    r := Some((alerts[..], |listed|));
  }

  // ---------------------------------------------------------------------
  // Detail

  function AlertIdOf(alert: Dict): Value {
    GetOr(alert, "id", VNone)
  }

  /** The first alert whose id is `alertId`. */
  function FirstWithId(alerts: seq<Dict>, alertId: string): (r: Option<nat>)
    ensures r.Some? ==> r.value < |alerts| && AlertIdOf(alerts[r.value]) == VStr(alertId)
    ensures r.Some? ==> forall i :: 0 <= i < r.value ==> AlertIdOf(alerts[i]) != VStr(alertId)
    ensures r.None? ==> forall i :: 0 <= i < |alerts| ==> AlertIdOf(alerts[i]) != VStr(alertId)
  {
    if alerts == [] then None
    else if AlertIdOf(alerts[0]) == VStr(alertId) then Some(0)
    else match FirstWithId(alerts[1..], alertId)
      case None => None
      case Some(i) => Some(i + 1)
  }

  /** The search loop of `get_alert`, stopping at the first match. */
  method FindAlert(alerts: seq<Dict>, alertId: string) returns (r: Option<nat>)
    ensures r == FirstWithId(alerts, alertId)
  {
    r := None;
    var i := 0;
    while i < |alerts|
      invariant 0 <= i <= |alerts|
      invariant forall j :: 0 <= j < i ==> AlertIdOf(alerts[j]) != VStr(alertId)
    {
      if AlertIdOf(alerts[i]) == VStr(alertId) {
        r := Some(i);
        break;
      }
      i := i + 1;
    }
    FirstWithIdIs(alerts, alertId, r);
  }

  lemma {:induction false} FirstWithIdIs(alerts: seq<Dict>, alertId: string, r: Option<nat>)
    requires r.Some? ==> r.value < |alerts| && AlertIdOf(alerts[r.value]) == VStr(alertId)
    requires r.Some? ==> forall i :: 0 <= i < r.value ==> AlertIdOf(alerts[i]) != VStr(alertId)
    requires r.None? ==> forall i :: 0 <= i < |alerts| ==> AlertIdOf(alerts[i]) != VStr(alertId)
    ensures r == FirstWithId(alerts, alertId)
  {
  }

  datatype Detail = Found(alert: Dict, patient: Value) | NotFound   // NotFound: 404 "アラートが見つかりません"

  /** `get_alert` over the patient's stored alerts, newest first; only
      the first 100 are searched. `patient` is the patient read. */
  function GetAlert(stored: seq<Dict>, alertId: string, patient: Option<Dict>): (r: Detail)
    ensures r.NotFound? <==> forall i :: 0 <= i < |stored| && i < READ_LIMIT ==> AlertIdOf(stored[i]) != VStr(alertId)
  {
    var listed := Take(stored, READ_LIMIT);
    assert forall i :: 0 <= i < |listed| ==> listed[i] == stored[i];
    match FirstWithId(listed, alertId)
    case None => NotFound
    case Some(i) => Found(listed[i], match patient case Some(p) => VDict(p) case None => VNone)
  }

  /** An alert older than the newest 100 is not found, even though it is
      stored. */
  lemma OldAlertNotFound(stored: seq<Dict>, alertId: string, patient: Option<Dict>)
    requires forall i :: 0 <= i < |stored| && AlertIdOf(stored[i]) == VStr(alertId) ==> i >= READ_LIMIT
    ensures GetAlert(stored, alertId, patient) == NotFound
  {
  }

  // ---------------------------------------------------------------------
  // Acknowledge and scan

  datatype AckResponse = Acknowledged(alertId: string) | AckRaised   // AckRaised: the store's update raised (500)

  /** `acknowledge_alert`: the alert is marked first, then the level is
      recalculated with trigger "alert_acknowledged", so the snapshot of a
      level change no longer counts the acknowledged alert. A missing
      alert makes the store raise before anything changes. */
  method AcknowledgeAlert(store: RiskService.RiskStore, pid: string, alertId: string, ackBy: string,
                          latest: Option<int>, now: int) returns (resp: AckResponse)
    modifies store
    ensures !RiskService.HasAlert(old(store.AlertsOf(pid)), alertId) ==>
              resp == AckRaised && store.alerts == old(store.alerts) &&
              store.patients == old(store.patients) && store.history == old(store.history)
    ensures RiskService.HasAlert(old(store.AlertsOf(pid)), alertId) ==>
              resp == Acknowledged(alertId) &&
              store.alerts == old(store.alerts)[pid := RiskService.MarkAcknowledged(old(store.AlertsOf(pid)), alertId, ackBy)] &&
              (store.patients, store.history) ==
                RiskService.Recalculated(old(store.patients), store.alerts, old(store.history), pid, "alert_acknowledged",
                                         latest, now)
    ensures RiskService.HasAlert(old(store.AlertsOf(pid)), alertId) && pid in old(store.patients) ==>
              var p := old(store.patients[pid]);
              var sevs := RiskService.Listed(RiskService.MarkAcknowledged(old(store.AlertsOf(pid)), alertId, ackBy));
              var d := RiskService.Calculate(RiskService.CountSeverities(sevs), RiskService.CurrentLevel(p),
                                             RiskService.CurrentSource(p), latest, now);
              d.level != RiskService.CurrentLevel(p) ==>
                store.history == old(store.history)[pid := old(store.HistoryOf(pid)) + [RiskService.HistoryEntry(
                  RiskService.CurrentLevel(p), d.level, "auto", RiskService.ReasonText(d.reason), "alert_acknowledged",
                  RiskService.CountSeverities(sevs), "system")]]
  {
    ghost var before := store.AlertsOf(pid);
    ghost var past := store.HistoryOf(pid);
    var found := store.Acknowledge(pid, alertId, ackBy);
    if !found {
      return AckRaised;
    }
    assert store.AlertsOf(pid) == RiskService.MarkAcknowledged(before, alertId, ackBy);
    assert store.HistoryOf(pid) == past;
    ghost var log := store.history;
    ghost var sevs := RiskService.Listed(store.AlertsOf(pid));
    var _ := store.Recalculate(pid, "alert_acknowledged", latest, now);
    if pid in old(store.patients) {
      ghost var p := old(store.patients[pid]);
      ghost var d := RiskService.Calculate(RiskService.CountSeverities(sevs), RiskService.CurrentLevel(p),
                                           RiskService.CurrentSource(p), latest, now);
      assert d.level != RiskService.CurrentLevel(p) ==>
        store.history == log[pid := past + [RiskService.HistoryEntry(
          RiskService.CurrentLevel(p), d.level, "auto", RiskService.ReasonText(d.reason), "alert_acknowledged",
          RiskService.CountSeverities(sevs), "system")]];
    }
    resp := Acknowledged(alertId);
  }

  /** How the alert agent's `process` ended. `AgentFailed` is its early
      failure result (the patient was not found, or the reply was not
      JSON), with that error; `AgentReplied` carries the reply's alerts,
      which it then saves in order; `AgentRaised` is an exception before
      anything was saved (building the prompt, the model call). */
  datatype AgentRun = AgentFailed(error: Value) | AgentReplied(alerts: seq<Value>) | AgentRaised

  /** A saved alert as the store holds it: its severity, not acknowledged. */
  function StoredOf(a: AlertAgent.SavedAlert): RiskService.StoredAlert {
    RiskService.StoredAlert(a.id, Doc.Present(a.severity), false, None)
  }

  /** The saved alerts as the store lists them, newest first. */
  function NewestFirst(saved: seq<AlertAgent.SavedAlert>): (r: seq<RiskService.StoredAlert>)
    ensures |r| == |saved|
    ensures forall i :: 0 <= i < |r| ==> r[i] == StoredOf(saved[|saved| - 1 - i])
  {
    if saved == [] then [] else NewestFirst(saved[1..]) + [StoredOf(saved[0])]
  }

  /** `patient.get("org_id")`, which every saved alert carries. */
  function OrgOf(patient: Dict): Value {
    GetOr(patient, "org_id", VNone)
  }

  /** The agent's result when it failed without raising. */
  function FailedResult(error: Value): Dict {
    [("success", VBool(false)), ("error", error), ("alerts", VList([]))]
  }

  /** The agent's result once every alert was saved. */
  function SavedResult(patient: Dict, saved: seq<AlertAgent.SavedAlert>): Dict {
    [("success", VBool(true)),
     ("alerts", VList(seq(|saved|, i requires 0 <= i < |saved| => VDict(AlertAgent.AlertDict(saved[i]))))),
     ("patient_name", GetOr(patient, "name", VStr("不明")))]
  }

  /** The response of a patient scan: the agent's verdict (false when it
      gave none), the agent's patient name or else the patient's, its
      alerts (none when it gave none) and its error. */
  function ScanResponse(pid: string, patient: Dict, result: Dict): Value {
    VDict([("success", GetOr(result, "success", VBool(false))),
           ("patient_id", VStr(pid)),
           ("patient_name", GetOr(result, "patient_name", GetOr(patient, "name", VStr("不明")))),
           ("alerts", GetOr(result, "alerts", VList([]))),
           ("error", GetOr(result, "error", VNone))])
  }

  /** Reading the four reported keys of a response dict, by its keys'
      distinct lengths. */
  lemma ResponseKeys(a: Value, b: Value, c: Value, d: Value, e: Value)
    ensures var entries := [("success", a), ("patient_id", b), ("patient_name", c), ("alerts", d), ("error", e)];
            Lookup(entries, "success") == Some(a) && Lookup(entries, "patient_name") == Some(c) &&
            Lookup(entries, "alerts") == Some(d) && Lookup(entries, "error") == Some(e)
  {
    var entries := [("success", a), ("patient_id", b), ("patient_name", c), ("alerts", d), ("error", e)];
    assert |entries[0].0| == 7 && |entries[1].0| == 10 && |entries[2].0| == 12 && |entries[3].0| == 6;
    assert Lookup(entries, "patient_name") == Lookup(entries[1..], "patient_name") == Lookup(entries[2..], "patient_name");
    assert Lookup(entries, "alerts") == Lookup(entries[1..], "alerts") == Lookup(entries[2..], "alerts") ==
           Lookup(entries[3..], "alerts");
    assert Lookup(entries, "error") == Lookup(entries[1..], "error") == Lookup(entries[2..], "error") ==
           Lookup(entries[3..], "error") == Lookup(entries[4..], "error");
  }

  /** The five fields of a scan response read back. */
  lemma ResponseReads(pid: string, patient: Dict, result: Dict)
    ensures var r := ScanResponse(pid, patient, result);
            r.VDict? && Lookup(r.entries, "success") == Some(GetOr(result, "success", VBool(false))) &&
            Lookup(r.entries, "patient_name") ==
              Some(GetOr(result, "patient_name", GetOr(patient, "name", VStr("不明")))) &&
            Lookup(r.entries, "alerts") == Some(GetOr(result, "alerts", VList([]))) &&
            Lookup(r.entries, "error") == Some(GetOr(result, "error", VNone))
  {
    ResponseKeys(GetOr(result, "success", VBool(false)), VStr(pid),
                 GetOr(result, "patient_name", GetOr(patient, "name", VStr("不明"))),
                 GetOr(result, "alerts", VList([])), GetOr(result, "error", VNone));
  }

  /** A failed agent run reports failure, no alerts and the agent's error,
      under the stored patient name. */
  lemma FailedScanReports(pid: string, patient: Dict, error: Value)
    ensures var r := ScanResponse(pid, patient, FailedResult(error));
            r.VDict? && Lookup(r.entries, "success") == Some(VBool(false)) &&
            Lookup(r.entries, "patient_name") == Some(GetOr(patient, "name", VStr("不明"))) &&
            Lookup(r.entries, "alerts") == Some(VList([])) && Lookup(r.entries, "error") == Some(error)
  {
    ResponseReads(pid, patient, FailedResult(error));
    var result := FailedResult(error);
    assert |result[0].0| == 7 && |result[1].0| == 5 && |result[2].0| == 6 && |"patient_name"| == 12;
    assert Lookup(result, "error") == Lookup(result[1..], "error");
    assert Lookup(result, "alerts") == Lookup(result[1..], "alerts") == Lookup(result[2..], "alerts");
    assert Lookup(result, "patient_name") == Lookup(result[1..], "patient_name") ==
           Lookup(result[2..], "patient_name") == Lookup(result[3..], "patient_name");
  }

  /** A completed agent run reports success, every saved alert in saving
      order, and no error. */
  lemma SavedScanReports(pid: string, patient: Dict, saved: seq<AlertAgent.SavedAlert>)
    ensures var r := ScanResponse(pid, patient, SavedResult(patient, saved));
            r.VDict? && Lookup(r.entries, "success") == Some(VBool(true)) &&
            Lookup(r.entries, "error") == Some(VNone) &&
            exists alerts :: Lookup(r.entries, "alerts") == Some(VList(alerts)) && |alerts| == |saved| &&
              forall i :: 0 <= i < |saved| ==> alerts[i] == VDict(AlertAgent.AlertDict(saved[i]))
  {
    ResponseReads(pid, patient, SavedResult(patient, saved));
    var result := SavedResult(patient, saved);
    assert |result[0].0| == 7 && |result[1].0| == 6 && |result[2].0| == 12 && |"error"| == 5;
    assert Lookup(result, "alerts") == Lookup(result[1..], "alerts");
    assert Lookup(result, "error") == Lookup(result[1..], "error") == Lookup(result[2..], "error") ==
           Lookup(result[3..], "error");
    var alerts := result[1].1.items;
    assert forall i :: 0 <= i < |saved| ==> alerts[i] == VDict(AlertAgent.AlertDict(saved[i]));
  }

  /** The outcome of `scan_patient_alerts`: a 404 for a missing or empty
      patient, a 500 when the agent raised, or the response. */
  datatype ScanOutcome = ScanMissing | ScanRaised | Scanned(body: Value)

  /** The saving half of the agent's `process` on a reply: its alerts are
      saved in order until one cannot be (`None`: the agent raises, and
      what was saved stays); when all are saved and there is at least one,
      the level is recalculated with "alert_created" at `createdAt`. */
  method SaveReply(store: RiskService.RiskStore, pid: string, patient: Dict, alerts: seq<Value>,
                   newId: nat -> string, latest: Option<int>, createdAt: int) returns (result: Option<Dict>)
    modifies store
    ensures var saved := AlertAgent.SavedRun(alerts, pid, OrgOf(patient), newId);
            store.alerts == RiskService.WithCreated(old(store.alerts), pid, NewestFirst(saved)) &&
            (result.None? <==> |saved| < |alerts|) &&
            (result.Some? ==> result.value == SavedResult(patient, saved))
    ensures var saved := AlertAgent.SavedRun(alerts, pid, OrgOf(patient), newId);
            |saved| < |alerts| || saved == [] ==>
              store.patients == old(store.patients) && store.history == old(store.history)
    ensures var saved := AlertAgent.SavedRun(alerts, pid, OrgOf(patient), newId);
            |saved| == |alerts| && saved != [] ==>
              (store.patients, store.history) ==
                RiskService.Recalculated(old(store.patients), store.alerts, old(store.history), pid, "alert_created",
                                         latest, createdAt)
  {
    var saved, completed, recalculate := AlertAgent.SaveAlerts(alerts, pid, OrgOf(patient), newId);
    store.CreateAlerts(pid, NewestFirst(saved));
    if !completed {
      return None;
    }
    if recalculate {
      var _ := store.Recalculate(pid, "alert_created", latest, createdAt);
    }
    result := Some(SavedResult(patient, saved));
  }

  /** `scan_patient_alerts`: a missing patient is a 404 with nothing
      changed. Otherwise the agent runs: an exception before saving is a
      500 with nothing changed; a failure result leaves the alerts alone.
      A reply's alerts are saved in order until one cannot be (the scan
      then raises, keeping what was saved); when all are saved and there
      is at least one, the level is recalculated with "alert_created" at
      `createdAt`. After a run that did not raise, the level is
      recalculated again with "alert_scan" at `now`. `newId(i)` is the id
      the store gives the i-th saved alert. */
  method ScanPatientAlerts(store: RiskService.RiskStore, pid: string, patient: Option<Dict>, run: AgentRun,
                           newId: nat -> string, latest: Option<int>, createdAt: int, now: int)
    returns (resp: ScanOutcome)
    modifies store
    ensures patient.None? || patient.value == [] || run.AgentRaised? ==>
              resp == (if patient.None? || patient.value == [] then ScanMissing else ScanRaised) &&
              store.alerts == old(store.alerts) &&
              store.patients == old(store.patients) && store.history == old(store.history)
    ensures patient.Some? && patient.value != [] && run.AgentFailed? ==>
              resp == Scanned(ScanResponse(pid, patient.value, FailedResult(run.error))) &&
              store.alerts == old(store.alerts) &&
              (store.patients, store.history) ==
                RiskService.Recalculated(old(store.patients), old(store.alerts), old(store.history), pid, "alert_scan",
                                         latest, now)
    ensures patient.Some? && patient.value != [] && run.AgentReplied? ==>
              var saved := AlertAgent.SavedRun(run.alerts, pid, OrgOf(patient.value), newId);
              store.alerts == RiskService.WithCreated(old(store.alerts), pid, NewestFirst(saved)) &&
              (|saved| < |run.alerts| ==>
                 resp == ScanRaised && store.patients == old(store.patients) && store.history == old(store.history)) &&
              (|saved| == |run.alerts| ==>
                 resp == Scanned(ScanResponse(pid, patient.value, SavedResult(patient.value, saved))))
    ensures patient.Some? && patient.value != [] && run.AgentReplied? ==>
              var saved := AlertAgent.SavedRun(run.alerts, pid, OrgOf(patient.value), newId);
              |saved| == |run.alerts| ==>
                var created := if saved == [] then (old(store.patients), old(store.history))
                               else RiskService.Recalculated(old(store.patients), store.alerts, old(store.history), pid,
                                                             "alert_created", latest, createdAt);
                (store.patients, store.history) ==
                  RiskService.Recalculated(created.0, store.alerts, created.1, pid, "alert_scan", latest, now)
  {
    if patient.None? || patient.value == [] {
      return ScanMissing;
    }
    var result: Dict;
    match run {
      case AgentRaised =>
        return ScanRaised;
      case AgentFailed(error) =>
        result := FailedResult(error);
      case AgentReplied(alerts) =>
        var saved := SaveReply(store, pid, patient.value, alerts, newId, latest, createdAt);
        if saved.None? {
          return ScanRaised;
        }
        result := saved.value;
    }
    var _ := store.Recalculate(pid, "alert_scan", latest, now);
    resp := Scanned(ScanResponse(pid, patient.value, result));
  }

  /** The alerts a completed scan saves are counted by both of its
      recalculations: newest first, ahead of every older alert, up to the
      engine's limit. */
  lemma ScanCountsSavedAlerts(alerts: map<string, seq<RiskService.StoredAlert>>, pid: string,
                              saved: seq<AlertAgent.SavedAlert>)
    requires |saved| <= RiskService.UNACKED_LIMIT
    ensures var after := RiskService.WithCreated(alerts, pid, NewestFirst(saved));
            var listed := RiskService.Listed(if pid in after then after[pid] else []);
            |saved| <= |listed| &&
            forall i :: 0 <= i < |saved| ==> listed[i] == Some(saved[|saved| - 1 - i].severity)
  {
    var created := NewestFirst(saved);
    var older := if pid in alerts then alerts[pid] else [];
    RiskService.CreatedListedFirst(created, older);
  }
}
