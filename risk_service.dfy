/** The patient risk-level engine: counting unacknowledged alerts by
    severity, the first-match escalation / de-escalation rules, and the
    store update that writes a new level and appends one history entry
    whenever the level changes. */
module RiskService {
  import opened Wrappers
  import opened Text
  import opened Doc

  const SECONDS_PER_DAY: int := 86400
  /** How many unacknowledged alerts the engine reads per patient. */
  const UNACKED_LIMIT: nat := 100

  /** Japanese severity labels used in the reasons. */
  const HIGH_LABEL: string := "緊急"
  const MEDIUM_LABEL: string := "注意"
  const LOW_LABEL: string := "情報"

  /** The alert snapshot: counted unacknowledged alerts per severity. */
  datatype Counts = Counts(high: nat, medium: nat, low: nat) {
    function Total(): nat { high + medium + low }
    function Plus(o: Counts): Counts { Counts(high + o.high, medium + o.medium, low + o.low) }
  }

  /** `(x or "low").lower()`: a missing or empty value reads as "low",
      anything else is lowercased. Used for alert severities and for the
      stored risk level. */
  function LevelKey(v: Option<string>): string {
    match v
    case None => "low"
    case Some(s) => if s == "" then "low" else Lower(s)
  }

  /** Which counter of `{"high": 0, "medium": 0, "low": 0}` an alert's
      severity key falls into, if any. */
  datatype Bucket = HighBucket | MediumBucket | LowBucket | NoBucket

  function BucketOf(sev: Option<string>): Bucket {
    var k := LevelKey(sev);
    if k == "high" then HighBucket
    else if k == "medium" then MediumBucket
    else if k == "low" then LowBucket
    else NoBucket
  }

  /** The count of one alert. */
  function CountOne(sev: Option<string>): (c: Counts)
    ensures c.Total() <= 1
  {
    match BucketOf(sev)
    case HighBucket => Counts(1, 0, 0)
    case MediumBucket => Counts(0, 1, 0)
    case LowBucket => Counts(0, 0, 1)
    case NoBucket => Counts(0, 0, 0)
  }

  /** The counting loop over the listed alerts (one severity per alert). */
  function CountSeverities(sevs: seq<Option<string>>): Counts {
    if sevs == [] then Counts(0, 0, 0)
    else CountSeverities(sevs[..|sevs| - 1]).Plus(CountOne(sevs[|sevs| - 1]))
  }

  /** No more alerts are counted than are listed. */
  lemma {:induction false} CountBound(sevs: seq<Option<string>>)
    ensures CountSeverities(sevs).Total() <= |sevs|
  {
    if sevs != [] {
      CountBound(sevs[..|sevs| - 1]);
    }
  }

  /** Counting distributes over concatenation, so the order of the listed
      alerts does not matter. */
  lemma {:induction false} CountConcat(a: seq<Option<string>>, b: seq<Option<string>>)
    ensures CountSeverities(a + b) == CountSeverities(a).Plus(CountSeverities(b))
    decreases |b|
  {
    if b == [] {
      assert a + b == a;
    } else {
      var b', last := b[..|b| - 1], b[|b| - 1];
      assert b == b' + [last] && a + b == (a + b') + [last];
      CountSnoc(a + b', last);
      CountSnoc(b', last);
      CountConcat(a, b');
    }
  }

  /** Counting one more listed alert. */
  lemma CountSnoc(sevs: seq<Option<string>>, sev: Option<string>)
    ensures CountSeverities(sevs + [sev]) == CountSeverities(sevs).Plus(CountOne(sev))
  {
    assert (sevs + [sev])[..|sevs|] == sevs;
  }

  /** An alert whose severity is not high, medium or low (after the
      default and lowercasing) is not counted at all. */
  lemma {:induction false} UnrecognisedNotCounted(sevs: seq<Option<string>>)
    requires forall i :: 0 <= i < |sevs| ==> !IsLevel(LevelKey(sevs[i]))
    ensures CountSeverities(sevs) == Counts(0, 0, 0)
  {
    if sevs != [] {
      var init := sevs[..|sevs| - 1];
      assert forall i :: 0 <= i < |init| ==> init[i] == sevs[i];
      UnrecognisedNotCounted(init);
      assert !IsLevel(LevelKey(sevs[|sevs| - 1]));
    }
  }

  /** Missing or empty severities count as low. */
  lemma MissingSeverityIsLow()
    ensures CountOne(None) == Counts(0, 0, 1)
    ensures CountOne(Some("")) == Counts(0, 0, 1)
  {
    assert LevelKey(None) == "low" && LevelKey(Some("")) == "low";
    assert BucketOf(None) == LowBucket && BucketOf(Some("")) == LowBucket;
  }

  /** The case of a severity is ignored. */
  lemma SeverityCaseIgnored()
    ensures CountOne(Some("HIGH")) == Counts(1, 0, 0)
  {
    assert Lower("HIGH") == "high";
  }

  /** A severity other than high, medium or low is not counted. */
  lemma OtherSeverityIgnored()
    ensures CountOne(Some("critical")) == Counts(0, 0, 0)
  {
    assert Lower("critical") == "critical";
  }

  /** Why the engine chose a level; `ReasonText` renders the stored text. */
  datatype Reason =
    | Unacknowledged(severityLabel: string, n: nat)   // escalation by unacknowledged alerts
    | ManualPin                               // manual level, no automatic change
    | NoAlertHistory                          // no alert ever: low
    | QuietFor(days: int)                     // 14 days or more without alerts: low
    | SteppedDown(days: int)                  // 7 to 13 days: one level down
    | Holding                                 // already at the floor
    | RecentAlert                             // an alert within the last 7 days

  function ReasonText(r: Reason): string {
    match r
    case Unacknowledged(lbl, n) => "未確認の" + lbl + "アラートが" + NatToString(n) + "件あります"
    case ManualPin => "手動設定中のため自動変更なし"
    case NoAlertHistory => "アラート履歴がないため低リスクに設定"
    case QuietFor(d) => "全アラート確認済み・" + IntToString(d) + "日間新規アラートなし"
    case SteppedDown(d) => "全アラート確認済み・" + IntToString(d) + "日間新規アラートなし（1段階下げ）"
    case Holding => "現状維持"
    case RecentAlert => "7日以内にアラートがあるため現状維持"
  }

  /** The reason logged for a manual change. */
  function ManualReason(changedBy: string): string {
    "手動変更（" + changedBy + "による）"
  }

  datatype Decision = Decision(level: string, reason: Reason)

  /** The three levels, from the top. */
  predicate IsLevel(s: string) {
    s == "high" || s == "medium" || s == "low"
  }

  /** `level_order[i]` for `level_order = ["high", "medium", "low"]`. */
  function LevelAt(i: nat): string
    requires i < 3
  {
    if i == 0 then "high" else if i == 1 then "medium" else "low"
  }

  /** `level_order.index(level)`, with an unknown level at index 0. */
  function LevelIndex(level: string): (i: nat)
    ensures i < 3
    ensures IsLevel(level) ==> LevelAt(i) == level
  {
    if level == "high" then 0 else if level == "medium" then 1 else if level == "low" then 2 else 0
  }

  /** One step down the level order, with low as the floor. */
  function StepDown(level: string): string {
    var i := LevelIndex(level) + 1;
    LevelAt(if i < 2 then i else 2)
  }

  /** Whole days elapsed, as `timedelta.days`: rounded towards minus
      infinity. Timestamps are seconds. */
  function DaysSince(latest: int, now: int): int {
    (now - latest) / SECONDS_PER_DAY
  }

  /** The elapsed time lies within the counted whole days. */
  lemma DaysSinceBounds(latest: int, now: int)
    ensures DaysSince(latest, now) * SECONDS_PER_DAY <= now - latest < (DaysSince(latest, now) + 1) * SECONDS_PER_DAY
  {
  }

  /** The rule chain with no counted alert left. */
  function Deescalate(current: string, source: Option<string>, latest: Option<int>, now: int): Decision {
    if source == Some("manual") then Decision(current, ManualPin)
    else if latest.None? then Decision("low", NoAlertHistory)
    else
      var days := DaysSince(latest.value, now);
      if days >= 14 then Decision("low", QuietFor(days))
      else if days >= 7 then
        var next := StepDown(current);
        if next != current then Decision(next, SteppedDown(days)) else Decision(current, Holding)
      else Decision(current, RecentAlert)
  }

  /** The pure rule chain over the counted unacknowledged alerts:
      escalation first, first match wins; then de-escalation when none is
      counted. `source` is the stored level source (`None` for a stored
      null), `latest` the time of the newest alert ever raised, `now` the
      wall clock. */
  function Calculate(c: Counts, current: string, source: Option<string>,
                     latest: Option<int>, now: int): (d: Decision)
    ensures IsLevel(d.level) || d.level == current
  {
    if c.high >= 1 then Decision("high", Unacknowledged(HIGH_LABEL, c.high))
    else if c.medium >= 2 then Decision("high", Unacknowledged(MEDIUM_LABEL, c.medium))
    else if c.medium == 1 then Decision("medium", Unacknowledged(MEDIUM_LABEL, 1))
    else if c.low >= 3 then Decision("medium", Unacknowledged(LOW_LABEL, c.low))
    else if c.low >= 1 then Decision("low", Unacknowledged(LOW_LABEL, c.low))
    else if c.Total() == 0 then Deescalate(current, source, latest, now)
    else
      // The closing fallback of the chain: every positive count has been
      // handled above, so it is never reached.
      assert false; Decision(current, Holding)
  }

  /** One counted high alert is enough for "high", whatever the current
      level and even when the level was set manually. */
  lemma HighDominates(c: Counts, current: string, source: Option<string>, latest: Option<int>, now: int)
    requires c.high >= 1
    ensures Calculate(c, current, source, latest, now) == Decision("high", Unacknowledged(HIGH_LABEL, c.high))
  {
  }

  /** Without a high alert, the first matching rule wins. */
  lemma EscalationOrder(c: Counts, current: string, source: Option<string>, latest: Option<int>, now: int)
    requires c.high == 0
    ensures var d := Calculate(c, current, source, latest, now);
            && (c.medium >= 2 ==> d.level == "high")
            && (c.medium == 1 ==> d.level == "medium")
            && (c.medium == 0 && c.low >= 3 ==> d.level == "medium")
            && (c.medium == 0 && 1 <= c.low <= 2 ==> d.level == "low")
            && (c.Total() > 0 ==> d.reason.Unacknowledged?)
  {
  }

  /** The order of the three levels. */
  function Rank(level: string): nat {
    if level == "high" then 2 else if level == "medium" then 1 else 0
  }

  /** More counted alerts never lower an escalated level. */
  lemma EscalationMonotone(c: Counts, extra: Counts, current: string,
                           source: Option<string>, latest: Option<int>, now: int)
    requires c.Total() > 0
    ensures Rank(Calculate(c.Plus(extra), current, source, latest, now).level)
         >= Rank(Calculate(c, current, source, latest, now).level)
  {
  }

  /** The same for the listed alerts: appending alerts to the list never
      lowers an escalated level. */
  lemma {:induction false} MoreAlertsNeverLower(sevs: seq<Option<string>>, more: seq<Option<string>>, current: string,
                                                source: Option<string>, latest: Option<int>, now: int)
    requires CountSeverities(sevs).Total() > 0
    ensures Rank(Calculate(CountSeverities(sevs + more), current, source, latest, now).level)
         >= Rank(Calculate(CountSeverities(sevs), current, source, latest, now).level)
  {
    CountConcat(sevs, more);
    EscalationMonotone(CountSeverities(sevs), CountSeverities(more), current, source, latest, now);
  }

  /** With nothing counted and a manual source, the level stays. */
  lemma ManualPinHolds(current: string, latest: Option<int>, now: int)
    ensures Calculate(Counts(0, 0, 0), current, Some("manual"), latest, now) == Decision(current, ManualPin)
  {
  }

  /** With nothing counted and any other source: no alert ever gives low,
      14 or more whole days give low, 7 to 13 days step down one level, and
      fewer than 7 days (also a latest alert in the future) keep the
      level. */
  lemma DeescalationRules(current: string, source: Option<string>, latest: Option<int>, now: int)
    requires source != Some("manual")
    ensures var d := Calculate(Counts(0, 0, 0), current, source, latest, now);
            && (latest.None? ==> d == Decision("low", NoAlertHistory))
            && (latest.Some? && now - latest.value >= 14 * SECONDS_PER_DAY ==> d.level == "low")
            && (latest.Some? && 7 * SECONDS_PER_DAY <= now - latest.value < 14 * SECONDS_PER_DAY ==>
                  d.level == StepDown(current))
            && (latest.Some? && now - latest.value < 7 * SECONDS_PER_DAY ==> d == Decision(current, RecentAlert))
  {
    if latest.Some? {
      var days := DaysSince(latest.value, now);
      DaysSinceBounds(latest.value, now);
      if now - latest.value >= 14 * SECONDS_PER_DAY {
        assert days >= 14;
      } else if now - latest.value >= 7 * SECONDS_PER_DAY {
        assert 7 <= days < 14;
      } else {
        assert days < 7;
      }
    }
  }

  /** Stepping down moves exactly one level: high to medium, medium to low,
      low stays, and an unknown level is treated as high. */
  lemma StepDownOneLevel(level: string)
    ensures level == "high" ==> StepDown(level) == "medium"
    ensures level == "medium" ==> StepDown(level) == "low"
    ensures level == "low" ==> StepDown(level) == "low"
    ensures !IsLevel(level) ==> StepDown(level) == "medium"
  {
  }

  /** A level reached by escalation is stable: recalculating with the same
      counts and the automatic source it was stored with changes nothing,
      at any later time. */
  lemma EscalationStable(c: Counts, current: string, source: Option<string>,
                         latest: Option<int>, now: int, later: int)
    requires c.Total() > 0
    ensures var d := Calculate(c, current, source, latest, now);
            Calculate(c, d.level, Some("auto"), latest, later).level == d.level
  {
  }

  /** Step-down has no memory of earlier steps: two recalculations inside
      the same 7 to 13 day window take a high level down to low. */
  lemma TwoStepsInOneWindow(latest: int, now: int)
    requires 7 * SECONDS_PER_DAY <= now - latest < 14 * SECONDS_PER_DAY
    ensures Calculate(Counts(0, 0, 0), "high", Some("auto"), Some(latest), now).level == "medium"
    ensures Calculate(Counts(0, 0, 0), "medium", Some("auto"), Some(latest), now).level == "low"
  {
    var days := DaysSince(latest, now);
    DaysSinceBounds(latest, now);
    assert 7 <= days < 14;
  }

  /** A level change always lands on one of the three known levels, and a
      manually set level only changes when some alert is counted. */
  lemma ChangedLevelIsKnown(c: Counts, current: string, source: Option<string>, latest: Option<int>, now: int)
    ensures var d := Calculate(c, current, source, latest, now);
            d.level != current ==> IsLevel(d.level) && (c.Total() > 0 || source != Some("manual"))
  {
  }

  /** The snapshot loop of `recalculate` and `record_manual_change`. */
  method TakeSnapshot(sevs: seq<Option<string>>) returns (c: Counts)
    ensures c == CountSeverities(sevs)
  {
    c := Counts(0, 0, 0);
    var i := 0;
    assert sevs[..i] == [];
    while i < |sevs|
      invariant 0 <= i <= |sevs|
      invariant c == CountSeverities(sevs[..i])
    {
      var prefix := sevs[..i + 1];
      assert prefix[..i] == sevs[..i] && prefix[i] == sevs[i];
      assert CountSeverities(prefix) == c.Plus(CountOne(sevs[i]));
      c := c.Plus(CountOne(sevs[i]));   // `if sev in counts: counts[sev] += 1`
      i := i + 1;
    }
    assert sevs[..i] == sevs;
  }

  /** The risk fields of a patient document. */
  datatype RiskFields = RiskFields(level: Field<string>, source: Field<string>,
                                   reason: Field<string>, updatedAt: Option<int>)

  /** An alert stored under a patient. */
  datatype StoredAlert = StoredAlert(id: string, severity: Field<string>,
                                     acknowledged: bool, acknowledgedBy: Option<string>)

  datatype HistoryEntry = HistoryEntry(previousLevel: string, newLevel: string, source: string,
                                       reason: string, trigger: string, snapshot: Counts,
                                       createdBy: string)

  datatype RecalcResult =
    | PatientNotFound
    | Unchanged(currentLevel: string, reason: string)
    | Changed(previousLevel: string, newLevel: string, reason: string)

  /** The unacknowledged alerts, in stored order. */
  function UnackedAlerts(alerts: seq<StoredAlert>): (r: seq<StoredAlert>)
    ensures |r| <= |alerts|
    ensures forall i :: 0 <= i < |r| ==> !r[i].acknowledged
  {
    if alerts == [] then []
    else (if alerts[0].acknowledged then [] else [alerts[0]]) + UnackedAlerts(alerts[1..])
  }

  function Severities(alerts: seq<StoredAlert>): (r: seq<Option<string>>)
    ensures |r| == |alerts|
  {
    if alerts == [] then [] else [alerts[0].severity.Get()] + Severities(alerts[1..])
  }

  /** What the engine lists for a patient: the severities of the newest
      `UNACKED_LIMIT` unacknowledged alerts. */
  function Listed(alerts: seq<StoredAlert>): (r: seq<Option<string>>)
    ensures |r| <= UNACKED_LIMIT
  {
    Severities(Take(UnackedAlerts(alerts), UNACKED_LIMIT))
  }

  /** The store's `acknowledge_alert` on a patient's alerts: the alert
      with that id is marked acknowledged, by whom; the others are kept. */
  function MarkAcknowledged(alerts: seq<StoredAlert>, id: string, ackBy: string): (r: seq<StoredAlert>)
    ensures |r| == |alerts|
    ensures forall i :: 0 <= i < |alerts| ==>
              r[i] == if alerts[i].id == id then alerts[i].(acknowledged := true, acknowledgedBy := Some(ackBy)) else alerts[i]
  {
    if alerts == [] then []
    else
      var a := alerts[0];
      [if a.id == id then a.(acknowledged := true, acknowledgedBy := Some(ackBy)) else a] + MarkAcknowledged(alerts[1..], id, ackBy)
  }

  /** The alerts after `create_alert` wrote `created` (newest first) for
      a patient: they come before the patient's older alerts. */
  function WithCreated(alerts: map<string, seq<StoredAlert>>, pid: string, created: seq<StoredAlert>)
    : map<string, seq<StoredAlert>>
  {
    if created == [] then alerts else alerts[pid := created + (if pid in alerts then alerts[pid] else [])]
  }

  /** Unacknowledged alerts put in front stay in front of the
      unacknowledged ones. */
  lemma {:induction false} UnackedPrepend(created: seq<StoredAlert>, older: seq<StoredAlert>)
    requires forall i :: 0 <= i < |created| ==> !created[i].acknowledged
    ensures UnackedAlerts(created + older) == created + UnackedAlerts(older)
  {
    if created == [] {
      assert created + older == older;
    } else {
      assert (created + older)[1..] == created[1..] + older;
      UnackedPrepend(created[1..], older);
    }
  }

  lemma {:induction false} SeveritiesAt(alerts: seq<StoredAlert>, i: nat)
    requires i < |alerts|
    ensures Severities(alerts)[i] == alerts[i].severity.Get()
  {
    if i > 0 {
      SeveritiesAt(alerts[1..], i - 1);
    }
  }

  /** New alerts, unacknowledged and newest, are what the engine lists
      first: up to `UNACKED_LIMIT` of them are all counted, before any
      older alert. */
  lemma CreatedListedFirst(created: seq<StoredAlert>, older: seq<StoredAlert>)
    requires forall i :: 0 <= i < |created| ==> !created[i].acknowledged
    requires |created| <= UNACKED_LIMIT
    ensures |created| <= |Listed(created + older)|
    ensures forall i :: 0 <= i < |created| ==> Listed(created + older)[i] == created[i].severity.Get()
  {
    var u := UnackedAlerts(created + older);
    UnackedPrepend(created, older);
    var t := Take(u, UNACKED_LIMIT);
    assert |created| <= |t|;
    forall i | 0 <= i < |created| ensures Listed(created + older)[i] == created[i].severity.Get() {
      SeveritiesAt(t, i);
      assert t[i] == u[i] == created[i];
    }
  }

  predicate HasAlert(alerts: seq<StoredAlert>, id: string) {
    exists i :: 0 <= i < |alerts| && alerts[i].id == id
  }

  /** The alerts without the one with that id. */
  function WithoutId(alerts: seq<StoredAlert>, id: string): (r: seq<StoredAlert>)
    ensures |r| <= |alerts|
  {
    if alerts == [] then []
    else (if alerts[0].id == id then [] else [alerts[0]]) + WithoutId(alerts[1..], id)
  }

  /** Acknowledging removes exactly that alert from the unacknowledged
      ones, in place. */
  lemma {:induction false} UnackedAfterAcknowledge(alerts: seq<StoredAlert>, id: string, ackBy: string)
    ensures UnackedAlerts(MarkAcknowledged(alerts, id, ackBy)) == WithoutId(UnackedAlerts(alerts), id)
  {
    if alerts != [] {
      var m := MarkAcknowledged(alerts, id, ackBy);
      assert m[1..] == MarkAcknowledged(alerts[1..], id, ackBy);
      UnackedAfterAcknowledge(alerts[1..], id, ackBy);
      var a, rest := alerts[0], UnackedAlerts(alerts[1..]);
      if a.acknowledged {
        assert m[0].acknowledged;
        assert UnackedAlerts(m) == UnackedAlerts(m[1..]);
        assert UnackedAlerts(alerts) == rest;
      } else if a.id == id {
        assert m[0].acknowledged;
        assert UnackedAlerts(m) == UnackedAlerts(m[1..]);
        assert UnackedAlerts(alerts) == [a] + rest;
        assert ([a] + rest)[0] == a && ([a] + rest)[1..] == rest;
        assert WithoutId([a] + rest, id) == WithoutId(rest, id);
      } else {
        assert m[0] == a;
        assert UnackedAlerts(m) == [a] + UnackedAlerts(m[1..]);
        assert UnackedAlerts(alerts) == [a] + rest;
        assert ([a] + rest)[0] == a && ([a] + rest)[1..] == rest;
        assert WithoutId([a] + rest, id) == [a] + WithoutId(rest, id);
      }
    }
  }

  /** Component-wise at most. */
  predicate AtMost(c: Counts, d: Counts) {
    c.high <= d.high && c.medium <= d.medium && c.low <= d.low
  }

  lemma CountFront(s: Option<string>, rest: seq<Option<string>>)
    ensures CountSeverities([s] + rest) == CountOne(s).Plus(CountSeverities(rest))
  {
    CountConcat([s], rest);
    assert [s][..0] == [];
    assert CountSeverities([s]) == Counts(0, 0, 0).Plus(CountOne(s));
  }

  /** Leaving alerts out never counts more of any severity. */
  lemma {:induction false} WithoutIdCountsLess(alerts: seq<StoredAlert>, id: string)
    ensures AtMost(CountSeverities(Severities(WithoutId(alerts, id))), CountSeverities(Severities(alerts)))
  {
    if alerts != [] {
      var a, rest := alerts[0], alerts[1..];
      var one := CountOne(a.severity.Get());
      WithoutIdCountsLess(rest, id);
      var w := WithoutId(rest, id);
      assert Severities(alerts) == [a.severity.Get()] + Severities(rest);
      CountFront(a.severity.Get(), Severities(rest));
      var whole := CountSeverities(Severities(alerts));
      assert whole == one.Plus(CountSeverities(Severities(rest)));
      if a.id == id {
        assert WithoutId(alerts, id) == w;
      } else {
        assert WithoutId(alerts, id) == [a] + w;
        assert ([a] + w)[0] == a && ([a] + w)[1..] == w;
        assert Severities([a] + w) == [a.severity.Get()] + Severities(w);
        CountFront(a.severity.Get(), Severities(w));
      }
    }
  }

  /** While a patient has no more unacknowledged alerts than the engine
      reads, acknowledging one never adds to any severity count of the
      next recalculation. */
  lemma AcknowledgeNeverAddsCounts(alerts: seq<StoredAlert>, id: string, ackBy: string)
    requires |UnackedAlerts(alerts)| <= UNACKED_LIMIT
    ensures AtMost(CountSeverities(Listed(MarkAcknowledged(alerts, id, ackBy))), CountSeverities(Listed(alerts)))
  {
    UnackedAfterAcknowledge(alerts, id, ackBy);
    WithoutIdCountsLess(UnackedAlerts(alerts), id);
  }

  /** The stored level as the engine reads it. */
  function CurrentLevel(p: RiskFields): string {
    LevelKey(p.level.Get())
  }

  /** The stored source as the engine reads it: a missing source is
      "manual". */
  function CurrentSource(p: RiskFields): Option<string> {
    p.source.GetDefault("manual")
  }

  /** A patient's entry of a per-patient map of logs, empty when absent. */
  function LogOf(history: map<string, seq<HistoryEntry>>, pid: string): seq<HistoryEntry> {
    if pid in history then history[pid] else []
  }

  /** The risk fields and history logs after `pid`'s level is
      recalculated over the stored alerts: nothing changes for an unknown
      patient or an unchanged level; a new level is written with the
      "auto" source and logged with its snapshot. */
  function Recalculated(patients: map<string, RiskFields>, alerts: map<string, seq<StoredAlert>>,
                        history: map<string, seq<HistoryEntry>>, pid: string, trigger: string,
                        latest: Option<int>, now: int): (map<string, RiskFields>, map<string, seq<HistoryEntry>>)
  {
    if pid !in patients then (patients, history)
    else
      var p := patients[pid];
      var sevs := Listed(if pid in alerts then alerts[pid] else []);
      var d := Calculate(CountSeverities(sevs), CurrentLevel(p), CurrentSource(p), latest, now);
      if d.level == CurrentLevel(p) then (patients, history)
      else (patients[pid := RiskFields(Present(d.level), Present("auto"), Present(ReasonText(d.reason)), Some(now))],
            history[pid := LogOf(history, pid) + [HistoryEntry(CurrentLevel(p), d.level, "auto", ReasonText(d.reason),
                                                               trigger, CountSeverities(sevs), "system")]])
  }

  /** A recalculation touches only `pid`'s risk fields and log. */
  lemma RecalculatedTouchesOnly(patients: map<string, RiskFields>, alerts: map<string, seq<StoredAlert>>,
                                history: map<string, seq<HistoryEntry>>, pid: string, trigger: string,
                                latest: Option<int>, now: int)
    ensures var r := Recalculated(patients, alerts, history, pid, trigger, latest, now);
            r.0.Keys == patients.Keys &&
            (forall q :: q in patients && q != pid ==> r.0[q] == patients[q]) &&
            (forall q :: q != pid ==> LogOf(r.1, q) == LogOf(history, q))
  {
    if Recalculated(patients, alerts, history, pid, trigger, latest, now) != (patients, history) {
      var f, e := RecalcWrite(patients, alerts, history, pid, trigger, latest, now);
      WriteTouchesOnly(patients, history, pid, f, e);
    }
  }

  lemma WriteTouchesOnly(patients: map<string, RiskFields>, history: map<string, seq<HistoryEntry>>, pid: string,
                         f: RiskFields, e: HistoryEntry)
    requires pid in patients
    ensures var ps, hs := patients[pid := f], history[pid := LogOf(history, pid) + [e]];
            ps.Keys == patients.Keys &&
            (forall q :: q in patients && q != pid ==> ps[q] == patients[q]) &&
            (forall q :: q != pid ==> LogOf(hs, q) == LogOf(history, q))
  {
    var hs := history[pid := LogOf(history, pid) + [e]];
    forall q | q != pid ensures LogOf(hs, q) == LogOf(history, q) {
      assert q in hs <==> q in history;
    }
  }

  /** Either nothing changes, or the patient's log gains exactly one
      entry, with the trigger and the "auto" source, recording the move
      from the old level to a different one, the one that is written. */
  lemma RecalculatedLogsWrite(patients: map<string, RiskFields>, alerts: map<string, seq<StoredAlert>>,
                              history: map<string, seq<HistoryEntry>>, pid: string, trigger: string,
                              latest: Option<int>, now: int)
    ensures var r := Recalculated(patients, alerts, history, pid, trigger, latest, now);
            var n := |LogOf(history, pid)|;
            r == (patients, history) ||
            (pid in patients && |LogOf(r.1, pid)| == n + 1 && LogOf(r.1, pid)[..n] == LogOf(history, pid) &&
             LogOf(r.1, pid)[n].trigger == trigger && LogOf(r.1, pid)[n].source == "auto" &&
             LogOf(r.1, pid)[n].previousLevel == CurrentLevel(patients[pid]) &&
             LogOf(r.1, pid)[n].newLevel != LogOf(r.1, pid)[n].previousLevel &&
             r.0[pid].level == Present(LogOf(r.1, pid)[n].newLevel))
  {
    if Recalculated(patients, alerts, history, pid, trigger, latest, now) != (patients, history) {
      var f, e := RecalcWrite(patients, alerts, history, pid, trigger, latest, now);
      WriteLogs(patients, history, pid, f, e);
    }
  }

  lemma WriteLogs(patients: map<string, RiskFields>, history: map<string, seq<HistoryEntry>>, pid: string,
                  f: RiskFields, e: HistoryEntry)
    ensures var hs := history[pid := LogOf(history, pid) + [e]];
            var n := |LogOf(history, pid)|;
            |LogOf(hs, pid)| == n + 1 && LogOf(hs, pid)[..n] == LogOf(history, pid) && LogOf(hs, pid)[n] == e &&
            patients[pid := f][pid] == f
  {
    var hs := history[pid := LogOf(history, pid) + [e]];
    assert LogOf(hs, pid) == LogOf(history, pid) + [e];
  }

  /** What a recalculation that changes something writes: the new fields
      `f` of the patient and the entry `e` appended to its log. */
  lemma RecalcWrite(patients: map<string, RiskFields>, alerts: map<string, seq<StoredAlert>>,
                    history: map<string, seq<HistoryEntry>>, pid: string, trigger: string,
                    latest: Option<int>, now: int) returns (f: RiskFields, e: HistoryEntry)
    requires Recalculated(patients, alerts, history, pid, trigger, latest, now) != (patients, history)
    ensures pid in patients
    ensures Recalculated(patients, alerts, history, pid, trigger, latest, now) ==
              (patients[pid := f], history[pid := LogOf(history, pid) + [e]])
    ensures e.trigger == trigger && e.source == "auto" && e.previousLevel == CurrentLevel(patients[pid])
    ensures e.newLevel != e.previousLevel && f.level == Present(e.newLevel)
  {
    var p := patients[pid];
    var sevs := Listed(if pid in alerts then alerts[pid] else []);
    var d := Calculate(CountSeverities(sevs), CurrentLevel(p), CurrentSource(p), latest, now);
    var reason := ReasonText(d.reason);
    f := RiskFields(Present(d.level), Present("auto"), Present(reason), Some(now));
    e := HistoryEntry(CurrentLevel(p), d.level, "auto", reason, trigger, CountSeverities(sevs), "system");
  }

  /** The patients' risk fields, their alerts (newest first) and their
      risk history logs. */
  class RiskStore {
    var patients: map<string, RiskFields>
    var alerts: map<string, seq<StoredAlert>>
    var history: map<string, seq<HistoryEntry>>

    constructor (patients: map<string, RiskFields>, alerts: map<string, seq<StoredAlert>>)
      ensures this.patients == patients && this.alerts == alerts && history == map[]
    {
      this.patients := patients;
      this.alerts := alerts;
      history := map[];
    }

    function AlertsOf(pid: string): seq<StoredAlert>
      reads this`alerts
    {
      if pid in alerts then alerts[pid] else []
    }

    function HistoryOf(pid: string): seq<HistoryEntry>
      reads this`history
    {
      if pid in history then history[pid] else []
    }

    /** Recalculates a patient's level. The store is written, and one
        history entry appended, exactly when the level changes. */
    method Recalculate(pid: string, trigger: string, latest: Option<int>, now: int)
      returns (res: RecalcResult)
      modifies this
      ensures alerts == old(alerts)
      ensures (patients, history) == Recalculated(old(patients), old(alerts), old(history), pid, trigger, latest, now)
      ensures pid !in old(patients) ==> res == PatientNotFound && patients == old(patients) && history == old(history)
      ensures pid in old(patients) ==>
        var p := old(patients[pid]);
        var sevs := Listed(old(AlertsOf(pid)));
        var d := Calculate(CountSeverities(sevs), CurrentLevel(p), CurrentSource(p), latest, now);
        if d.level == CurrentLevel(p) then
          && res == Unchanged(d.level, ReasonText(d.reason))
          && patients == old(patients) && history == old(history)
        else
          && res == Changed(CurrentLevel(p), d.level, ReasonText(d.reason))
          && patients == old(patients)[pid := RiskFields(Present(d.level), Present("auto"),
                                                         Present(ReasonText(d.reason)), Some(now))]
          && history == old(history)[pid := old(HistoryOf(pid)) + [HistoryEntry(
               CurrentLevel(p), d.level, "auto", ReasonText(d.reason), trigger,
               CountSeverities(sevs), "system")]]
    {
      if pid !in patients {
        res := PatientNotFound;
      } else {
        var p, log, past := patients[pid], history, HistoryOf(pid);
        var stored := if pid in alerts then alerts[pid] else [];
        var sevs := Listed(stored);
        var current := CurrentLevel(p);
        var d := Calculate(CountSeverities(sevs), current, CurrentSource(p), latest, now);
        var reason := ReasonText(d.reason);
        if d.level == current {
          res := Unchanged(current, reason);
        } else {
          var snapshot := TakeSnapshot(sevs);
          patients := patients[pid := RiskFields(Present(d.level), Present("auto"), Present(reason), Some(now))];
          history := log[pid := past + [HistoryEntry(current, d.level, "auto", reason, trigger, snapshot, "system")]];
          res := Changed(current, d.level, reason);
          assert past == old(HistoryOf(pid)) && log == old(history);
        }
      }
    }

    /** `acknowledge_alert`: marks the patient's alert with that id, by
        whom; `found` is false, and nothing changes, when there is no such
        alert (the store's update raises). */
    method Acknowledge(pid: string, alertId: string, ackBy: string) returns (found: bool)
      modifies this`alerts
      ensures found <==> HasAlert(old(AlertsOf(pid)), alertId)
      ensures alerts == if found then old(alerts)[pid := MarkAcknowledged(old(AlertsOf(pid)), alertId, ackBy)] else old(alerts)
    {
      var stored := AlertsOf(pid);
      found := HasAlert(stored, alertId);
      if found {
        alerts := alerts[pid := MarkAcknowledged(stored, alertId, ackBy)];
      }
    }

    /** `create_alert` for a patient's new alerts, given newest first:
        they precede the older ones; the risk fields and logs are kept. */
    method CreateAlerts(pid: string, created: seq<StoredAlert>)
      modifies this`alerts
      ensures alerts == WithCreated(old(alerts), pid, created)
      ensures created != [] ==> AlertsOf(pid) == created + old(AlertsOf(pid))
    {
      alerts := WithCreated(alerts, pid, created);
    }

    /** Logs a manual level change: exactly one entry, with the manual
        source and trigger, attributed to the changer. The level itself is
        written by the caller. */
    method RecordManualChange(pid: string, newLevel: string, changedBy: string, previousLevel: string)
      modifies this
      ensures patients == old(patients) && alerts == old(alerts)
      ensures history == old(history)[pid := old(HistoryOf(pid)) + [HistoryEntry(
                previousLevel, newLevel, "manual", ManualReason(changedBy), "manual_update",
                CountSeverities(Listed(old(AlertsOf(pid)))), changedBy)]]
    {
      var sevs, log, past := Listed(AlertsOf(pid)), history, HistoryOf(pid);
      var snapshot := TakeSnapshot(sevs);
      var entry := HistoryEntry(previousLevel, newLevel, "manual", ManualReason(changedBy), "manual_update",
                                snapshot, changedBy);
      history := log[pid := past + [entry]];
      assert sevs == Listed(old(AlertsOf(pid))) && past == old(HistoryOf(pid)) && log == old(history);
    }
  }
}
