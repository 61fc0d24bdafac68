/** The orchestrator's decisions: which handler a Slack event goes to, how
    a mention is dispatched by keyword, and which reporter role a report's
    text suggests. The handlers themselves (model calls, Slack posts) are
    not part of this module. */
module RootAgent {
  import opened Wrappers
  import opened Text

  /** The fields `route_event` reads from a Slack event; `text` defaults
      to "" when absent. */
  datatype Event = Event(eventType: Option<string>, channel: Option<string>, text: string,
                         threadTs: Option<string>, user: Option<string>, ts: Option<string>)

  /** The patient document linked to a channel. */
  datatype Patient = Patient(id: Option<string>, anchorTs: Option<string>)

  datatype MentionAction = SummaryRequest | SaveRequest | Question(text: string)

  datatype Route =
    | NoPatient                                   // "このチャンネルに紐づく患者が見つかりません"
    | Intake(patientId: Option<string>, text: string, user: Option<string>, messageTs: Option<string>, threadTs: string)
    | CasualChat                                  // action "ignored", reason "casual_chat"
    | Mention(mentionPatient: Option<string>, action: MentionAction)
    | UnknownType(error: string)

  const NO_PATIENT_ERROR: string := "このチャンネルに紐づく患者が見つかりません"

  /** Python's f-string rendering of the event type. */
  function TypeText(t: Option<string>): string {
    match t
    case None => "None"
    case Some(s) => s
  }

  /** `_resolve_patient_from_channel`: an empty or missing channel id
      resolves to nothing without a lookup; otherwise the store query
      `lookup` decides. */
  function ResolvePatient(channel: Option<string>, lookup: string -> Option<Patient>): (r: Option<Patient>)
    ensures (channel.None? || channel == Some("")) ==> r.None?
    ensures channel.Some? && channel.value != "" ==> r == lookup(channel.value)
  {
    match channel
    case None => None
    case Some(c) => if c == "" then None else lookup(c)
  }

  // ---------------------------------------------------------------------
  // Mentions: `re.sub(r"<@[A-Z0-9]+>", "", text).strip()`

  predicate IdChar(c: char) {
    'A' <= c <= 'Z' || '0' <= c <= '9'
  }

  /** The end of the run of `[A-Z0-9]` starting at `i`. */
  function IdRunEnd(s: string, i: nat): (j: nat)
    requires i <= |s|
    ensures i <= j <= |s|
    ensures forall k :: i <= k < j ==> IdChar(s[k])
    ensures j < |s| ==> !IdChar(s[j])
    decreases |s| - i
  {
    if i < |s| && IdChar(s[i]) then IdRunEnd(s, i + 1) else i
  }

  /** The end of the mention token `<@ID>` that starts `s`, if one does. */
  function MentionEnd(s: string): (r: Option<nat>)
    ensures r.Some? ==> 4 <= r.value <= |s|
  {
    if |s| >= 2 && s[0] == '<' && s[1] == '@' then
      var j := IdRunEnd(s, 2);
      if j > 2 && j < |s| && s[j] == '>' then Some(j + 1) else None
    else None
  }

  /** One left-to-right pass that deletes every mention token. */
  function RemoveMentions(s: string): (r: string)
    ensures |r| <= |s|
    decreases |s|
  {
    if s == [] then []
    else match MentionEnd(s)
      case Some(e) => RemoveMentions(s[e..])
      case None => [s[0]] + RemoveMentions(s[1..])
  }

  /** A mention token for a user id. */
  function MentionToken(id: string): string {
    "<@" + id + ">"
  }

  /** A leading mention token is deleted entirely and nothing else. */
  lemma {:induction false} RemovesLeadingMention(id: string, rest: string)
    requires id != [] && forall k :: 0 <= k < |id| ==> IdChar(id[k])
    ensures RemoveMentions(MentionToken(id) + rest) == RemoveMentions(rest)
  {
    var s := MentionToken(id) + rest;
    assert forall k :: 2 <= k < 2 + |id| ==> s[k] == id[k - 2];
    assert forall k :: 2 <= k < 2 + |id| ==> IdChar(s[k]);
    assert s[2 + |id|] == '>' && !IdChar(s[2 + |id|]);
    assert IdRunEnd(s, 2) == 2 + |id|;
    assert MentionEnd(s) == Some(3 + |id|);
    assert s[3 + |id|..] == rest;
  }

  /** Text without '<' is left as it is. */
  lemma {:induction false} NoMentionUnchanged(s: string)
    requires '<' !in s
    ensures RemoveMentions(s) == s
    decreases |s|
  {
    if s != [] {
      NoMentionUnchanged(s[1..]);
      assert [s[0]] + s[1..] == s;
    }
  }

  /** The text a mention is matched on. */
  function CleanMention(text: string): string {
    Strip(RemoveMentions(text))
  }

  function SummaryKeywords(): seq<string> { ["サマリー", "経過", "引き継ぎ", "まとめ"] }
  function SaveKeywords(): seq<string> { ["保存", "記録"] }

  /** `_handle_mention`: summary keywords first, then save keywords, and
      anything else is a question carrying the cleaned text. */
  function DispatchMention(text: string): (a: MentionAction)
    ensures a == SummaryRequest <==> ContainsAny(CleanMention(text), SummaryKeywords())
    ensures a == SaveRequest <==>
              !ContainsAny(CleanMention(text), SummaryKeywords()) && ContainsAny(CleanMention(text), SaveKeywords())
    ensures a.Question? ==> a.text == CleanMention(text)
  {
    var clean := CleanMention(text);
    if ContainsAny(clean, SummaryKeywords()) then SummaryRequest
    else if ContainsAny(clean, SaveKeywords()) then SaveRequest
    else Question(clean)
  }

  /** A request naming both a summary and a save keyword is a summary. */
  lemma SummaryBeatsSave(text: string)
    requires ContainsAny(CleanMention(text), SummaryKeywords())
    requires ContainsAny(CleanMention(text), SaveKeywords())
    ensures DispatchMention(text) == SummaryRequest
  {
  }

  /** "<@U01> サマリー" asks for the summary. */
  lemma MentionedSummary()
    ensures DispatchMention("<@U01> サマリー") == SummaryRequest
  {
    CleanSummaryMention();
    assert Contains("サマリー", SummaryKeywords()[0]);
  }

  lemma CleanSummaryMention()
    ensures CleanMention("<@U01> サマリー") == "サマリー"
  {
    var text := "<@U01> サマリー";
    assert text == MentionToken("U01") + " サマリー";
    RemovesLeadingMention("U01", " サマリー");
    NoMentionUnchanged(" サマリー");
    StripSummary();
  }

  lemma StripSummary()
    ensures Strip(" サマリー") == "サマリー"
  {
    var w := "サマリー";
    assert !IsSpace(w[0]) && !IsSpace(w[|w| - 1]);
    StripLeadingSpace(' ', w);
    assert [' '] + w == " サマリー";
  }

  // ---------------------------------------------------------------------
  // Event routing

  /** `route_event`: the patient is resolved first; a message is a report
      only as a reply in the patient's anchor thread; a mention goes to the
      keyword dispatch; every other type is an error. */
  function RouteEvent(e: Event, lookup: string -> Option<Patient>): (r: Route)
  {
    match ResolvePatient(e.channel, lookup)
    case None => NoPatient
    case Some(p) =>
      if e.eventType == Some("message") then
        if e.threadTs.Some? && e.threadTs.value != "" && e.threadTs == p.anchorTs then
          Intake(p.id, e.text, e.user, e.ts, e.threadTs.value)
        else CasualChat
      else if e.eventType == Some("app_mention") then
        Mention(p.id, DispatchMention(e.text))
      else UnknownType("Unknown event type: " + TypeText(e.eventType))
  }

  /** Without a linked patient nothing is routed, whatever the type. */
  lemma UnlinkedChannelRejected(e: Event, lookup: string -> Option<Patient>)
    requires e.channel.None? || e.channel == Some("") || lookup(e.channel.value).None?
    ensures RouteEvent(e, lookup) == NoPatient
  {
  }

  /** A message reaches intake exactly when it replies in the anchor
      thread of the channel's patient. */
  lemma IntakeIffAnchorReply(e: Event, lookup: string -> Option<Patient>)
    ensures RouteEvent(e, lookup).Intake? <==>
              ResolvePatient(e.channel, lookup).Some? && e.eventType == Some("message") &&
              e.threadTs.Some? && e.threadTs.value != "" &&
              e.threadTs == ResolvePatient(e.channel, lookup).value.anchorTs
    ensures RouteEvent(e, lookup).Intake? ==>
              RouteEvent(e, lookup) == Intake(ResolvePatient(e.channel, lookup).value.id, e.text, e.user, e.ts, e.threadTs.value)
  {
  }

  /** Every other message of a linked channel is casual chat. */
  lemma OtherMessagesIgnored(e: Event, lookup: string -> Option<Patient>)
    requires ResolvePatient(e.channel, lookup).Some? && e.eventType == Some("message")
    requires e.threadTs.None? || e.threadTs == Some("") || e.threadTs != ResolvePatient(e.channel, lookup).value.anchorTs
    ensures RouteEvent(e, lookup) == CasualChat
  {
  }

  /** A mention in a linked channel is dispatched on its text. */
  lemma MentionsDispatched(e: Event, lookup: string -> Option<Patient>)
    requires ResolvePatient(e.channel, lookup).Some? && e.eventType == Some("app_mention")
    ensures RouteEvent(e, lookup) == Mention(ResolvePatient(e.channel, lookup).value.id, DispatchMention(e.text))
  {
  }

  /** Any other event type of a linked channel is an error naming it. */
  lemma UnknownTypeRejected(e: Event, lookup: string -> Option<Patient>)
    requires ResolvePatient(e.channel, lookup).Some?
    requires e.eventType != Some("message") && e.eventType != Some("app_mention")
    ensures RouteEvent(e, lookup) == UnknownType("Unknown event type: " + TypeText(e.eventType))
  {
  }

  // ---------------------------------------------------------------------
  // Reporter role: the first rule with a keyword in the lowercased text

  datatype RoleRule = RoleRule(role: string, keywords: seq<string>)

  const NURSE_KEYWORDS: seq<string> := ["看護", "ns", "訪看"]
  const PHARMACIST_KEYWORDS: seq<string> := ["薬剤", "ph", "調剤"]
  const PT_KEYWORDS: seq<string> := ["pt", "理学", "リハ"]
  const OT_KEYWORDS: seq<string> := ["ot", "作業"]
  const ST_KEYWORDS: seq<string> := ["st", "言語"]
  const SW_KEYWORDS: seq<string> := ["sw", "ソーシャル", "相談"]
  const CM_KEYWORDS: seq<string> := ["ケアマネ", "cm", "介護支援"]
  const HELPER_KEYWORDS: seq<string> := ["ヘルパー", "介護"]
  const DOCTOR_KEYWORDS: seq<string> := ["医師", "dr", "先生"]
  const FAMILY_KEYWORDS: seq<string> := ["家族", "妻", "夫", "娘", "息子"]

  function RoleRules(): seq<RoleRule> {
    [ RoleRule("nurse", NURSE_KEYWORDS),
      RoleRule("pharmacist", PHARMACIST_KEYWORDS),
      RoleRule("pt", PT_KEYWORDS),
      RoleRule("ot", OT_KEYWORDS),
      RoleRule("st", ST_KEYWORDS),
      RoleRule("sw", SW_KEYWORDS),
      RoleRule("cm", CM_KEYWORDS),
      RoleRule("helper", HELPER_KEYWORDS),
      RoleRule("doctor", DOCTOR_KEYWORDS),
      RoleRule("family", FAMILY_KEYWORDS) ]
  }

  predicate RuleMatches(rule: RoleRule, text: string) {
    ContainsAny(text, rule.keywords)
  }

  /** The index of the first rule at or after `from` that matches. */
  function FirstMatch(rules: seq<RoleRule>, text: string, from: nat): (r: Option<nat>)
    requires from <= |rules|
    ensures r.Some? ==> from <= r.value < |rules| && RuleMatches(rules[r.value], text)
    ensures r.Some? ==> forall j :: from <= j < r.value ==> !RuleMatches(rules[j], text)
    ensures r.None? ==> forall j :: from <= j < |rules| ==> !RuleMatches(rules[j], text)
    decreases |rules| - from
  {
    if from == |rules| then None
    else if RuleMatches(rules[from], text) then Some(from)
    else FirstMatch(rules, text, from + 1)
  }

  /** `_infer_role_from_text`. */
  function InferRole(text: string): string {
    match FirstMatch(RoleRules(), Lower(text), 0)
    case None => "unknown"
    case Some(i) => RoleRules()[i].role
  }

  /** The role is that of the first rule whose keyword occurs in the
      lowercased text, and "unknown" when no rule's does. */
  lemma InferRoleFirstRule(text: string, i: nat)
    requires i < |RoleRules()|
    requires RuleMatches(RoleRules()[i], Lower(text))
    requires forall j :: 0 <= j < i ==> !RuleMatches(RoleRules()[j], Lower(text))
    ensures InferRole(text) == RoleRules()[i].role
  {
    var m := FirstMatch(RoleRules(), Lower(text), 0);
    assert m == Some(i);
  }

  lemma InferRoleUnknown(text: string)
    requires forall j :: 0 <= j < |RoleRules()| ==> !RuleMatches(RoleRules()[j], Lower(text))
    ensures InferRole(text) == "unknown"
  {
    var m := FirstMatch(RoleRules(), Lower(text), 0);
    assert m.None?;
  }

  /** Nurse keywords beat every later rule. */
  lemma NurseFirst(text: string)
    requires ContainsAny(Lower(text), ["看護", "ns", "訪看"])
    ensures InferRole(text) == "nurse"
  {
    InferRoleFirstRule(text, 0);
  }

  /** "介護支援" names a care manager although "介護" is a helper keyword:
      the care-manager rule comes first. */
  lemma CareManagerBeforeHelper()
    ensures InferRole("介護支援専門員") == "cm"
  {
    var t := "介護支援専門員";
    NoEarlierRule(t);
    assert t == "" + "介護支援" + "専門員";
    ContainsInfix("", "介護支援", "専門員");
    assert CM_KEYWORDS[2] == "介護支援";
    LowerNoCapitals(t);
    InferRoleFirstRule(t, 6);
  }

  lemma NoEarlierRule(t: string)
    requires t == "介護支援専門員"
    ensures forall j :: 0 <= j < 6 ==> !RuleMatches(RoleRules()[j], t)
  {
    NoneContained(t, NURSE_KEYWORDS);
    NoneContained(t, PHARMACIST_KEYWORDS);
    NoneContained(t, PT_KEYWORDS);
    NoneContained(t, OT_KEYWORDS);
    NoneContained(t, ST_KEYWORDS);
    NoneContained(t, SW_KEYWORDS);
  }
}
