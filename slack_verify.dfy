/** The Slack request-signature guard: a configured signing secret, both
    signature headers, a timestamp within five minutes of the clock, and
    "v0=" + HMAC-SHA256(secret, "v0:" + timestamp + ":" + body) in hex equal
    to the supplied signature. The MAC is the parameter `mac`, the clock the
    parameter `now` (whole seconds). */
module SlackVerify {
  import opened Wrappers
  import opened Text

  const WINDOW_SECONDS: int := 300

  datatype Outcome = Accepted(body: string) | Rejected(status: int, detail: string)

  predicate IsDigit(c: char) { '0' <= c <= '9' }

  /** Digits with single underscores between them, as `int()` accepts. */
  predicate DigitGroups(s: string) {
    s != [] && IsDigit(s[0]) && IsDigit(s[|s| - 1]) &&
    forall i :: 0 <= i < |s| ==> IsDigit(s[i]) || (s[i] == '_' && 0 < i < |s| - 1 && IsDigit(s[i + 1]))
  }

  /** The value of the digits of `s`, underscores skipped. */
  function DigitsValue(s: string): nat {
    if s == [] then 0
    else
      var last := s[|s| - 1];
      if IsDigit(last) then DigitsValue(s[..|s| - 1]) * 10 + (last as int - '0' as int)
      else DigitsValue(s[..|s| - 1])
  }

  /** Python's `int(s)` on text: surrounding whitespace, an optional sign
      and decimal digit groups; anything else raises ValueError (None). */
  function ParseInt(s: string): (r: Option<int>)
    ensures r.Some? ==> Strip(s) != []
  {
    var t := Strip(s);
    if t == [] then None
    else if t[0] == '+' || t[0] == '-' then
      if DigitGroups(t[1..]) then
        var n: int := DigitsValue(t[1..]);
        Some(if t[0] == '-' then -n else n)
      else None
    else if DigitGroups(t) then Some(DigitsValue(t))
    else None
  }

  /** Reading back a rendered count gives the count. */
  lemma {:induction false} DigitsValueOfNat(n: nat)
    ensures DigitGroups(NatToString(n))
    ensures DigitsValue(NatToString(n)) == n
  {
    var s := NatToString(n);
    if n >= 10 {
      DigitsValueOfNat(n / 10);
      assert s[..|s| - 1] == NatToString(n / 10);
    }
  }

  /** `int(str(n)) == n`. */
  lemma ParseIntOfNat(n: nat)
    ensures ParseInt(NatToString(n)) == Some(n)
  {
    DigitsValueOfNat(n);
    ParseUnsigned(NatToString(n));
  }

  /** Unsigned digit groups parse to their value. */
  lemma ParseUnsigned(t: string)
    requires DigitGroups(t)
    ensures ParseInt(t) == Some(DigitsValue(t))
  {
    assert IsDigit(t[0]) && IsDigit(t[|t| - 1]);
    assert !IsSpace(t[0]) && !IsSpace(t[|t| - 1]);
    StripOfStripped(t);
  }

  function Abs(x: int): nat { if x < 0 then -x else x }

  /** The signed string. */
  function BaseString(timestamp: string, body: string): string {
    "v0:" + timestamp + ":" + body
  }

  /** `verify_slack_signature`. Missing headers read as "". */
  function Verify(secret: Option<string>, signature: string, timestamp: string, body: string, now: int,
                  mac: (string, string) -> string): (r: Outcome)
    ensures r.Accepted? ==> r.body == body
    ensures r.Rejected? ==> r.status == 400
  {
    if secret.None? || secret.value == "" then Accepted(body)
    else if signature == "" || timestamp == "" then Rejected(400, "Missing Slack signature headers")
    else match ParseInt(timestamp)
      case None => Rejected(400, "Invalid timestamp")
      case Some(ts) =>
        if Abs(now - ts) > WINDOW_SECONDS then Rejected(400, "Request timestamp is too old")
        else if "v0=" + mac(secret.value, BaseString(timestamp, body)) != signature then
          Rejected(400, "Invalid Slack signature")
        else Accepted(body)
  }

  /** With a secret configured, a request is accepted exactly when both
      headers are present, the timestamp parses to within five minutes of
      `now`, and the signature is the MAC of the base string built from the
      timestamp header as sent. */
  lemma AcceptedIff(secret: string, signature: string, timestamp: string, body: string, now: int,
                    mac: (string, string) -> string)
    requires secret != ""
    ensures Verify(Some(secret), signature, timestamp, body, now, mac).Accepted? <==>
              signature != "" && timestamp != "" && ParseInt(timestamp).Some? &&
              Abs(now - ParseInt(timestamp).value) <= WINDOW_SECONDS &&
              signature == "v0=" + mac(secret, "v0:" + timestamp + ":" + body)
  {
  }

  /** Without a signing secret nothing is checked. */
  lemma NoSecretNoCheck(secret: Option<string>, signature: string, timestamp: string, body: string, now: int,
                        mac: (string, string) -> string)
    requires secret.None? || secret == Some("")
    ensures Verify(secret, signature, timestamp, body, now, mac) == Accepted(body)
  {
  }

  /** A missing header is rejected before the timestamp is looked at. */
  lemma MissingHeaderRejected(secret: string, signature: string, timestamp: string, body: string, now: int,
                              mac: (string, string) -> string)
    requires secret != "" && (signature == "" || timestamp == "")
    ensures Verify(Some(secret), signature, timestamp, body, now, mac) == Rejected(400, "Missing Slack signature headers")
  {
  }

  /** A timestamp exactly five minutes old passes the window; one second
      more is rejected, whatever the signature. */
  lemma WindowBoundary(secret: string, body: string, now: nat, mac: (string, string) -> string)
    requires secret != "" && now >= 301
    ensures Verify(Some(secret), "v0=" + mac(secret, BaseString(NatToString(now - 300), body)),
                   NatToString(now - 300), body, now, mac) == Accepted(body)
    ensures Verify(Some(secret), "v0=" + mac(secret, BaseString(NatToString(now - 301), body)),
                   NatToString(now - 301), body, now, mac) == Rejected(400, "Request timestamp is too old")
  {
    SignedTimestamp(secret, now - 300, body, now, mac);
    SignedTimestamp(secret, now - 301, body, now, mac);
  }

  /** A correctly signed request with a plain decimal timestamp is
      accepted exactly when the timestamp is within the window. */
  lemma SignedTimestamp(secret: string, ts: nat, body: string, now: int, mac: (string, string) -> string)
    requires secret != ""
    ensures var t := NatToString(ts);
            Verify(Some(secret), "v0=" + mac(secret, BaseString(t, body)), t, body, now, mac) ==
              if Abs(now - ts) > WINDOW_SECONDS then Rejected(400, "Request timestamp is too old") else Accepted(body)
  {
    ParseIntOfNat(ts);
    var signature := "v0=" + mac(secret, BaseString(NatToString(ts), body));
    assert signature[0] == 'v';
  }

  /** A timestamp that is not an integer is rejected. */
  lemma NonNumericTimestampRejected(secret: string, signature: string, body: string, now: int,
                                    mac: (string, string) -> string)
    requires secret != "" && signature != ""
    ensures Verify(Some(secret), signature, "12a", body, now, mac) == Rejected(400, "Invalid timestamp")
  {
    var t := "12a";
    assert IsDigit(t[0]) && t[|t| - 1] == 'a';
    TrailingLetterRejected(t);
  }

  /** Unsigned text ending in something other than a digit or space is
      not an integer. */
  lemma TrailingLetterRejected(t: string)
    requires t != [] && IsDigit(t[0]) && !IsDigit(t[|t| - 1]) && !IsSpace(t[|t| - 1])
    ensures ParseInt(t).None?
  {
    assert !IsSpace(t[0]);
    StripOfStripped(t);
  }
}
