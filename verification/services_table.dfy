/** The data logic of the services table in the web client: how a URL entry's
    status string is shown, and the guard that treats a missing `urls` field
    as an empty list. */
module ServicesTable {
  import opened Util
  import Registry

  datatype StatusClass = Online | Offline | Unknown

  /** What the table shows for one status: a CSS class, a label and the raw text. */
  datatype StatusDisplay = StatusDisplay(cls: StatusClass, text: string, originalText: string)

  /** `getStatusDisplay`: "ALIVE" anywhere wins over "DEAD" anywhere; an absent
      or empty status shows no raw text. */
  function GetStatusDisplay(status: Option<string>): (d: StatusDisplay)
    ensures d.cls == Online <==> status.Some? && Contains(status.value, "ALIVE")
    ensures d.cls == Offline <==>
      status.Some? && !Contains(status.value, "ALIVE") && Contains(status.value, "DEAD")
    ensures d.text == (match d.cls case Online => "Online" case Offline => "Offline" case Unknown => "Unknown")
    ensures status.None? || status.value == "" ==> d.originalText == ""
    ensures status.Some? && status.value != "" ==> d.originalText == status.value
  {
    if status.None? || status.value == "" then StatusDisplay(Unknown, "Unknown", "")
    else if Contains(status.value, "ALIVE") then StatusDisplay(Online, "Online", status.value)
    else if Contains(status.value, "DEAD") then StatusDisplay(Offline, "Offline", status.value)
    else StatusDisplay(Unknown, "Unknown", status.value)
  }

  /** `getServiceUrls`: `urls` is None when the field is missing or not an array. */
  function GetServiceUrls(urls: Option<seq<Registry.ServiceUrl>>): (r: seq<Registry.ServiceUrl>)
    ensures urls.Some? ==> r == urls.value
    ensures urls.None? ==> r == []
  {
    if urls.None? then [] else urls.value
  }

  /** The characters of `Date.prototype.toISOString`, e.g. "2024-05-01T12:00:00.000Z". */
  predicate IsIsoChar(c: char)
  {
    '0' <= c <= '9' || c == '-' || c == ':' || c == '.' || c == 'T' || c == 'Z'
  }

  predicate IsIsoTimestamp(t: string)
  {
    forall i | 0 <= i < |t| :: IsIsoChar(t[i])
  }

  lemma AliveEncodingContainsAlive(t: string)
    ensures Contains("ALIVE@" + t, "ALIVE")
  {
    assert OccursAt("ALIVE@" + t, "ALIVE", 0) by {
      assert ("ALIVE@" + t)[..5] == "ALIVE";
    }
  }

  lemma DeadEncodingContainsDead(t: string)
    ensures Contains("DEAD@" + t, "DEAD")
  {
    assert OccursAt("DEAD@" + t, "DEAD", 0) by {
      assert ("DEAD@" + t)[..4] == "DEAD";
    }
  }

  /** "ALIVE" cannot straddle "DEAD@" and a timestamp: the only 'A' of "DEAD@"
      is followed by 'D', and a timestamp has no 'A'. */
  lemma DeadEncodingLacksAlive(t: string)
    requires IsIsoTimestamp(t)
    ensures !Contains("DEAD@" + t, "ALIVE")
  {
    var s := "DEAD@" + t;
    forall i | 0 <= i <= |s| - 5 ensures !OccursAt(s, "ALIVE", i) {
      assert s[i..i + 5][0] == s[i] && s[i..i + 5][1] == s[i + 1];
      if i >= 5 {
        assert s[i] == t[i - 5];
      }
    }
  }

  /** The client decodes every status the server writes as the server meant it:
      the initial "UNKNOWN" as unknown, and a ping result as online exactly when
      the fetch returned an ok response. */
  lemma DecodesServerStatus(outcome: Registry.FetchOutcome, timeNow: string, timeCaught: string)
    requires IsIsoTimestamp(timeNow) && IsIsoTimestamp(timeCaught)
    ensures GetStatusDisplay(Some(Registry.UNKNOWN)).cls == Unknown
    ensures GetStatusDisplay(Some(Registry.ProbeStatus(outcome, timeNow, timeCaught))).cls
            == (if outcome == Registry.Ok then Online else Offline)
    ensures GetStatusDisplay(Some(Registry.ProbeStatus(outcome, timeNow, timeCaught))).originalText
            == Registry.ProbeStatus(outcome, timeNow, timeCaught)
  {
    NotContainsWithoutFirstChar(Registry.UNKNOWN, "ALIVE");
    NotContainsWithoutFirstChar(Registry.UNKNOWN, "DEAD");
    match outcome {
      case Ok =>
        AliveEncodingContainsAlive(timeNow);
      case NotOk =>
        DeadEncodingLacksAlive(timeNow);
        DeadEncodingContainsDead(timeNow);
      case Throws =>
        DeadEncodingLacksAlive(timeCaught);
        DeadEncodingContainsDead(timeCaught);
    }
  }
}
