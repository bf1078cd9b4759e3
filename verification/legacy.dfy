/** The earlier Flask version of the tracker: one table of services, each with
    a single URL. Inputs are validated and their single quotes doubled before
    they are stored; a refresh probes every service once and updates its
    status, its online-since time and its last error. The database is a
    sequence of rows. */
module Legacy {
  import opened Util

  // ---------------------------------------------------------------------------
  // validate_and_sterilize
  // ---------------------------------------------------------------------------

  /** `str.isascii()` */
  predicate IsAscii(s: string)
  {
    forall i | 0 <= i < |s| :: s[i] < '\U{0080}'
  }

  function CountQuotes(s: string): nat
  {
    if s == [] then 0 else (if s[0] == '\'' then 1 else 0) + CountQuotes(s[1..])
  }

  /** `s.replace("'", "''")` */
  function Sterilize(s: string): string
  {
    if s == [] then [] else (if s[0] == '\'' then "''" else [s[0]]) + Sterilize(s[1..])
  }

  /** The inverse reading: every "''" read left to right becomes one quote. */
  function Unsterilize(s: string): string
  {
    if |s| >= 2 && s[0] == '\'' && s[1] == '\'' then "'" + Unsterilize(s[2..])
    else if s == [] then []
    else [s[0]] + Unsterilize(s[1..])
  }

  /** Doubling adds exactly one character per quote. */
  lemma {:induction false} SterilizeLength(s: string)
    ensures |Sterilize(s)| == |s| + CountQuotes(s)
  {
    if s != [] {
      SterilizeLength(s[1..]);
    }
  }

  /** Undoing the doubling gives back the input. */
  lemma {:induction false} UnsterilizeSterilize(s: string)
    ensures Unsterilize(Sterilize(s)) == s
  {
    if s != [] {
      UnsterilizeSterilize(s[1..]);
      var rest := Sterilize(s[1..]);
      if s[0] == '\'' {
        assert Sterilize(s) == "''" + rest;
        assert ("''" + rest)[2..] == rest;
      } else {
        assert Sterilize(s) == [s[0]] + rest;
        assert ([s[0]] + rest)[1..] == rest;
      }
      assert s == [s[0]] + s[1..];
    }
  }

  /** Doubling quotes does not change whether a string starts with a prefix
      that has no quote in it. */
  lemma {:induction false} SterilizeKeepsPrefix(s: string, prefix: string)
    requires forall i | 0 <= i < |prefix| :: prefix[i] != '\''
    ensures StartsWith(Sterilize(s), prefix) <==> StartsWith(s, prefix)
  {
    if prefix != [] && s != [] {
      var rest := Sterilize(s[1..]);
      SterilizeKeepsPrefix(s[1..], prefix[1..]);
      if s[0] == '\'' {
        assert Sterilize(s)[0] == '\'';
      } else {
        assert Sterilize(s) == [s[0]] + rest;
        assert StartsWith(Sterilize(s), prefix) <==> s[0] == prefix[0] && StartsWith(rest, prefix[1..]);
        assert StartsWith(s, prefix) <==> s[0] == prefix[0] && StartsWith(s[1..], prefix[1..]);
      }
    }
  }

  /** `validate_and_sterilize(input_string, max_len)`; `input` is None for a
      missing form field. The length message names 40 whatever `maxLen` is. */
  function ValidateAndSterilize(input: Option<string>, maxLen: int): (r: Result<string>)
    ensures r.Success? <==> input.Some? && 0 < |input.value| <= maxLen && IsAscii(input.value)
    ensures r.Success? ==> r.value == Sterilize(input.value)
    ensures input.None? || input.value == "" ==> r == Failure("Input string cannot be empty.")
    ensures input.Some? && input.value != "" && |input.value| > maxLen ==>
      r == Failure("Input string cannot be longer than 40 characters.")
    ensures input.Some? && input.value != "" && |input.value| <= maxLen && !IsAscii(input.value) ==>
      r == Failure("Input string can only contain ASCII.")
  {
    if input.None? || |input.value| == 0 then Failure("Input string cannot be empty.")
    else if |input.value| > maxLen then Failure("Input string cannot be longer than 40 characters.")
    else if !IsAscii(input.value) then Failure("Input string can only contain ASCII.")
    else Success(Sterilize(input.value))
  }

  // ---------------------------------------------------------------------------
  // The services table and the create route
  // ---------------------------------------------------------------------------

  datatype Row = Row(
    id: int,
    name: string,
    url: string,
    status: string,
    error: Option<string>,
    onlineSince: Option<string>,
    srvType: Option<string>)

  const NAME_MAX := 40
  const URL_MAX := 256

  /** The type the create route records for an accepted URL. */
  function ServiceType(url: string): string
  {
    if StartsWith(url, "http") then "http" else "https"
  }

  /** Every URL that passes the scheme check starts with "http", "https://"
      included, so the recorded type is always "http". */
  lemma ServiceTypeAlwaysHttp(url: string)
    requires StartsWith(url, "http://") || StartsWith(url, "https://")
    ensures ServiceType(url) == "http"
  {
  }

  predicate HasHttpScheme(url: string)
  {
    StartsWith(url, "http://") || StartsWith(url, "https://")
  }

  /** The POST branch of `home` up to `db.session.add`: the new row, or the
      exception it raises. Checks run on the name, then the URL, then the
      scheme of the sterilized URL. */
  function NewRow(name: Option<string>, url: Option<string>, id: int): (r: Result<Row>)
    ensures r.Success? <==>
      && ValidateAndSterilize(name, NAME_MAX).Success?
      && ValidateAndSterilize(url, URL_MAX).Success?
      && HasHttpScheme(url.value)
    ensures r.Success? ==>
      r.value == Row(id, Sterilize(name.value), Sterilize(url.value), "Not Checked", Some("None"), None, Some("http"))
    ensures ValidateAndSterilize(name, NAME_MAX).Failure? ==>
      r == Failure(ValidateAndSterilize(name, NAME_MAX).error)
    ensures ValidateAndSterilize(name, NAME_MAX).Success? && ValidateAndSterilize(url, URL_MAX).Failure? ==>
      r == Failure(ValidateAndSterilize(url, URL_MAX).error)
    ensures ValidateAndSterilize(name, NAME_MAX).Success? && ValidateAndSterilize(url, URL_MAX).Success?
            && !HasHttpScheme(url.value) ==>
      r == Failure("URL must begin with HTTP:// or HTTPS://")
  {
    match ValidateAndSterilize(name, NAME_MAX)
    case Failure(e) => Failure(e)
    case Success(cleanName) =>
      match ValidateAndSterilize(url, URL_MAX)
      case Failure(e) => Failure(e)
      case Success(cleanUrl) =>
        SterilizeKeepsPrefix(url.value, "http://");
        SterilizeKeepsPrefix(url.value, "https://");
        if !HasHttpScheme(cleanUrl) then Failure("URL must begin with HTTP:// or HTTPS://")
        else
          ServiceTypeAlwaysHttp(cleanUrl);
          Success(Row(id, cleanName, cleanUrl, "Not Checked", Some("None"), None, Some(ServiceType(cleanUrl))))
  }

  // ---------------------------------------------------------------------------
  // The refresh loop
  // ---------------------------------------------------------------------------

  /** What `requests.get(service.url)` did: a response with a status code, or
      an exception with its message. */
  datatype Probe = Responded(statusCode: int) | Raised(message: string)

  /** One row after its probe; `now` is the `datetime.now()` of that step. */
  function Refreshed(row: Row, probe: Probe, now: string): (r: Row)
    ensures r.id == row.id && r.name == row.name && r.url == row.url && r.srvType == row.srvType
    ensures r.status == "Running" <==> probe == Responded(200)
    ensures r.status != "Running" ==> r.status == "Not Running"
    ensures row.status != "Running" && r.status == "Running" ==> r.onlineSince == Some(now)
    ensures r.onlineSince != row.onlineSince ==> row.status != "Running" && r.status == "Running"
    ensures probe.Raised? ==> r.error == Some(probe.message)
    ensures !probe.Raised? ==> r.error == row.error
  {
    match probe
    case Responded(code) =>
      if code == 200 then
        row.(onlineSince := if row.status != "Running" then Some(now) else row.onlineSince,
             status := "Running")
      else row.(status := "Not Running")
    case Raised(message) =>
      row.(status := "Not Running", error := Some(message))
  }

  /** How many probes answered 200: the `online_cnt` of a refresh. */
  function CountOnline(probes: seq<Probe>): nat
  {
    if probes == [] then 0
    else CountOnline(probes[..|probes| - 1]) + (if probes[|probes| - 1] == Responded(200) then 1 else 0)
  }

  /** How many probes raised: the `offline_cnt` of a refresh. */
  function CountOffline(probes: seq<Probe>): nat
  {
    if probes == [] then 0
    else CountOffline(probes[..|probes| - 1]) + (if probes[|probes| - 1].Raised? then 1 else 0)
  }

  /** No probe is counted twice, and a non-200 response is counted by neither. */
  lemma {:induction false} CountsBounded(probes: seq<Probe>)
    ensures CountOnline(probes) + CountOffline(probes) <= |probes|
  {
    if probes != [] {
      CountsBounded(probes[..|probes| - 1]);
    }
  }

  ghost predicate DistinctRowIds(rows: seq<Row>)
  {
    forall i, j | 0 <= i < j < |rows| :: rows[i].id != rows[j].id
  }

  /** The table after deleting by primary key. */
  function WithoutRow(rows: seq<Row>, id: int): seq<Row>
  {
    Filter(rows, (r: Row) => r.id != id)
  }

  /** With distinct ids, cutting out the row found by its key is the same as
      keeping every row with another key. */
  lemma RemoveAtIsWithoutRow(rows: seq<Row>, i: nat)
    requires DistinctRowIds(rows) && i < |rows|
    ensures rows[..i] + rows[i + 1..] == WithoutRow(rows, rows[i].id)
  {
    FilterDropsOne(rows, i, (r: Row) => r.id != rows[i].id);
  }

  class ServiceDb {
    var rows: seq<Row>

    /** Primary keys are distinct. */
    ghost predicate Valid()
      reads this
    {
      DistinctRowIds(rows)
    }

    constructor (initial: seq<Row>)
      requires DistinctRowIds(initial)
      ensures Valid() && rows == initial
    {
      rows := initial;
    }

    /** The POST branch of `home`. `newId` is the key SQLite assigns, which no
        row has yet. A raised exception adds nothing. */
    method Create(name: Option<string>, url: Option<string>, newId: int) returns (r: Result<Row>)
      requires Valid()
      requires forall j | 0 <= j < |rows| :: rows[j].id != newId
      modifies this
      ensures Valid()
      ensures r == NewRow(name, url, newId)
      ensures r.Success? ==> rows == old(rows) + [r.value]
      ensures r.Failure? ==> rows == old(rows)
    {
      r := NewRow(name, url, newId);
      if r.Success? {
        rows := rows + [r.value];
      }
    }

    /** `delete_service`: removes the row with that key, if there is one. */
    method Delete(id: int)
      requires Valid()
      modifies this
      ensures Valid()
      ensures rows == WithoutRow(old(rows), id)
      ensures (exists j | 0 <= j < |old(rows)| :: old(rows)[j].id == id) ==> |rows| == |old(rows)| - 1
      ensures (forall j | 0 <= j < |old(rows)| :: old(rows)[j].id != id) ==> rows == old(rows)
    {
      var found := FirstIndex(rows, (r: Row) => r.id == id);
      if found.Some? {
        var i := found.value;
        RemoveAtIsWithoutRow(rows, i);
        rows := rows[..i] + rows[i + 1..];
      } else {
        FilterUnchangedIffAllKept(rows, (r: Row) => r.id != id);
      }
    }

    /** `update_services_status`: probes every row in order. `probes[i]` and
        `times[i]` are what the network and the clock gave for row `i`. */
    method Refresh(probes: seq<Probe>, times: seq<string>) returns (online: nat, offline: nat)
      requires |probes| == |rows| && |times| == |rows|
      modifies this
      ensures |rows| == |old(rows)|
      ensures forall i | 0 <= i < |rows| :: rows[i] == Refreshed(old(rows)[i], probes[i], times[i])
      ensures online == CountOnline(probes) && offline == CountOffline(probes)
      ensures online + offline <= |rows|
      ensures old(Valid()) ==> Valid()
    {
      online, offline := 0, 0;
      var i := 0;
      while i < |rows|
        invariant 0 <= i <= |rows| == |old(rows)|
        invariant forall j | 0 <= j < i :: rows[j] == Refreshed(old(rows)[j], probes[j], times[j])
        invariant forall j | i <= j < |rows| :: rows[j] == old(rows)[j]
        invariant online == CountOnline(probes[..i]) && offline == CountOffline(probes[..i])
      {
        assert probes[..i + 1][..i] == probes[..i];
        match probes[i] {
          case Responded(code) =>
            if code == 200 {
              online := online + 1;
            }
          case Raised(_) =>
            offline := offline + 1;
        }
        rows := rows[i := Refreshed(rows[i], probes[i], times[i])];
        i := i + 1;
      }
      assert probes[..i] == probes;
      CountsBounded(probes);
    }
  }
}
