/** The service registry of the Deno server: services with their monitored
    URLs, the store that holds the whole list as one document, and one method
    per HTTP route (list, create, delete service, add URL, delete URL, ping).
    Every route loads the whole list, changes it in memory and writes the
    whole list back; a route that fails writes nothing. */
module Registry {
  import opened Util

  /** One monitored URL. `status` and `lastPing` are optional on the wire:
      null and absent are both None. */
  datatype ServiceUrl = ServiceUrl(id: string, url: string, status: Option<string>, lastPing: Option<string>)

  datatype Service = Service(id: string, name: string, urls: seq<ServiceUrl>)

  /** The JSON body of a create request. `name` is None when it is absent or
      null; `urls` is None when it is absent or not an array. */
  datatype CreateRequest = CreateRequest(name: Option<string>, urls: Option<seq<string>>)

  /** The JSON body of an add-URL request; `url` is None when absent or null. */
  datatype AddUrlRequest = AddUrlRequest(url: Option<string>)

  /** What `fetch(url, { method: "GET" })` did: a response with `ok` set,
      a response without it, or an exception. */
  datatype FetchOutcome = Ok | NotOk | Throws

  datatype Body =
    | NoBody
    | ErrorBody(message: string)
    | ServicesBody(services: seq<Service>)
    | ServiceBody(service: Service)
    | UrlBody(entry: ServiceUrl)

  datatype Response = Response(status: int, body: Body)

  /** The status every new URL entry starts with. */
  const UNKNOWN := "UNKNOWN"

  /** The list a route works on: an absent document reads as the empty list. */
  function LoadServices(stored: Option<seq<Service>>): (ss: seq<Service>)
    ensures stored.None? ==> ss == []
    ensures stored.Some? ==> ss == stored.value
  {
    match stored
    case None => []
    case Some(s) => s
  }

  /** A new entry for `url`, not yet pinged. */
  function NewUrl(id: string, url: string): ServiceUrl
  {
    ServiceUrl(id, url, Some(UNKNOWN), None)
  }

  /** `urls.map(...)` in the create route: one new entry per input string. */
  function NewUrls(urls: seq<string>, ids: seq<string>): seq<ServiceUrl>
    requires |ids| == |urls|
  {
    seq(|urls|, k requires 0 <= k < |urls| => NewUrl(ids[k], urls[k]))
  }

  /** The create route's guard: `name` truthy and `urls` an array. */
  predicate CreateAccepted(req: CreateRequest)
  {
    req.name.Some? && req.name.value != "" && req.urls.Some?
  }

  /** The status string a ping writes: `timeNow` is taken before the fetch,
      `timeCaught` inside the catch block. */
  function ProbeStatus(outcome: FetchOutcome, timeNow: string, timeCaught: string): string
  {
    match outcome
    case Ok => "ALIVE@" + timeNow
    case NotOk => "DEAD@" + timeNow
    case Throws => "DEAD@" + timeCaught
  }

  function ServiceIndex(ss: seq<Service>, id: string): Option<nat>
  {
    FirstIndex(ss, (s: Service) => s.id == id)
  }

  function UrlIndex(us: seq<ServiceUrl>, urlId: string): Option<nat>
  {
    FirstIndex(us, (u: ServiceUrl) => u.id == urlId)
  }

  /** `services.filter((s) => s.id !== id)` */
  function WithoutService(ss: seq<Service>, id: string): seq<Service>
  {
    Filter(ss, (s: Service) => s.id != id)
  }

  /** `service.urls.filter((u) => u.id !== urlId)` */
  function WithoutUrl(us: seq<ServiceUrl>, urlId: string): seq<ServiceUrl>
  {
    Filter(us, (u: ServiceUrl) => u.id != urlId)
  }

  // ---------------------------------------------------------------------------
  // Identifier uniqueness: service ids are distinct, and URL ids are distinct
  // across the whole registry. Fresh ids keep it so.
  // ---------------------------------------------------------------------------

  ghost predicate DistinctServiceIds(ss: seq<Service>)
  {
    forall i, j | 0 <= i < j < |ss| :: ss[i].id != ss[j].id
  }

  function UrlIds(us: seq<ServiceUrl>): seq<string>
  {
    seq(|us|, k requires 0 <= k < |us| => us[k].id)
  }

  /** Every URL id of the registry, with its number of occurrences. */
  function UrlIdBag(ss: seq<Service>): multiset<string>
  {
    if ss == [] then multiset{} else multiset(UrlIds(ss[0].urls)) + UrlIdBag(ss[1..])
  }

  ghost predicate NoRepeats(m: multiset<string>)
  {
    forall x | x in m :: m[x] == 1
  }

  ghost predicate IdsUnique(ss: seq<Service>)
  {
    DistinctServiceIds(ss) && NoRepeats(UrlIdBag(ss))
  }

  lemma {:induction false} UrlIdBagAppend(a: seq<Service>, b: seq<Service>)
    ensures UrlIdBag(a + b) == UrlIdBag(a) + UrlIdBag(b)
  {
    if a == [] {
      assert a + b == b;
    } else {
      assert (a + b)[0] == a[0];
      assert (a + b)[1..] == a[1..] + b;
      UrlIdBagAppend(a[1..], b);
    }
  }

  /** The bag of a one-service list is that service's URL ids. */
  lemma UrlIdBagSingle(s: Service)
    ensures UrlIdBag([s]) == multiset(UrlIds(s.urls))
  {
  }

  /** Replacing one service changes the bag by exactly that service's URL ids. */
  lemma UrlIdBagUpdate(ss: seq<Service>, i: nat, s: Service)
    requires i < |ss|
    ensures UrlIdBag(ss[i := s]) + multiset(UrlIds(ss[i].urls)) == UrlIdBag(ss) + multiset(UrlIds(s.urls))
  {
    var a, b := ss[..i], ss[i + 1..];
    assert ss == a + [ss[i]] + b;
    assert ss[i := s] == a + [s] + b;
    UrlIdBagAppend(a + [ss[i]], b);
    UrlIdBagAppend(a, [ss[i]]);
    UrlIdBagAppend(a + [s], b);
    UrlIdBagAppend(a, [s]);
    UrlIdBagSingle(ss[i]);
    UrlIdBagSingle(s);
  }

  lemma {:induction false} UrlIdBagWithout(ss: seq<Service>, id: string)
    ensures UrlIdBag(WithoutService(ss, id)) <= UrlIdBag(ss)
  {
    if ss != [] {
      UrlIdBagWithout(ss[1..], id);
      var head := if ss[0].id != id then [ss[0]] else [];
      assert WithoutService(ss, id) == head + WithoutService(ss[1..], id);
      UrlIdBagAppend(head, WithoutService(ss[1..], id));
      assert UrlIdBag(head) <= multiset(UrlIds(ss[0].urls)) by {
        if head != [] {
          assert head[1..] == [];
        }
      }
    }
  }

  lemma {:induction false} WithoutServiceKeepsDistinct(ss: seq<Service>, id: string)
    requires DistinctServiceIds(ss)
    ensures DistinctServiceIds(WithoutService(ss, id))
  {
    if ss != [] {
      WithoutServiceKeepsDistinct(ss[1..], id);
      var rest := WithoutService(ss[1..], id);
      forall j | 0 <= j < |rest| ensures rest[j].id != ss[0].id {
        var k :| 0 <= k < |ss[1..]| && ss[1..][k] == rest[j];
        assert ss[k + 1] == rest[j];
      }
    }
  }

  lemma UrlIdsAppend(a: seq<ServiceUrl>, b: seq<ServiceUrl>)
    ensures UrlIds(a + b) == UrlIds(a) + UrlIds(b)
  {
  }

  lemma {:induction false} UrlIdsWithout(us: seq<ServiceUrl>, urlId: string)
    ensures multiset(UrlIds(WithoutUrl(us, urlId))) <= multiset(UrlIds(us))
  {
    if us != [] {
      var rest := WithoutUrl(us[1..], urlId);
      UrlIdsWithout(us[1..], urlId);
      var head := if us[0].id != urlId then [us[0]] else [];
      assert WithoutUrl(us, urlId) == head + rest;
      UrlIdsAppend(head, rest);
      UrlIdsAppend([us[0]], us[1..]);
      assert [us[0]] + us[1..] == us;
      assert multiset(UrlIds(head)) <= multiset(UrlIds([us[0]]));
    }
  }

  /** Create: appending a service whose ids are all new keeps ids unique. */
  lemma AppendKeepsIdsUnique(ss: seq<Service>, s: Service)
    requires IdsUnique(ss)
    requires forall j | 0 <= j < |ss| :: ss[j].id != s.id
    requires NoRepeats(multiset(UrlIds(s.urls)))
    requires multiset(UrlIds(s.urls)) !! UrlIdBag(ss)
    ensures IdsUnique(ss + [s])
  {
    var before, added := UrlIdBag(ss), multiset(UrlIds(s.urls));
    UrlIdBagAppend(ss, [s]);
    UrlIdBagSingle(s);
    forall x | x in before + added ensures (before + added)[x] == 1 {
      if x in added {
        assert x !in before;
      }
    }
  }

  /** Delete-service keeps ids unique. */
  lemma DeleteKeepsIdsUnique(ss: seq<Service>, id: string)
    requires IdsUnique(ss)
    ensures IdsUnique(WithoutService(ss, id))
  {
    WithoutServiceKeepsDistinct(ss, id);
    UrlIdBagWithout(ss, id);
  }

  /** Delete-URL and ping: replacing the URL list of one service by one with
      no new ids keeps ids unique. */
  lemma ShrinkUrlsKeepsIdsUnique(ss: seq<Service>, i: nat, urls: seq<ServiceUrl>)
    requires IdsUnique(ss) && i < |ss|
    requires multiset(UrlIds(urls)) <= multiset(UrlIds(ss[i].urls))
    ensures IdsUnique(ss[i := ss[i].(urls := urls)])
  {
    var before, after := UrlIdBag(ss), UrlIdBag(ss[i := ss[i].(urls := urls)]);
    var dropped, kept := multiset(UrlIds(ss[i].urls)), multiset(UrlIds(urls));
    var s := ss[i].(urls := urls);
    UrlIdBagUpdate(ss, i, s);
    assert after + dropped == before + kept;
    forall x | x in after ensures after[x] == 1 {
      assert (after + dropped)[x] == (before + kept)[x];
    }
  }

  /** Add-URL: appending an entry with a new id to one service keeps ids unique. */
  lemma AddUrlKeepsIdsUnique(ss: seq<Service>, i: nat, u: ServiceUrl)
    requires IdsUnique(ss) && i < |ss|
    requires u.id !in UrlIdBag(ss)
    ensures IdsUnique(ss[i := ss[i].(urls := ss[i].urls + [u])])
  {
    var s := ss[i].(urls := ss[i].urls + [u]);
    assert UrlIds(s.urls) == UrlIds(ss[i].urls) + [u.id];
    UrlIdBagUpdate(ss, i, s);
    var before, after := UrlIdBag(ss), UrlIdBag(ss[i := s]);
    var oldIds := multiset(UrlIds(ss[i].urls));
    assert multiset(UrlIds(s.urls)) == oldIds + multiset{u.id};
    assert after + oldIds == before + (oldIds + multiset{u.id});
    forall x | x in after ensures after[x] == 1 {
      assert (after + oldIds)[x] == (before + (oldIds + multiset{u.id}))[x];
    }
  }

  /** Delete-service answers 404 exactly when no service has the id. */
  lemma DeleteFindsNothingIffAbsent(ss: seq<Service>, id: string)
    ensures |WithoutService(ss, id)| == |ss| <==> ServiceIndex(ss, id).None?
    ensures |WithoutService(ss, id)| == |ss| ==> WithoutService(ss, id) == ss
  {
    FilterUnchangedIffAllKept(ss, (s: Service) => s.id != id);
  }

  /** Delete-URL answers 404 exactly when the service has no entry with the id. */
  lemma DeleteUrlFindsNothingIffAbsent(us: seq<ServiceUrl>, urlId: string)
    ensures |WithoutUrl(us, urlId)| == |us| <==> UrlIndex(us, urlId).None?
  {
    FilterUnchangedIffAllKept(us, (u: ServiceUrl) => u.id != urlId);
  }

  // ---------------------------------------------------------------------------
  // The store and the routes
  // ---------------------------------------------------------------------------

  class Store {
    /** The persisted document: None while it does not exist yet. */
    var stored: Option<seq<Service>>

    constructor (initial: Option<seq<Service>>)
      ensures stored == initial
    {
      stored := initial;
    }

    /** What `loadServices` returns. */
    function Loaded(): seq<Service>
      reads this
    {
      LoadServices(stored)
    }

    /** GET /api/services: the loaded list, nothing written. */
    method List() returns (resp: Response)
      ensures resp == Response(200, ServicesBody(Loaded()))
    {
      var services := LoadServices(stored);
      resp := Response(200, ServicesBody(services));
    }

    /** POST /api/services. `serviceId` and `urlIds` stand for the
        `crypto.randomUUID()` values, which are new. */
    method Create(req: CreateRequest, serviceId: string, urlIds: seq<string>) returns (resp: Response)
      requires req.urls.Some? ==> |urlIds| == |req.urls.value|
      requires forall j | 0 <= j < |Loaded()| :: Loaded()[j].id != serviceId
      requires NoRepeats(multiset(urlIds)) && multiset(urlIds) !! UrlIdBag(Loaded())
      modifies this
      ensures !CreateAccepted(req) ==>
        resp == Response(400, ErrorBody("Name and URLs array are required")) && stored == old(stored)
      ensures CreateAccepted(req) ==>
        var s := Service(serviceId, req.name.value, NewUrls(req.urls.value, urlIds));
        && stored == Some(old(Loaded()) + [s])
        && resp == Response(201, ServiceBody(s))
        && |s.urls| == |req.urls.value|
        && (forall k | 0 <= k < |s.urls| ::
              s.urls[k] == ServiceUrl(urlIds[k], req.urls.value[k], Some(UNKNOWN), None))
      ensures old(IdsUnique(Loaded())) ==> IdsUnique(Loaded())
    {
      if !(req.name.Some? && req.name.value != "" && req.urls.Some?) {
        resp := Response(400, ErrorBody("Name and URLs array are required"));
        return;
      }
      var services := LoadServices(stored);
      var newService := Service(serviceId, req.name.value, NewUrls(req.urls.value, urlIds));
      if IdsUnique(services) {
        assert UrlIds(newService.urls) == urlIds;
        AppendKeepsIdsUnique(services, newService);
      }
      services := services + [newService];
      stored := Some(services);
      resp := Response(201, ServiceBody(newService));
    }

    /** DELETE /api/services/:id */
    method DeleteService(id: string) returns (resp: Response)
      modifies this
      ensures ServiceIndex(old(Loaded()), id).None? ==>
        resp == Response(404, ErrorBody("Service not found")) && stored == old(stored)
      ensures ServiceIndex(old(Loaded()), id).Some? ==>
        resp == Response(204, NoBody) && stored == Some(WithoutService(old(Loaded()), id))
      ensures forall j | 0 <= j < |Loaded()| :: Loaded()[j].id != id
      ensures old(IdsUnique(Loaded())) ==> IdsUnique(Loaded())
    {
      var services := LoadServices(stored);
      var filtered := WithoutService(services, id);
      DeleteFindsNothingIffAbsent(services, id);
      if |filtered| == |services| {
        resp := Response(404, ErrorBody("Service not found"));
        return;
      }
      if IdsUnique(services) {
        DeleteKeepsIdsUnique(services, id);
      }
      stored := Some(filtered);
      resp := Response(204, NoBody);
    }

    /** POST /api/services/:id/urls. `urlId` stands for the new random id. */
    method AddUrl(id: string, req: AddUrlRequest, urlId: string) returns (resp: Response)
      requires urlId !in UrlIdBag(Loaded())
      modifies this
      ensures req.url.None? || req.url.value == "" ==>
        resp == Response(400, ErrorBody("URL is required")) && stored == old(stored)
      ensures req.url.Some? && req.url.value != "" && ServiceIndex(old(Loaded()), id).None? ==>
        resp == Response(404, ErrorBody("Service not found")) && stored == old(stored)
      ensures req.url.Some? && req.url.value != "" && ServiceIndex(old(Loaded()), id).Some? ==>
        var i := ServiceIndex(old(Loaded()), id).value;
        var ss := old(Loaded());
        var entry := ServiceUrl(urlId, req.url.value, Some(UNKNOWN), None);
        && stored == Some(ss[i := ss[i].(urls := ss[i].urls + [entry])])
        && resp == Response(200, UrlBody(entry))
      ensures old(IdsUnique(Loaded())) ==> IdsUnique(Loaded())
    {
      if req.url.None? || req.url.value == "" {
        resp := Response(400, ErrorBody("URL is required"));
        return;
      }
      var services := LoadServices(stored);
      var found := ServiceIndex(services, id);
      if found.None? {
        resp := Response(404, ErrorBody("Service not found"));
        return;
      }
      var i := found.value;
      var entry := NewUrl(urlId, req.url.value);
      if IdsUnique(services) {
        AddUrlKeepsIdsUnique(services, i, entry);
      }
      services := services[i := services[i].(urls := services[i].urls + [entry])];
      stored := Some(services);
      resp := Response(200, UrlBody(entry));
    }

    /** DELETE /api/services/:id/urls/:urlId */
    method DeleteUrl(id: string, urlId: string) returns (resp: Response)
      modifies this
      ensures ServiceIndex(old(Loaded()), id).None? ==>
        resp == Response(404, ErrorBody("Service not found")) && stored == old(stored)
      ensures ServiceIndex(old(Loaded()), id).Some? ==>
        var i := ServiceIndex(old(Loaded()), id).value;
        var ss := old(Loaded());
        if UrlIndex(ss[i].urls, urlId).None? then
          resp == Response(404, ErrorBody("URL not found")) && stored == old(stored)
        else
          && resp == Response(204, NoBody)
          && stored == Some(ss[i := ss[i].(urls := WithoutUrl(ss[i].urls, urlId))])
      ensures old(IdsUnique(Loaded())) ==> IdsUnique(Loaded())
    {
      var services := LoadServices(stored);
      var found := ServiceIndex(services, id);
      if found.None? {
        resp := Response(404, ErrorBody("Service not found"));
        return;
      }
      var i := found.value;
      var initialLength := |services[i].urls|;
      var remaining := WithoutUrl(services[i].urls, urlId);
      DeleteUrlFindsNothingIffAbsent(services[i].urls, urlId);
      if |remaining| == initialLength {
        resp := Response(404, ErrorBody("URL not found"));
        return;
      }
      if IdsUnique(services) {
        UrlIdsWithout(services[i].urls, urlId);
        ShrinkUrlsKeepsIdsUnique(services, i, remaining);
      }
      services := services[i := services[i].(urls := remaining)];
      stored := Some(services);
      resp := Response(204, NoBody);
    }

    /** POST /api/services/:id/urls/:urlId/ping. The outcome of `fetch` and the
        three readings of the clock (before the fetch, in the catch block, and
        for `lastPing`) are parameters. */
    method Ping(id: string, urlId: string, outcome: FetchOutcome,
                timeNow: string, timeCaught: string, timeAfter: string) returns (resp: Response)
      modifies this
      ensures ServiceIndex(old(Loaded()), id).None? ==>
        resp == Response(404, ErrorBody("Service not found")) && stored == old(stored)
      ensures ServiceIndex(old(Loaded()), id).Some? ==>
        var i := ServiceIndex(old(Loaded()), id).value;
        var ss := old(Loaded());
        match UrlIndex(ss[i].urls, urlId)
        case None =>
          resp == Response(404, ErrorBody("URL not found")) && stored == old(stored)
        case Some(k) =>
          var u := ss[i].urls[k];
          && stored.Some?
          && |Loaded()| == |ss|
          && Loaded()[i].id == ss[i].id && Loaded()[i].name == ss[i].name
          && |Loaded()[i].urls| == |ss[i].urls|
          && Loaded()[i].urls[k] == ServiceUrl(u.id, u.url, Some(ProbeStatus(outcome, timeNow, timeCaught)), Some(timeAfter))
          && (forall m | 0 <= m < |ss[i].urls| && m != k :: Loaded()[i].urls[m] == ss[i].urls[m])
          && (forall j | 0 <= j < |ss| && j != i :: Loaded()[j] == ss[j])
          && resp == Response(200, ServiceBody(Loaded()[i]))
      ensures old(IdsUnique(Loaded())) ==> IdsUnique(Loaded())
    {
      var services := LoadServices(stored);
      var found := ServiceIndex(services, id);
      if found.None? {
        resp := Response(404, ErrorBody("Service not found"));
        return;
      }
      var i := found.value;
      var entryAt := UrlIndex(services[i].urls, urlId);
      if entryAt.None? {
        resp := Response(404, ErrorBody("URL not found"));
        return;
      }
      var k := entryAt.value;
      var entry := services[i].urls[k];
      var status: string;
      match outcome {
        case Ok => status := "ALIVE@" + timeNow;
        case NotOk => status := "DEAD@" + timeNow;
        case Throws => status := "DEAD@" + timeCaught;
      }
      entry := entry.(status := Some(status), lastPing := Some(timeAfter));
      var urls := services[i].urls[k := entry];
      if IdsUnique(services) {
        assert UrlIds(urls) == UrlIds(services[i].urls);
        ShrinkUrlsKeepsIdsUnique(services, i, urls);
      }
      services := services[i := services[i].(urls := urls)];
      stored := Some(services);
      resp := Response(200, ServiceBody(services[i]));
    }
  }
}
