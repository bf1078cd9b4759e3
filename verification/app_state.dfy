/** The state of the web client's top-level component: the list of services,
    the error banner and the loading flag, and how each API call's outcome
    updates them. The call itself is left to the server model; here its
    outcome is a parameter. */
module App {
  import opened Util
  import opened Registry

  /** What one call through the client's API wrapper gave: the decoded body,
      or a thrown error (a non-ok response or a network failure). */
  datatype ApiResult<T> = Fetched(value: T) | Failed

  /** `services.map((service) => service.id === serviceId ? updatedService : service)` */
  function ReplaceService(ss: seq<Service>, id: string, updated: Service): seq<Service>
  {
    seq(|ss|, j requires 0 <= j < |ss| => if ss[j].id == id then updated else ss[j])
  }

  /** When service ids are distinct, replacing by id in the client changes the
      same single entry that the server's ping route changed, so a client list
      that mirrored the server's list before a ping still mirrors it after. */
  lemma PingMirrorsServer(ss: seq<Service>, i: nat, updated: Service)
    requires DistinctServiceIds(ss) && i < |ss| && updated.id == ss[i].id
    ensures ReplaceService(ss, ss[i].id, updated) == ss[i := updated]
  {
  }

  class AppState {
    var services: seq<Service>
    var error: Option<string>
    var loading: bool

    constructor ()
      ensures services == [] && error == None && loading
    {
      services, error, loading := [], None, true;
    }

    /** `fetchServices`: loading ends whatever the outcome. */
    method FetchServices(result: ApiResult<seq<Service>>)
      modifies this
      ensures !loading
      ensures result.Fetched? ==> services == result.value && error == None
      ensures result.Failed? ==>
        services == old(services) && error == Some("Failed to fetch services")
    {
      match result {
        case Fetched(data) =>
          services := data;
          error := None;
        case Failed =>
          error := Some("Failed to fetch services");
      }
      loading := false;
    }

    /** `handleAddService`: the created service goes at the end. */
    method HandleAddService(result: ApiResult<Service>)
      modifies this
      ensures loading == old(loading)
      ensures result.Fetched? ==>
        services == old(services) + [result.value] && error == None
      ensures result.Failed? ==>
        services == old(services) && error == Some("Failed to add service")
    {
      match result {
        case Fetched(newService) =>
          services := services + [newService];
          error := None;
        case Failed =>
          error := Some("Failed to add service");
      }
    }

    /** `handleDeleteService`: every service with the id goes, the rest keep their order. */
    method HandleDeleteService(id: string, result: ApiResult<()>)
      modifies this
      ensures loading == old(loading)
      ensures result.Fetched? ==>
        && services == WithoutService(old(services), id)
        && (forall j | 0 <= j < |services| :: services[j].id != id)
        && error == None
      ensures result.Failed? ==>
        services == old(services) && error == Some("Failed to delete service")
    {
      match result {
        case Fetched(_) =>
          services := WithoutService(services, id);
          error := None;
        case Failed =>
          error := Some("Failed to delete service");
      }
    }

    /** `handlePingService`: every service with the id is replaced by the
        service the server returned. `urlId` only selects the entry pinged. */
    method HandlePingService(serviceId: string, urlId: string, result: ApiResult<Service>)
      modifies this
      ensures loading == old(loading)
      ensures result.Fetched? ==>
        && |services| == |old(services)|
        && (forall j | 0 <= j < |services| ::
              services[j] == if old(services)[j].id == serviceId then result.value else old(services)[j])
        && error == None
      ensures result.Failed? ==>
        services == old(services) && error == Some("Failed to ping service")
    {
      match result {
        case Fetched(updatedService) =>
          services := ReplaceService(services, serviceId, updatedService);
          error := None;
        case Failed =>
          error := Some("Failed to ping service");
      }
    }
  }
}
