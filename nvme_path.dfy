/**
 * NVMe paths of the back end: a route (transport, address, subsystem) to a
 * remote NVMe controller. Create attaches the controller through the
 * engine and remembers the path; delete detaches it and forgets it. The
 * paths are kept in a keyed store that changes only after the engine
 * agreed. Every engine failure is reported under the name of the engine
 * method that failed.
 */
module NvmePaths {
  import opened Wrappers
  import Status
  import ResourceNames
  import Listing
  import JsonRpc

  // ---------------------------------------------------------------------
  // Data
  // ---------------------------------------------------------------------

  datatype TransportType = TransportUnspecified | Tcp | Rdma | Pcie
  datatype AddressFamily = AdrfamUnspecified | Ipv4 | Ipv6

  datatype NvmePath = NvmePath(
    name: string,
    trtype: TransportType,
    adrfam: AddressFamily,
    traddr: string,
    trsvcid: int,
    subnqn: string,
    hostnqn: string,
    controllerNameRef: string)

  /** One page of a listing and the token for the next page ("" when there is none). */
  datatype NvmePathsPage = NvmePathsPage(nvmePaths: seq<NvmePath>, nextPageToken: string)

  const AttachController: string := "bdev_nvme_attach_controller"
  const DetachController: string := "bdev_nvme_detach_controller"
  const GetControllers: string := "bdev_nvme_get_controllers"
  const GetIostat: string := "bdev_get_iostat"

  // ---------------------------------------------------------------------
  // Engine failures
  // ---------------------------------------------------------------------

  /** A failed engine call as the API reports it: the method name, then the client's text. */
  function CallFailure(rpcMethod: string, e: JsonRpc.CallError): (err: Status.Error)
    ensures e.Undecodable? <==> err == Status.DecodeFailed(rpcMethod)
    ensures !e.Undecodable? ==> err == Status.Status(Status.Unknown, rpcMethod + ": " + JsonRpc.ErrorText(e))
  {
    if e.Undecodable? then Status.DecodeFailed(rpcMethod)
    else Status.Status(Status.Unknown, rpcMethod + ": " + JsonRpc.ErrorText(e))
  }

  /** Different failures of one method are reported differently: a caller can tell them apart. */
  lemma CallFailureInjective(rpcMethod: string, e1: JsonRpc.CallError, e2: JsonRpc.CallError)
    requires e1 != e2
    ensures CallFailure(rpcMethod, e1) != CallFailure(rpcMethod, e2)
  {
    if !e1.Undecodable? && !e2.Undecodable? {
      var t1 := JsonRpc.ErrorText(e1);
      var t2 := JsonRpc.ErrorText(e2);
      var p := rpcMethod + ": ";
      JsonRpc.ErrorTextInjective(e1, e2);
      assert (p + t1)[|p|..] == t1;
      assert (p + t2)[|p|..] == t2;
    }
  }

  /** The error of a call whose result must hold exactly one entry. */
  function ResultCountError(count: nat): Status.Error {
    Status.Status(Status.InvalidArgument, "expecting exactly 1 result, got " + Status.DecimalString(count))
  }

  // ---------------------------------------------------------------------
  // Create
  // ---------------------------------------------------------------------

  /** The store key of a new path: the client's ID when it gave one, else the generated one. */
  function CreateKey(nvmePathId: string, generatedId: string): string {
    ResourceNames.ResourceIdToVolumeName(if nvmePathId != "" then nvmePathId else generatedId)
  }

  /** The request checks of create, in order; `None` when the request may go on. */
  function CreateCheck(req: Option<NvmePath>, nvmePathId: string): (r: Option<Status.Error>)
    ensures r.None? <==> req.Some? && (nvmePathId == "" || ResourceNames.ValidateUserSettable(nvmePathId).None?)
    ensures req.None? ==> r == Some(Status.MissingField("nvme_path"))
    ensures req.Some? && r.Some? ==> r == Some(Status.Status(Status.Unknown, ResourceNames.ValidateUserSettable(nvmePathId).value))
  {
    if req.None? then Some(Status.MissingField("nvme_path"))
    else if nvmePathId != "" && ResourceNames.ValidateUserSettable(nvmePathId).Some? then
      Some(Status.Status(Status.Unknown, ResourceNames.ValidateUserSettable(nvmePathId).value))
    else None
  }

  /** Whether create reaches the engine: the request is good and the key is new. */
  predicate CreateCalls(paths: map<string, NvmePath>, req: Option<NvmePath>, nvmePathId: string, generatedId: string) {
    CreateCheck(req, nvmePathId).None? && CreateKey(nvmePathId, generatedId) !in paths
  }

  /**
   * Create: a bad request is rejected; an existing key gives back the stored
   * path; otherwise the controller is attached and, when the engine answers
   * with a controller list, the request's path is the result, named after
   * its key.
   */
  function Create(paths: map<string, NvmePath>, req: Option<NvmePath>, nvmePathId: string, generatedId: string,
                  ex: JsonRpc.Exchange): (r: Result<NvmePath, Status.Error>)
    ensures CreateCheck(req, nvmePathId).Some? ==> r == Failure(CreateCheck(req, nvmePathId).value)
    ensures CreateCheck(req, nvmePathId).None? && CreateKey(nvmePathId, generatedId) in paths ==>
              r == Success(paths[CreateKey(nvmePathId, generatedId)])
    ensures CreateCalls(paths, req, nvmePathId, generatedId) ==>
              (r.Success? <==> JsonRpc.Receive(ex, JsonRpc.ListShape).Success?)
              && (r.Success? ==> r.value == req.value.(name := CreateKey(nvmePathId, generatedId)))
              && (r.Failure? ==> r.error == CallFailure(AttachController, JsonRpc.Receive(ex, JsonRpc.ListShape).error))
  {
    var key := CreateKey(nvmePathId, generatedId);
    if CreateCheck(req, nvmePathId).Some? then Failure(CreateCheck(req, nvmePathId).value)
    else if key in paths then Success(paths[key])
    else
      var a := JsonRpc.Receive(ex, JsonRpc.ListShape);
      if a.Failure? then Failure(CallFailure(AttachController, a.error))
      else Success(req.value.(name := key))
  }

  /** The store after create. */
  function CreateStore(paths: map<string, NvmePath>, req: Option<NvmePath>, nvmePathId: string, generatedId: string,
                       ex: JsonRpc.Exchange): map<string, NvmePath>
  {
    var r := Create(paths, req, nvmePathId, generatedId, ex);
    if CreateCalls(paths, req, nvmePathId, generatedId) && r.Success? then paths[CreateKey(nvmePathId, generatedId) := r.value]
    else paths
  }

  /** Create is idempotent: repeating a create that succeeded returns the same path and does not reach the engine. */
  lemma CreateIdempotent(paths: map<string, NvmePath>, req: Option<NvmePath>, nvmePathId: string, generatedId: string,
                         ex: JsonRpc.Exchange, ex2: JsonRpc.Exchange)
    requires Create(paths, req, nvmePathId, generatedId, ex).Success?
    ensures var after := CreateStore(paths, req, nvmePathId, generatedId, ex);
            && Create(after, req, nvmePathId, generatedId, ex2) == Create(paths, req, nvmePathId, generatedId, ex)
            && !CreateCalls(after, req, nvmePathId, generatedId)
  {
  }

  // ---------------------------------------------------------------------
  // Delete
  // ---------------------------------------------------------------------

  /** Whether delete reaches the engine: the name is good and the key is held. */
  predicate DeleteCalls(paths: map<string, NvmePath>, name: string) {
    ResourceNames.CheckName(name).None? && name in paths
  }

  function CouldNotDelete(name: string): Status.Error {
    Status.Status(Status.InvalidArgument, "Could not delete Nvme Path: " + ResourceNames.ResourceIdOf(name))
  }

  /**
   * Delete: a bad name is rejected; an unknown key is an error unless the
   * client allows it to be missing; otherwise the controller is detached,
   * and an engine that answers `false` refused.
   */
  function Delete(paths: map<string, NvmePath>, name: string, allowMissing: bool, ex: JsonRpc.Exchange): (r: Result<(), Status.Error>)
    ensures ResourceNames.CheckName(name).Some? ==> r == Failure(ResourceNames.CheckName(name).value)
    ensures ResourceNames.CheckName(name).None? && name !in paths ==>
              r == if allowMissing then Success(()) else Failure(Status.KeyNotFound(name))
    ensures DeleteCalls(paths, name) ==>
              var a := JsonRpc.Receive(ex, JsonRpc.BoolShape);
              && (r.Success? <==> a == Success(JsonRpc.BoolResult(true)))
              && (a.Failure? ==> r == Failure(CallFailure(DetachController, a.error)))
              && (a == Success(JsonRpc.BoolResult(false)) ==> r == Failure(CouldNotDelete(name)))
  {
    if ResourceNames.CheckName(name).Some? then Failure(ResourceNames.CheckName(name).value)
    else if name !in paths then (if allowMissing then Success(()) else Failure(Status.KeyNotFound(name)))
    else
      var a := JsonRpc.Receive(ex, JsonRpc.BoolShape);
      if a.Failure? then Failure(CallFailure(DetachController, a.error))
      else if !a.value.b then Failure(CouldNotDelete(name))
      else Success(())
  }

  /** The refusal names the ID the path was created under. */
  lemma CouldNotDeleteNamesId(id: string)
    requires '/' !in id
    ensures CouldNotDelete(ResourceNames.ResourceIdToVolumeName(id))
            == Status.Status(Status.InvalidArgument, "Could not delete Nvme Path: " + id)
  {
    ResourceNames.ResourceIdOfVolumeName(id);
  }

  /** A successful delete leaves the key unknown, and a second delete of it finds nothing to do. */
  lemma DeleteForgets(paths: map<string, NvmePath>, name: string, allowMissing: bool, ex: JsonRpc.Exchange, ex2: JsonRpc.Exchange)
    requires DeleteCalls(paths, name) && Delete(paths, name, allowMissing, ex).Success?
    ensures Delete(paths - {name}, name, false, ex2) == Failure(Status.KeyNotFound(name))
    ensures Delete(paths - {name}, name, true, ex2) == Success(())
  {
  }

  // ---------------------------------------------------------------------
  // Update
  // ---------------------------------------------------------------------

  /** The field paths of an NVMe path message that an update mask may name. */
  const NvmePathFields: set<string> :=
    {"name", "trtype", "adrfam", "traddr", "trsvcid", "subnqn", "hostnqn", "controller_name_ref"}

  /**
   * The checks of update, in order; `None` when the update may go on to
   * reconfigure the controller. The body is required and its name must be
   * valid; an unknown key is not found whether or not the client allows it
   * to be missing; a field mask that mixes "*" with other paths, or names a
   * path that is no field of the message, is rejected.
   */
  function UpdateCheck(paths: map<string, NvmePath>, req: Option<NvmePath>, mask: seq<string>, allowMissing: bool)
    : (r: Option<Status.Error>)
    ensures req.None? ==> r == Some(Status.MissingField("nvme_path"))
    ensures req.Some? && ResourceNames.ValidateName(req.value.name).Some? ==>
              r == Some(Status.Status(Status.Unknown, ResourceNames.ValidateName(req.value.name).value))
    ensures req.Some? && ResourceNames.ValidateName(req.value.name).None? && req.value.name !in paths ==>
              r == Some(Status.KeyNotFound(req.value.name))
    ensures req.Some? && ResourceNames.ValidateName(req.value.name).None? && req.value.name in paths ==>
              r == if ResourceNames.ValidateFieldMask(mask, NvmePathFields).Some?
                   then Some(Status.Status(Status.Unknown, ResourceNames.ValidateFieldMask(mask, NvmePathFields).value))
                   else None
    ensures r.None? <==> req.Some? && ResourceNames.AllSegmentsValid(req.value.name) && req.value.name in paths
                         && ResourceNames.ValidateFieldMask(mask, NvmePathFields).None?
  {
    if req.None? then Some(Status.MissingField("nvme_path"))
    else if ResourceNames.ValidateName(req.value.name).Some? then
      Some(Status.Status(Status.Unknown, ResourceNames.ValidateName(req.value.name).value))
    else if req.value.name !in paths then Some(Status.KeyNotFound(req.value.name))
    else if ResourceNames.ValidateFieldMask(mask, NvmePathFields).Some? then
      Some(Status.Status(Status.Unknown, ResourceNames.ValidateFieldMask(mask, NvmePathFields).value))
    else None
  }

  /** `allow_missing` does not turn an update of an unknown key into a create. */
  lemma UpdateIgnoresAllowMissing(paths: map<string, NvmePath>, req: Option<NvmePath>, mask: seq<string>)
    ensures UpdateCheck(paths, req, mask, true) == UpdateCheck(paths, req, mask, false)
    ensures UpdateCheck(paths, req, mask, true).None? ==> req.value.name in paths
  {
  }

  // ---------------------------------------------------------------------
  // Get and stats
  // ---------------------------------------------------------------------

  /**
   * Get: after the name checks and the look-up, the engine is asked for the
   * controller, and its answer must list exactly one.
   */
  function Get(paths: map<string, NvmePath>, name: string, ex: JsonRpc.Exchange): (r: Result<NvmePath, Status.Error>)
    ensures ResourceNames.CheckName(name).Some? ==> r == Failure(ResourceNames.CheckName(name).value)
    ensures ResourceNames.CheckName(name).None? && name !in paths ==> r == Failure(Status.KeyNotFound(name))
    ensures ResourceNames.CheckName(name).None? && name in paths && JsonRpc.Receive(ex, JsonRpc.ListShape).Failure? ==>
              r == Failure(CallFailure(GetControllers, JsonRpc.Receive(ex, JsonRpc.ListShape).error))
    ensures r.Success? <==> ResourceNames.CheckName(name).None? && name in paths
                            && JsonRpc.Receive(ex, JsonRpc.ListShape).Success?
                            && |JsonRpc.Receive(ex, JsonRpc.ListShape).value.items| == 1
    ensures r.Success? ==> r.value == paths[name]
  {
    if ResourceNames.CheckName(name).Some? then Failure(ResourceNames.CheckName(name).value)
    else if name !in paths then Failure(Status.KeyNotFound(name))
    else
      var a := JsonRpc.Receive(ex, JsonRpc.ListShape);
      if a.Failure? then Failure(CallFailure(GetControllers, a.error))
      else if |a.value.items| != 1 then Failure(ResultCountError(|a.value.items|))
      else Success(paths[name])
  }

  /**
   * Stats: after the name checks and the look-up, the engine's statistics
   * must hold exactly one entry, whose counters are the answer.
   */
  function Stats(paths: map<string, NvmePath>, name: string, ex: JsonRpc.Exchange): (r: Result<JsonRpc.VolumeStats, Status.Error>)
    ensures ResourceNames.CheckName(name).Some? ==> r == Failure(ResourceNames.CheckName(name).value)
    ensures ResourceNames.CheckName(name).None? && name !in paths ==> r == Failure(Status.KeyNotFound(name))
    ensures ResourceNames.CheckName(name).None? && name in paths && JsonRpc.Receive(ex, JsonRpc.IostatShape).Failure? ==>
              r == Failure(CallFailure(GetIostat, JsonRpc.Receive(ex, JsonRpc.IostatShape).error))
    ensures r.Success? <==> ResourceNames.CheckName(name).None? && name in paths
                            && JsonRpc.Receive(ex, JsonRpc.IostatShape).Success?
                            && |JsonRpc.Receive(ex, JsonRpc.IostatShape).value.bdevs| == 1
    ensures r.Success? ==> r.value == JsonRpc.StatsOf(JsonRpc.Receive(ex, JsonRpc.IostatShape).value.bdevs[0])
  {
    if ResourceNames.CheckName(name).Some? then Failure(ResourceNames.CheckName(name).value)
    else if name !in paths then Failure(Status.KeyNotFound(name))
    else
      var a := JsonRpc.Receive(ex, JsonRpc.IostatShape);
      if a.Failure? then Failure(CallFailure(GetIostat, a.error))
      else if |a.value.bdevs| != 1 then Failure(ResultCountError(|a.value.bdevs|))
      else Success(JsonRpc.StatsOf(a.value.bdevs[0]))
  }

  // ---------------------------------------------------------------------
  // The server
  // ---------------------------------------------------------------------

  /** A listing result as the response message carries it. */
  function PageOf(o: Result<(seq<NvmePath>, string), Status.Error>): Result<NvmePathsPage, Status.Error> {
    match o
    case Success((items, token)) => Success(NvmePathsPage(items, token))
    case Failure(e) => Failure(e)
  }

  class NvmePathServer {
    /** The paths, by name. */
    var nvmePaths: map<string, NvmePath>
    /** Page tokens handed out, with the offset each one resumes at. */
    var pagination: map<string, nat>
    /** The engine methods called, in order. */
    var calls: seq<string>

    constructor ()
      ensures nvmePaths == map[] && pagination == map[] && calls == []
    {
      nvmePaths := map[];
      pagination := map[];
      calls := [];
    }

    /** Creates a path under `nvmePathId`, or under `generatedId` when the client gives none. */
    method CreateNvmePath(req: Option<NvmePath>, nvmePathId: string, generatedId: string, ex: JsonRpc.Exchange)
      returns (r: Result<NvmePath, Status.Error>)
      modifies this
      ensures r == Create(old(nvmePaths), req, nvmePathId, generatedId, ex)
      ensures nvmePaths == CreateStore(old(nvmePaths), req, nvmePathId, generatedId, ex)
      ensures calls == old(calls) + if CreateCalls(old(nvmePaths), req, nvmePathId, generatedId) then [AttachController] else []
      ensures pagination == old(pagination)
    {
      var check := CreateCheck(req, nvmePathId);
      if check.Some? {
        return Failure(check.value);
      }
      var key := CreateKey(nvmePathId, generatedId);
      if key in nvmePaths {
        return Success(nvmePaths[key]);
      }
      calls := calls + [AttachController];
      var a := JsonRpc.Receive(ex, JsonRpc.ListShape);
      if a.Failure? {
        return Failure(CallFailure(AttachController, a.error));
      }
      var path := req.value.(name := key);
      nvmePaths := nvmePaths[key := path];
      return Success(path);
    }

    /** Deletes the path `name`: the controller is detached first and the entry goes only when that worked. */
    method DeleteNvmePath(name: string, allowMissing: bool, ex: JsonRpc.Exchange) returns (r: Result<(), Status.Error>)
      modifies this
      ensures r == Delete(old(nvmePaths), name, allowMissing, ex)
      ensures nvmePaths == if DeleteCalls(old(nvmePaths), name) && r.Success? then old(nvmePaths) - {name} else old(nvmePaths)
      ensures calls == old(calls) + if DeleteCalls(old(nvmePaths), name) then [DetachController] else []
      ensures pagination == old(pagination)
    {
      var check := ResourceNames.CheckName(name);
      if check.Some? {
        return Failure(check.value);
      }
      if name !in nvmePaths {
        if allowMissing {
          return Success(());
        }
        return Failure(Status.KeyNotFound(name));
      }
      calls := calls + [DetachController];
      var a := JsonRpc.Receive(ex, JsonRpc.BoolShape);
      if a.Failure? {
        return Failure(CallFailure(DetachController, a.error));
      }
      if !a.value.b {
        return Failure(CouldNotDelete(name));
      }
      nvmePaths := nvmePaths - {name};
      return Success(());
    }

    /**
     * One page of the paths in name order. When entries remain after the
     * page, `newToken` is handed out for the next page and remembered with
     * the offset it resumes at.
     */
    method ListNvmePaths(parent: string, pageSize: int, pageToken: string, newToken: string)
      returns (r: Result<NvmePathsPage, Status.Error>)
      requires newToken != ""
      modifies this
      ensures exists keys :: Listing.IsKeyOrder(keys, nvmePaths) &&
                var (o, after) := Listing.List(Listing.ValuesOf(nvmePaths, keys), parent, pageSize, pageToken, old(pagination), newToken);
                pagination == after && r == PageOf(o)
      ensures nvmePaths == old(nvmePaths) && calls == old(calls)
    {
      var keys := Listing.SortedKeys(nvmePaths);
      var (o, after) := Listing.List(Listing.ValuesOf(nvmePaths, keys), parent, pageSize, pageToken, pagination, newToken);
      pagination := after;
      r := PageOf(o);
      assert Listing.IsKeyOrder(keys, nvmePaths);
    }

    /** Get over the server's store. */
    function GetNvmePath(name: string, ex: JsonRpc.Exchange): (r: Result<NvmePath, Status.Error>)
      reads this
      ensures r.Success? ==> name in nvmePaths && r.value == nvmePaths[name]
    {
      Get(nvmePaths, name, ex)
    }

    /** Stats over the server's store. */
    function StatsNvmePath(name: string, ex: JsonRpc.Exchange): (r: Result<JsonRpc.VolumeStats, Status.Error>)
      reads this
      ensures r.Success? ==> name in nvmePaths
    {
      Stats(nvmePaths, name, ex)
    }
  }
}
