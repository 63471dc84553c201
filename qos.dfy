/**
 * QoS volumes of the middle end: a rate limit put on an existing volume.
 * The validator accepts only a maximum limit that sets something, supports
 * neither read nor write IOPS limits, and rejects negative values; an
 * accepted volume is translated into the engine's `bdev_set_qos_limit`
 * parameters, with the read/write IOPS limit given in thousands and sent
 * as I/Os per second. The server keeps the volumes in a keyed store and
 * changes it only when the engine accepted the change.
 */
module Qos {
  import opened Wrappers
  import Status
  import ResourceNames
  import Listing
  import JsonRpc

  // ---------------------------------------------------------------------
  // Data
  // ---------------------------------------------------------------------

  datatype QosLimit = QosLimit(
    rdIopsKiops: int,
    wrIopsKiops: int,
    rwIopsKiops: int,
    rdBandwidthMbs: int,
    wrBandwidthMbs: int,
    rwBandwidthMbs: int)

  const ZeroLimit: QosLimit := QosLimit(0, 0, 0, 0, 0, 0)

  /** The minimum and the maximum limit; either may be absent. An absent limits message is `Limits(None, None)`. */
  datatype Limits = Limits(min: Option<QosLimit>, max: Option<QosLimit>)

  datatype QosVolume = QosVolume(name: string, volumeNameRef: string, limits: Limits)

  /** The parameters of `bdev_set_qos_limit`. */
  datatype BdevQosParams = BdevQosParams(
    name: string,
    rwIosPerSec: int,
    rMbytesPerSec: int,
    wMbytesPerSec: int,
    rwMbytesPerSec: int)

  /** One page of a listing and the token for the next page ("" when there is none). */
  datatype QosVolumesPage = QosVolumesPage(qosVolumes: seq<QosVolume>, nextPageToken: string)

  /** The maximum limit as its getters read it: an absent message reads as all zeros. */
  function MaxLimit(v: QosVolume): QosLimit {
    if v.limits.max.Some? then v.limits.max.value else ZeroLimit
  }

  // ---------------------------------------------------------------------
  // Validation
  // ---------------------------------------------------------------------

  predicate Accepted(v: QosVolume) {
    var m := MaxLimit(v);
    && v.limits.min.None?
    && m.rdIopsKiops == 0 && m.wrIopsKiops == 0
    && m != ZeroLimit
    && m.rwIopsKiops >= 0 && m.rdBandwidthMbs >= 0 && m.wrBandwidthMbs >= 0 && m.rwBandwidthMbs >= 0
  }

  /**
   * The limit validator: the first rule a volume breaks, in this order:
   * a minimum limit, a read IOPS limit, a write IOPS limit, a maximum that
   * sets nothing, then a negative read/write IOPS or bandwidth limit.
   */
  function VerifyQosVolume(v: QosVolume): (r: Option<string>)
    ensures r.None? <==> Accepted(v)
    ensures v.limits.min.Some? ==> r == Some("QoS volume min_limit is not supported")
    ensures v.limits.min.None? && MaxLimit(v).rdIopsKiops != 0 ==>
              r == Some("QoS volume max_limit rd_iops_kiops is not supported")
    ensures v.limits.min.None? && MaxLimit(v).rdIopsKiops == 0 && MaxLimit(v).wrIopsKiops != 0 ==>
              r == Some("QoS volume max_limit wr_iops_kiops is not supported")
    ensures v.limits.min.None? && MaxLimit(v) == ZeroLimit ==> r == Some("QoS volume max_limit should set limit")
    ensures v.limits.min.None? && MaxLimit(v).rdIopsKiops == 0 && MaxLimit(v).wrIopsKiops == 0 && MaxLimit(v).rwIopsKiops < 0 ==>
              r == Some("QoS volume max_limit rw_iops_kiops cannot be negative")
  {
    var m := MaxLimit(v);
    if v.limits.min.Some? then Some("QoS volume min_limit is not supported")
    else if m.rdIopsKiops != 0 then Some("QoS volume max_limit rd_iops_kiops is not supported")
    else if m.wrIopsKiops != 0 then Some("QoS volume max_limit wr_iops_kiops is not supported")
    else if m == ZeroLimit then Some("QoS volume max_limit should set limit")
    else if m.rwIopsKiops < 0 then Some("QoS volume max_limit rw_iops_kiops cannot be negative")
    else if m.rdBandwidthMbs < 0 then Some("QoS volume max_limit rd_bandwidth_mbs cannot be negative")
    else if m.wrBandwidthMbs < 0 then Some("QoS volume max_limit wr_bandwidth_mbs cannot be negative")
    else if m.rwBandwidthMbs < 0 then Some("QoS volume max_limit rw_bandwidth_mbs cannot be negative")
    else None
  }

  /** With the IOPS checks passed and a limit set, a negative bandwidth is reported for the first negative field. */
  lemma NegativeBandwidthRejected(v: QosVolume)
    requires v.limits.min.None? && MaxLimit(v).rdIopsKiops == 0 && MaxLimit(v).wrIopsKiops == 0 && MaxLimit(v).rwIopsKiops >= 0
    ensures MaxLimit(v).rdBandwidthMbs < 0 ==> VerifyQosVolume(v) == Some("QoS volume max_limit rd_bandwidth_mbs cannot be negative")
    ensures MaxLimit(v).rdBandwidthMbs >= 0 && MaxLimit(v).wrBandwidthMbs < 0 ==>
              VerifyQosVolume(v) == Some("QoS volume max_limit wr_bandwidth_mbs cannot be negative")
    ensures MaxLimit(v).rdBandwidthMbs >= 0 && MaxLimit(v).wrBandwidthMbs >= 0 && MaxLimit(v).rwBandwidthMbs < 0 ==>
              VerifyQosVolume(v) == Some("QoS volume max_limit rw_bandwidth_mbs cannot be negative")
  {
  }

  // ---------------------------------------------------------------------
  // Translation to engine parameters
  // ---------------------------------------------------------------------

  /** The engine parameters for a volume: its underlying volume, and the maximum limit with IOPS in units of one. */
  function ToBdevQosParams(v: QosVolume): BdevQosParams {
    var m := MaxLimit(v);
    BdevQosParams(v.volumeNameRef, 1000 * m.rwIopsKiops, m.rdBandwidthMbs, m.wrBandwidthMbs, m.rwBandwidthMbs)
  }

  /** The limit a set of engine parameters stands for (the engine has no separate read or write IOPS limit). */
  function LimitOfParams(p: BdevQosParams): QosLimit {
    QosLimit(0, 0, p.rwIosPerSec / 1000, p.rMbytesPerSec, p.wMbytesPerSec, p.rwMbytesPerSec)
  }

  /** Nothing of an accepted volume's limit is lost in translation: the parameters give the limit back. */
  lemma ParamsRoundTrip(v: QosVolume)
    requires Accepted(v)
    ensures LimitOfParams(ToBdevQosParams(v)) == MaxLimit(v)
    ensures ToBdevQosParams(v).name == v.volumeNameRef
    ensures ToBdevQosParams(v).rwIosPerSec == 1000 * MaxLimit(v).rwIopsKiops
  {
    var k := MaxLimit(v).rwIopsKiops;
    assert (1000 * k) / 1000 == k;
  }

  /** The parameters that lift every limit from a volume. */
  function NoLimitParams(volumeNameRef: string): BdevQosParams {
    BdevQosParams(volumeNameRef, 0, 0, 0, 0)
  }

  /** Lifting the limits stands for the all-zero limit, which the validator never accepts as a limit to set. */
  lemma NoLimitIsNotALimit(v: QosVolume)
    requires Accepted(v)
    ensures LimitOfParams(NoLimitParams(v.volumeNameRef)) == ZeroLimit
    ensures ToBdevQosParams(v) != NoLimitParams(v.volumeNameRef)
  {
    ParamsRoundTrip(v);
  }

  // ---------------------------------------------------------------------
  // The engine's verdict
  // ---------------------------------------------------------------------

  /** How a `bdev_set_qos_limit` call ends: only a `true` result is success. */
  function SetLimitVerdict(a: Result<JsonRpc.ResultValue, JsonRpc.CallError>): (v: Result<(), Status.Error>)
    ensures v.Success? <==> a == Success(JsonRpc.BoolResult(true))
    ensures a.Failure? ==> v == Failure(Status.FailedSpdkCall)
    ensures a.Success? && a.value != JsonRpc.BoolResult(true) ==> v == Failure(Status.UnexpectedSpdkCallResult)
  {
    if a.Failure? then Failure(Status.FailedSpdkCall)
    else if a.value != JsonRpc.BoolResult(true) then Failure(Status.UnexpectedSpdkCallResult)
    else Success(())
  }

  /** The verdict for one exchange with the engine. */
  function SetLimitOutcome(ex: JsonRpc.Exchange): Result<(), Status.Error> {
    SetLimitVerdict(JsonRpc.Receive(ex, JsonRpc.BoolShape))
  }

  // ---------------------------------------------------------------------
  // Create
  // ---------------------------------------------------------------------

  /** The store key of a new volume: the client's ID when it gave one, else the generated one. */
  function CreateKey(qosVolumeId: string, generatedId: string): string {
    ResourceNames.ResourceIdToVolumeName(if qosVolumeId != "" then qosVolumeId else generatedId)
  }

  /** The request checks of create, in order; `None` when the request may go on. */
  function CreateCheck(req: Option<QosVolume>, qosVolumeId: string): (r: Option<Status.Error>)
    ensures r.None? <==> req.Some? && req.value.volumeNameRef != ""
                         && (qosVolumeId == "" || ResourceNames.ValidateUserSettable(qosVolumeId).None?)
                         && Accepted(req.value)
    ensures req.None? ==> r == Some(Status.MissingField("qos_volume"))
    ensures req.Some? && req.value.volumeNameRef == "" ==> r == Some(Status.MissingField("qos_volume.volume_name_ref"))
    ensures r.Some? && r.value.Status? && r.value.code == Status.InvalidArgument ==>
              req.Some? && VerifyQosVolume(req.value) == Some(r.value.message)
  {
    if req.None? then Some(Status.MissingField("qos_volume"))
    else if req.value.volumeNameRef == "" then Some(Status.MissingField("qos_volume.volume_name_ref"))
    else if qosVolumeId != "" && ResourceNames.ValidateUserSettable(qosVolumeId).Some? then
      Some(Status.Status(Status.Unknown, ResourceNames.ValidateUserSettable(qosVolumeId).value))
    else if VerifyQosVolume(req.value).Some? then Some(Status.Status(Status.InvalidArgument, VerifyQosVolume(req.value).value))
    else None
  }

  /** Whether create reaches the engine: the request is good and the key is new. */
  predicate CreateCalls(volumes: map<string, QosVolume>, req: Option<QosVolume>, qosVolumeId: string, generatedId: string) {
    CreateCheck(req, qosVolumeId).None? && CreateKey(qosVolumeId, generatedId) !in volumes
  }

  /**
   * Create: a bad request is rejected; an existing key gives back the stored
   * volume; otherwise the engine is asked and, when it accepts, the request's
   * volume is the result, renamed to its key (any name in the request is
   * ignored).
   */
  function Create(volumes: map<string, QosVolume>, req: Option<QosVolume>, qosVolumeId: string, generatedId: string,
                  ex: JsonRpc.Exchange): (r: Result<QosVolume, Status.Error>)
    ensures CreateCheck(req, qosVolumeId).Some? ==> r == Failure(CreateCheck(req, qosVolumeId).value)
    ensures CreateCheck(req, qosVolumeId).None? && CreateKey(qosVolumeId, generatedId) in volumes ==>
              r == Success(volumes[CreateKey(qosVolumeId, generatedId)])
    ensures CreateCalls(volumes, req, qosVolumeId, generatedId) ==>
              (r.Success? <==> SetLimitOutcome(ex).Success?)
              && (r.Success? ==> r.value == req.value.(name := CreateKey(qosVolumeId, generatedId)))
              && (r.Failure? ==> r.error == SetLimitOutcome(ex).error)
  {
    var key := CreateKey(qosVolumeId, generatedId);
    if CreateCheck(req, qosVolumeId).Some? then Failure(CreateCheck(req, qosVolumeId).value)
    else if key in volumes then Success(volumes[key])
    else if SetLimitOutcome(ex).Failure? then Failure(SetLimitOutcome(ex).error)
    else Success(req.value.(name := key))
  }

  /** The store after create: the new volume is added when the engine accepted it; nothing changes otherwise. */
  function CreateStore(volumes: map<string, QosVolume>, req: Option<QosVolume>, qosVolumeId: string, generatedId: string,
                       ex: JsonRpc.Exchange): map<string, QosVolume>
  {
    var r := Create(volumes, req, qosVolumeId, generatedId, ex);
    if CreateCalls(volumes, req, qosVolumeId, generatedId) && r.Success? then volumes[CreateKey(qosVolumeId, generatedId) := r.value]
    else volumes
  }

  /** The request checks of create do not look at the request's name. */
  lemma CreateCheckIgnoresName(v: QosVolume, other: string, qosVolumeId: string)
    ensures CreateCheck(Some(v), qosVolumeId) == CreateCheck(Some(v.(name := other)), qosVolumeId)
  {
    assert MaxLimit(v) == MaxLimit(v.(name := other));
    assert VerifyQosVolume(v) == VerifyQosVolume(v.(name := other));
  }

  /** The name given in the request plays no part in create. */
  lemma CreateIgnoresName(volumes: map<string, QosVolume>, v: QosVolume, other: string, qosVolumeId: string,
                          generatedId: string, ex: JsonRpc.Exchange)
    ensures Create(volumes, Some(v), qosVolumeId, generatedId, ex) == Create(volumes, Some(v.(name := other)), qosVolumeId, generatedId, ex)
    ensures CreateStore(volumes, Some(v), qosVolumeId, generatedId, ex)
            == CreateStore(volumes, Some(v.(name := other)), qosVolumeId, generatedId, ex)
  {
    CreateCheckIgnoresName(v, other, qosVolumeId);
    var key := CreateKey(qosVolumeId, generatedId);
    assert v.(name := key) == v.(name := other).(name := key);
  }

  /** Create is idempotent: repeating a create that succeeded returns the same volume and does not reach the engine. */
  lemma CreateIdempotent(volumes: map<string, QosVolume>, req: Option<QosVolume>, qosVolumeId: string, generatedId: string,
                         ex: JsonRpc.Exchange, ex2: JsonRpc.Exchange)
    requires Create(volumes, req, qosVolumeId, generatedId, ex).Success?
    ensures var after := CreateStore(volumes, req, qosVolumeId, generatedId, ex);
            && Create(after, req, qosVolumeId, generatedId, ex2) == Create(volumes, req, qosVolumeId, generatedId, ex)
            && !CreateCalls(after, req, qosVolumeId, generatedId)
  {
  }

  // ---------------------------------------------------------------------
  // Delete
  // ---------------------------------------------------------------------

  /** Whether delete reaches the engine: the name is good and the key is held. */
  predicate DeleteCalls(volumes: map<string, QosVolume>, name: string) {
    ResourceNames.CheckName(name).None? && name in volumes
  }

  /**
   * Delete: a bad name is rejected; an unknown key is an error unless the
   * client allows it to be missing; otherwise the engine is asked to lift the
   * volume's limits.
   */
  function Delete(volumes: map<string, QosVolume>, name: string, allowMissing: bool, ex: JsonRpc.Exchange): (r: Result<(), Status.Error>)
    ensures ResourceNames.CheckName(name).Some? ==> r == Failure(ResourceNames.CheckName(name).value)
    ensures ResourceNames.CheckName(name).None? && name !in volumes ==>
              r == if allowMissing then Success(()) else Failure(Status.KeyNotFound(name))
    ensures DeleteCalls(volumes, name) ==> r == SetLimitOutcome(ex)
  {
    if ResourceNames.CheckName(name).Some? then Failure(ResourceNames.CheckName(name).value)
    else if name !in volumes then (if allowMissing then Success(()) else Failure(Status.KeyNotFound(name)))
    else SetLimitOutcome(ex)
  }

  /** A successful delete of a held key leaves it unknown to a later get, and a second delete of it finds nothing to do. */
  lemma DeleteForgets(volumes: map<string, QosVolume>, name: string, allowMissing: bool, ex: JsonRpc.Exchange, ex2: JsonRpc.Exchange)
    requires DeleteCalls(volumes, name) && Delete(volumes, name, allowMissing, ex).Success?
    ensures Get(volumes - {name}, name) == Failure(Status.KeyNotFound(name))
    ensures Delete(volumes - {name}, name, true, ex2) == Success(())
    ensures !DeleteCalls(volumes - {name}, name)
  {
  }

  // ---------------------------------------------------------------------
  // Update
  // ---------------------------------------------------------------------

  function ChangeOfVolumeMessage(old_ref: string, new_ref: string): string {
    "Change of underlying volume " + old_ref + " to a new one " + new_ref + " is forbidden"
  }

  /** The request checks of update, in order, before the store is consulted. */
  function UpdateCheck(req: Option<QosVolume>): (r: Option<Status.Error>)
    ensures r.None? <==> req.Some? && req.value.volumeNameRef != "" && req.value.name != ""
                         && ResourceNames.AllSegmentsValid(req.value.name) && Accepted(req.value)
    ensures req.None? ==> r == Some(Status.MissingField("qos_volume"))
    ensures req.Some? && req.value.volumeNameRef == "" ==> r == Some(Status.MissingField("qos_volume.volume_name_ref"))
    ensures req.Some? && req.value.volumeNameRef != "" && req.value.name == "" ==>
              r == Some(Status.Status(Status.InvalidArgument, "QoS volume name cannot be empty"))
  {
    if req.None? then Some(Status.MissingField("qos_volume"))
    else if req.value.volumeNameRef == "" then Some(Status.MissingField("qos_volume.volume_name_ref"))
    else if req.value.name == "" then Some(Status.Status(Status.InvalidArgument, "QoS volume name cannot be empty"))
    else if ResourceNames.ValidateName(req.value.name).Some? then
      Some(Status.Status(Status.InvalidArgument, ResourceNames.ValidateName(req.value.name).value))
    else if VerifyQosVolume(req.value).Some? then Some(Status.Status(Status.InvalidArgument, VerifyQosVolume(req.value).value))
    else None
  }

  /** Whether update reaches the engine: the request is good, the key is held and the underlying volume stays the same. */
  predicate UpdateCalls(volumes: map<string, QosVolume>, req: Option<QosVolume>) {
    UpdateCheck(req).None? && req.value.name in volumes && volumes[req.value.name].volumeNameRef == req.value.volumeNameRef
  }

  /**
   * Update: a bad request is rejected, an unknown key is not found, a change
   * of the underlying volume is forbidden; otherwise the engine is asked and,
   * when it accepts, the request's volume is the result.
   */
  function Update(volumes: map<string, QosVolume>, req: Option<QosVolume>, ex: JsonRpc.Exchange): (r: Result<QosVolume, Status.Error>)
    ensures UpdateCheck(req).Some? ==> r == Failure(UpdateCheck(req).value)
    ensures UpdateCheck(req).None? && req.value.name !in volumes ==> r == Failure(Status.KeyNotFound(req.value.name))
    ensures UpdateCheck(req).None? && req.value.name in volumes && volumes[req.value.name].volumeNameRef != req.value.volumeNameRef ==>
              r == Failure(Status.Status(Status.InvalidArgument,
                                         ChangeOfVolumeMessage(volumes[req.value.name].volumeNameRef, req.value.volumeNameRef)))
    ensures UpdateCalls(volumes, req) ==>
              (r.Success? <==> SetLimitOutcome(ex).Success?)
              && (r.Success? ==> r.value == req.value)
              && (r.Failure? ==> r.error == SetLimitOutcome(ex).error)
  {
    if UpdateCheck(req).Some? then Failure(UpdateCheck(req).value)
    else if req.value.name !in volumes then Failure(Status.KeyNotFound(req.value.name))
    else if volumes[req.value.name].volumeNameRef != req.value.volumeNameRef then
      Failure(Status.Status(Status.InvalidArgument, ChangeOfVolumeMessage(volumes[req.value.name].volumeNameRef, req.value.volumeNameRef)))
    else if SetLimitOutcome(ex).Failure? then Failure(SetLimitOutcome(ex).error)
    else Success(req.value)
  }

  /** An update never moves a volume onto another underlying volume. */
  lemma UpdateKeepsUnderlyingVolume(volumes: map<string, QosVolume>, req: Option<QosVolume>, ex: JsonRpc.Exchange)
    requires Update(volumes, req, ex).Success?
    ensures req.Some? && req.value.name in volumes
    ensures Update(volumes, req, ex).value.volumeNameRef == volumes[req.value.name].volumeNameRef
  {
  }

  // ---------------------------------------------------------------------
  // Get and stats
  // ---------------------------------------------------------------------

  /** Get: the stored volume under a good, held name. */
  function Get(volumes: map<string, QosVolume>, name: string): (r: Result<QosVolume, Status.Error>)
    ensures ResourceNames.CheckName(name).Some? ==> r == Failure(ResourceNames.CheckName(name).value)
    ensures ResourceNames.CheckName(name).None? ==>
              r == if name in volumes then Success(volumes[name]) else Failure(Status.KeyNotFound(name))
  {
    if ResourceNames.CheckName(name).Some? then Failure(ResourceNames.CheckName(name).value)
    else if name !in volumes then Failure(Status.KeyNotFound(name))
    else Success(volumes[name])
  }

  /**
   * Stats: after the checks of get, the engine's statistics for the
   * underlying volume must hold exactly one entry, whose counters are the
   * answer.
   */
  function Stats(volumes: map<string, QosVolume>, name: string, ex: JsonRpc.Exchange): (r: Result<JsonRpc.VolumeStats, Status.Error>)
    ensures Get(volumes, name).Failure? ==> r == Failure(Get(volumes, name).error)
    ensures Get(volumes, name).Success? && JsonRpc.Receive(ex, JsonRpc.IostatShape).Failure? ==> r == Failure(Status.FailedSpdkCall)
    ensures r.Success? <==> Get(volumes, name).Success? && JsonRpc.Receive(ex, JsonRpc.IostatShape).Success?
                            && |JsonRpc.Receive(ex, JsonRpc.IostatShape).value.bdevs| == 1
    ensures r.Success? ==> r.value == JsonRpc.StatsOf(JsonRpc.Receive(ex, JsonRpc.IostatShape).value.bdevs[0])
    ensures Get(volumes, name).Success? && JsonRpc.Receive(ex, JsonRpc.IostatShape).Success? && !r.Success? ==>
              r == Failure(Status.UnexpectedSpdkCallResult)
  {
    if Get(volumes, name).Failure? then Failure(Get(volumes, name).error)
    else
      var a := JsonRpc.Receive(ex, JsonRpc.IostatShape);
      if a.Failure? then Failure(Status.FailedSpdkCall)
      else if |a.value.bdevs| != 1 then Failure(Status.UnexpectedSpdkCallResult)
      else Success(JsonRpc.StatsOf(a.value.bdevs[0]))
  }

  // ---------------------------------------------------------------------
  // The server
  // ---------------------------------------------------------------------

  /** A listing result as the response message carries it. */
  function PageOf(o: Result<(seq<QosVolume>, string), Status.Error>): Result<QosVolumesPage, Status.Error> {
    match o
    case Success((items, token)) => Success(QosVolumesPage(items, token))
    case Failure(e) => Failure(e)
  }

  class QosServer {
    /** The volumes, by name. */
    var qosVolumes: map<string, QosVolume>
    /** Page tokens handed out, with the offset each one resumes at. */
    var pagination: map<string, nat>
    /** The parameters of every `bdev_set_qos_limit` call made, in order. */
    var sent: seq<BdevQosParams>

    constructor ()
      ensures qosVolumes == map[] && pagination == map[] && sent == []
    {
      qosVolumes := map[];
      pagination := map[];
      sent := [];
    }

    /** Creates a volume under `qosVolumeId`, or under `generatedId` when the client gives none. */
    method CreateQosVolume(req: Option<QosVolume>, qosVolumeId: string, generatedId: string, ex: JsonRpc.Exchange)
      returns (r: Result<QosVolume, Status.Error>)
      modifies this
      ensures r == Create(old(qosVolumes), req, qosVolumeId, generatedId, ex)
      ensures qosVolumes == CreateStore(old(qosVolumes), req, qosVolumeId, generatedId, ex)
      ensures sent == old(sent) + if CreateCalls(old(qosVolumes), req, qosVolumeId, generatedId) then [ToBdevQosParams(req.value)] else []
      ensures pagination == old(pagination)
    {
      var check := CreateCheck(req, qosVolumeId);
      if check.Some? {
        return Failure(check.value);
      }
      var key := CreateKey(qosVolumeId, generatedId);
      if key in qosVolumes {
        return Success(qosVolumes[key]);
      }
      var volume := req.value.(name := key);
      sent := sent + [ToBdevQosParams(req.value)];
      var verdict := SetLimitOutcome(ex);
      if verdict.Failure? {
        return Failure(verdict.error);
      }
      qosVolumes := qosVolumes[key := volume];
      return Success(volume);
    }

    /** Deletes the volume `name`: its limits are lifted first and the entry goes only when that worked. */
    method DeleteQosVolume(name: string, allowMissing: bool, ex: JsonRpc.Exchange) returns (r: Result<(), Status.Error>)
      modifies this
      ensures r == Delete(old(qosVolumes), name, allowMissing, ex)
      ensures qosVolumes == if DeleteCalls(old(qosVolumes), name) && r.Success? then old(qosVolumes) - {name} else old(qosVolumes)
      ensures sent == old(sent) + if DeleteCalls(old(qosVolumes), name) then [NoLimitParams(old(qosVolumes)[name].volumeNameRef)] else []
      ensures pagination == old(pagination)
    {
      var check := ResourceNames.CheckName(name);
      if check.Some? {
        return Failure(check.value);
      }
      if name !in qosVolumes {
        if allowMissing {
          return Success(());
        }
        return Failure(Status.KeyNotFound(name));
      }
      sent := sent + [NoLimitParams(qosVolumes[name].volumeNameRef)];
      r := SetLimitOutcome(ex);
      if r.Success? {
        qosVolumes := qosVolumes - {name};
      }
    }

    /** Replaces the limits of a held volume, keeping its underlying volume. */
    method UpdateQosVolume(req: Option<QosVolume>, ex: JsonRpc.Exchange) returns (r: Result<QosVolume, Status.Error>)
      modifies this
      ensures r == Update(old(qosVolumes), req, ex)
      ensures qosVolumes == if UpdateCalls(old(qosVolumes), req) && r.Success? then old(qosVolumes)[req.value.name := req.value] else old(qosVolumes)
      ensures sent == old(sent) + if UpdateCalls(old(qosVolumes), req) then [ToBdevQosParams(req.value)] else []
      ensures pagination == old(pagination)
    {
      var check := UpdateCheck(req);
      if check.Some? {
        return Failure(check.value);
      }
      var volume := req.value;
      if volume.name !in qosVolumes {
        return Failure(Status.KeyNotFound(volume.name));
      }
      var stored := qosVolumes[volume.name];
      if stored.volumeNameRef != volume.volumeNameRef {
        return Failure(Status.Status(Status.InvalidArgument, ChangeOfVolumeMessage(stored.volumeNameRef, volume.volumeNameRef)));
      }
      sent := sent + [ToBdevQosParams(volume)];
      var verdict := SetLimitOutcome(ex);
      if verdict.Failure? {
        return Failure(verdict.error);
      }
      qosVolumes := qosVolumes[volume.name := volume];
      return Success(volume);
    }

    /**
     * One page of the volumes in name order. When entries remain after the
     * page, `newToken` is handed out for the next page and remembered with
     * the offset it resumes at.
     */
    method ListQosVolumes(parent: string, pageSize: int, pageToken: string, newToken: string)
      returns (r: Result<QosVolumesPage, Status.Error>)
      requires newToken != ""
      modifies this
      ensures exists keys :: Listing.IsKeyOrder(keys, qosVolumes) &&
                var (o, after) := Listing.List(Listing.ValuesOf(qosVolumes, keys), parent, pageSize, pageToken, old(pagination), newToken);
                pagination == after && r == PageOf(o)
      ensures qosVolumes == old(qosVolumes) && sent == old(sent)
    {
      var keys := Listing.SortedKeys(qosVolumes);
      var (o, after) := Listing.List(Listing.ValuesOf(qosVolumes, keys), parent, pageSize, pageToken, pagination, newToken);
      pagination := after;
      r := PageOf(o);
      assert Listing.IsKeyOrder(keys, qosVolumes);
    }

    /** Get over the server's store. */
    function GetQosVolume(name: string): (r: Result<QosVolume, Status.Error>)
      reads this
      ensures r.Success? <==> name != "" && ResourceNames.AllSegmentsValid(name) && name in qosVolumes
      ensures r.Success? ==> r.value == qosVolumes[name]
    {
      Get(qosVolumes, name)
    }

    /** Stats over the server's store. */
    function StatsQosVolume(name: string, ex: JsonRpc.Exchange): (r: Result<JsonRpc.VolumeStats, Status.Error>)
      reads this
      ensures r.Success? ==> name in qosVolumes
    {
      Stats(qosVolumes, name, ex)
    }
  }
}
