/**
 * The QoS volume cases of the middle-end tests, each run against a fresh
 * server: the store is filled as the case needs, one request is made with
 * the engine reply the case scripts, and the answer, the store afterwards
 * and the parameters sent to the engine are returned.
 */
module QosScenarios {
  import opened Wrappers
  import Status
  import ResourceNames
  import Listing
  import JsonRpc
  import opened Qos

  const TestQosVolumeId: string := "qos-volume-42"
  const TestQosVolumeName: string := ResourceNames.ResourceIdToVolumeName(TestQosVolumeId)

  function MaxOnly(m: QosLimit): Limits {
    Limits(None, Some(m))
  }

  function RwBandwidth(n: int): QosLimit {
    QosLimit(0, 0, 0, 0, 0, n)
  }

  function RdBandwidth(n: int): QosLimit {
    QosLimit(0, 0, 0, n, 0, 0)
  }

  /** The test volume: a read/write bandwidth limit on "volume-42", with no name of its own. */
  const TestQosVolume: QosVolume := QosVolume("", "volume-42", MaxOnly(RwBandwidth(1)))

  /** What one case leaves behind. */
  datatype QosRun<T> = QosRun(out: Result<T, Status.Error>, stored: map<string, QosVolume>, sent: seq<BdevQosParams>)

  // ---------------------------------------------------------------------
  // Engine replies
  // ---------------------------------------------------------------------

  const Accepts: JsonRpc.Exchange := JsonRpc.Exchange(1, JsonRpc.Respond(1, JsonRpc.BoolResult(true)))
  const Declines: JsonRpc.Exchange := JsonRpc.Exchange(1, JsonRpc.Respond(1, JsonRpc.BoolResult(false)))
  const InternalError: JsonRpc.Exchange := JsonRpc.Exchange(1, JsonRpc.Response(1, 1, "some internal error", JsonRpc.BoolResult(true)))
  /** A case that never reaches the engine has no reply scripted. */
  const Silent: JsonRpc.Exchange := JsonRpc.Exchange(1, JsonRpc.EmptyReply)

  lemma EngineVerdicts()
    ensures SetLimitOutcome(Accepts) == Success(())
    ensures SetLimitOutcome(Declines) == Failure(Status.UnexpectedSpdkCallResult)
    ensures SetLimitOutcome(InternalError) == Failure(Status.FailedSpdkCall)
  {
    JsonRpc.ReceiveRespond(1, JsonRpc.BoolResult(true), JsonRpc.BoolShape);
    JsonRpc.ReceiveRespond(1, JsonRpc.BoolResult(false), JsonRpc.BoolShape);
  }

  /** The names the cases use are well formed. */
  lemma TestIdIsValid()
    ensures ResourceNames.ValidateUserSettable(TestQosVolumeId) == None
  {
    assert forall i :: 0 <= i < |TestQosVolumeId| ==> ResourceNames.IsIdChar(TestQosVolumeId[i]);
  }

  lemma TestNameIsValid()
    ensures ResourceNames.ValidateName(TestQosVolumeName) == None
  {
    assert ResourceNames.IsSimpleLabel(TestQosVolumeId);
    ResourceNames.VolumeNameIsValid(TestQosVolumeId);
  }

  lemma UnknownIdIsValid()
    ensures ResourceNames.ValidateName("unknown-qos-volume-id") == None
  {
    assert ResourceNames.IsSimpleLabel("unknown-qos-volume-id");
    ResourceNames.SimpleNameIsValid("unknown-qos-volume-id");
  }

  lemma UnknownNameIsValid()
    ensures ResourceNames.ValidateName(ResourceNames.ResourceIdToVolumeName("unknown-qos-volume-id")) == None
  {
    assert ResourceNames.IsSimpleLabel("unknown-qos-volume-id");
    ResourceNames.VolumeNameIsValid("unknown-qos-volume-id");
  }

  // ---------------------------------------------------------------------
  // Messages, spelled out
  // ---------------------------------------------------------------------

  lemma MissingFieldMessages()
    ensures Status.MissingField("qos_volume") == Status.Status(Status.Unknown, "missing required field: qos_volume")
    ensures Status.MissingField("name") == Status.Status(Status.Unknown, "missing required field: name")
    ensures Status.MissingField("parent") == Status.Status(Status.Unknown, "missing required field: parent")
  {
  }

  lemma MissingRefMessage()
    ensures Status.MissingField("qos_volume.volume_name_ref")
            == Status.Status(Status.Unknown, "missing required field: qos_volume.volume_name_ref")
  {
    var prefix, path, message := "missing required field: ", "qos_volume.volume_name_ref",
                                  "missing required field: qos_volume.volume_name_ref";
    assert |prefix + path| == |message|;
    assert forall i :: 0 <= i < |message| ==> (prefix + path)[i] == message[i];
  }

  lemma MalformedNameMessage()
    ensures ResourceNames.ValidateName("-ABC-DEF") == Some("segment '" + "-ABC-DEF" + "': not a valid DNS name")
  {
    ResourceNames.HyphenNameRejected("-ABC-DEF");
  }

  // ---------------------------------------------------------------------
  // The validator
  // ---------------------------------------------------------------------

  /** Each unsupported or out-of-range limit is rejected with its own message. */
  lemma ValidatorCases()
    ensures VerifyQosVolume(QosVolume("", "volume-42", Limits(Some(QosLimit(100000, 0, 0, 0, 0, 0)), None)))
            == Some("QoS volume min_limit is not supported")
    ensures VerifyQosVolume(QosVolume("", "volume-42", MaxOnly(QosLimit(100000, 0, 0, 0, 0, 0))))
            == Some("QoS volume max_limit rd_iops_kiops is not supported")
    ensures VerifyQosVolume(QosVolume("", "volume-42", MaxOnly(QosLimit(0, 100000, 0, 0, 0, 0))))
            == Some("QoS volume max_limit wr_iops_kiops is not supported")
    ensures VerifyQosVolume(QosVolume("", "volume-42", MaxOnly(QosLimit(0, 0, -1, 0, 0, 0))))
            == Some("QoS volume max_limit rw_iops_kiops cannot be negative")
    ensures VerifyQosVolume(QosVolume("", "volume-42", MaxOnly(QosLimit(0, 0, 0, -1, 0, 0))))
            == Some("QoS volume max_limit rd_bandwidth_mbs cannot be negative")
    ensures VerifyQosVolume(QosVolume("", "volume-42", MaxOnly(QosLimit(0, 0, 0, 0, -1, 0))))
            == Some("QoS volume max_limit wr_bandwidth_mbs cannot be negative")
    ensures VerifyQosVolume(QosVolume("", "volume-42", MaxOnly(QosLimit(0, 0, 0, 0, 0, -1))))
            == Some("QoS volume max_limit rw_bandwidth_mbs cannot be negative")
    ensures VerifyQosVolume(QosVolume("", "volume-42", MaxOnly(ZeroLimit))) == Some("QoS volume max_limit should set limit")
    ensures VerifyQosVolume(TestQosVolume) == None
  {
    NegativeBandwidthRejected(QosVolume("", "volume-42", MaxOnly(QosLimit(0, 0, 0, -1, 0, 0))));
    NegativeBandwidthRejected(QosVolume("", "volume-42", MaxOnly(QosLimit(0, 0, 0, 0, -1, 0))));
    NegativeBandwidthRejected(QosVolume("", "volume-42", MaxOnly(QosLimit(0, 0, 0, 0, 0, -1))));
  }

  // ---------------------------------------------------------------------
  // Create
  // ---------------------------------------------------------------------

  method RunCreate(stored: map<string, QosVolume>, req: Option<QosVolume>, qosVolumeId: string, ex: JsonRpc.Exchange)
    returns (run: QosRun<QosVolume>)
    ensures run.out == Create(stored, req, qosVolumeId, "generated-id", ex)
    ensures run.stored == CreateStore(stored, req, qosVolumeId, "generated-id", ex)
    ensures run.sent == if CreateCalls(stored, req, qosVolumeId, "generated-id") then [ToBdevQosParams(req.value)] else []
  {
    var s := new QosServer();
    s.qosVolumes := stored;
    var r := s.CreateQosVolume(req, qosVolumeId, "generated-id", ex);
    run := QosRun(r, s.qosVolumes, s.sent);
  }

  /** A new volume is stored and returned under the name derived from the client's ID. */
  method CreateSucceeds() returns (run: QosRun<QosVolume>)
    ensures run.out == Success(TestQosVolume.(name := TestQosVolumeName))
    ensures run.stored == map[TestQosVolumeName := TestQosVolume.(name := TestQosVolumeName)]
    ensures run.sent == [BdevQosParams("volume-42", 0, 0, 0, 1)]
  {
    TestIdIsValid();
    EngineVerdicts();
    run := RunCreate(map[], Some(TestQosVolume), TestQosVolumeId, Accepts);
  }

  /** A name in the request is ignored: the volume is named after the client's ID. */
  method CreateIgnoresRequestName() returns (run: QosRun<QosVolume>)
    ensures run.out == Success(TestQosVolume.(name := TestQosVolumeName))
    ensures run.stored == map[TestQosVolumeName := TestQosVolume.(name := TestQosVolumeName)]
  {
    TestIdIsValid();
    EngineVerdicts();
    CreateIgnoresName(map[], TestQosVolume, ResourceNames.ResourceIdToVolumeName("ignored-id"), TestQosVolumeId, "generated-id", Accepts);
    run := RunCreate(map[], Some(TestQosVolume.(name := ResourceNames.ResourceIdToVolumeName("ignored-id"))), TestQosVolumeId, Accepts);
  }

  method CreateWithoutVolume() returns (run: QosRun<QosVolume>)
    ensures run.out == Failure(Status.Status(Status.Unknown, "missing required field: qos_volume"))
    ensures run.stored == map[] && run.sent == []
  {
    MissingFieldMessages();
    run := RunCreate(map[], None, TestQosVolumeId, Silent);
  }

  method CreateWithoutVolumeRef() returns (run: QosRun<QosVolume>)
    ensures run.out == Failure(Status.Status(Status.Unknown, "missing required field: qos_volume.volume_name_ref"))
    ensures run.stored == map[] && run.sent == []
  {
    MissingRefMessage();
    run := RunCreate(map[], Some(TestQosVolume.(volumeNameRef := "")), TestQosVolumeId, Silent);
  }

  /** A rejected limit is reported and nothing is sent or stored. */
  method CreateWithMinLimit() returns (run: QosRun<QosVolume>)
    ensures run.out == Failure(Status.Status(Status.InvalidArgument, "QoS volume min_limit is not supported"))
    ensures run.stored == map[] && run.sent == []
  {
    TestIdIsValid();
    ValidatorCases();
    run := RunCreate(map[], Some(QosVolume("", "volume-42", Limits(Some(QosLimit(100000, 0, 0, 0, 0, 0)), None))),
                     TestQosVolumeId, Silent);
  }

  /** Creating a volume that exists gives back the stored one without asking the engine. */
  method CreateExisting() returns (run: QosRun<QosVolume>)
    ensures run.out == Success(TestQosVolume.(name := TestQosVolumeName))
    ensures run.stored == map[TestQosVolumeName := TestQosVolume.(name := TestQosVolumeName)]
    ensures run.sent == []
  {
    TestIdIsValid();
    run := RunCreate(map[TestQosVolumeName := TestQosVolume.(name := TestQosVolumeName)], Some(TestQosVolume), TestQosVolumeId, Silent);
  }

  method CreateEngineFails() returns (run: QosRun<QosVolume>)
    ensures run.out == Failure(Status.FailedSpdkCall)
    ensures run.stored == map[]
  {
    TestIdIsValid();
    EngineVerdicts();
    run := RunCreate(map[], Some(TestQosVolume), TestQosVolumeId, InternalError);
  }

  method CreateEngineDeclines() returns (run: QosRun<QosVolume>)
    ensures run.out == Failure(Status.UnexpectedSpdkCallResult)
    ensures run.stored == map[]
  {
    TestIdIsValid();
    EngineVerdicts();
    run := RunCreate(map[], Some(TestQosVolume), TestQosVolumeId, Declines);
  }

  /**
   * The limits reach the engine translated: exactly one call, on the
   * underlying volume, with the IOPS limit in I/Os per second. (The engine
   * stand-in of this case answers with no result, which reads as `false`.)
   */
  method CreateSendsParams() returns (run: QosRun<QosVolume>)
    ensures run.sent == [BdevQosParams("volume-42", 1000, 2, 3, 4)]
  {
    TestIdIsValid();
    run := RunCreate(map[], Some(QosVolume("", "volume-42", MaxOnly(QosLimit(0, 0, 1, 2, 3, 4)))), TestQosVolumeId, Declines);
  }

  // ---------------------------------------------------------------------
  // Delete
  // ---------------------------------------------------------------------

  method RunDelete(stored: map<string, QosVolume>, name: string, allowMissing: bool, ex: JsonRpc.Exchange)
    returns (run: QosRun<()>)
    ensures run.out == Delete(stored, name, allowMissing, ex)
    ensures run.stored == if DeleteCalls(stored, name) && run.out.Success? then stored - {name} else stored
    ensures run.sent == if DeleteCalls(stored, name) then [NoLimitParams(stored[name].volumeNameRef)] else []
  {
    var s := new QosServer();
    s.qosVolumes := stored;
    var r := s.DeleteQosVolume(name, allowMissing, ex);
    run := QosRun(r, s.qosVolumes, s.sent);
  }

  method DeleteUnknown() returns (run: QosRun<()>)
    ensures run.out == Failure(Status.KeyNotFound(TestQosVolumeName))
    ensures run.stored == map[] && run.sent == []
  {
    TestNameIsValid();
    run := RunDelete(map[], TestQosVolumeName, false, Silent);
  }

  method DeleteUnknownAllowed() returns (run: QosRun<()>)
    ensures run.out == Success(())
    ensures run.stored == map[] && run.sent == []
  {
    TestNameIsValid();
    run := RunDelete(map[], TestQosVolumeName, true, Silent);
  }

  /** When the engine cannot lift the limits the volume stays. */
  method DeleteEngineFails() returns (run: QosRun<()>)
    ensures run.out == Failure(Status.FailedSpdkCall)
    ensures run.stored == map[TestQosVolumeName := TestQosVolume]
    ensures run.sent == [BdevQosParams("volume-42", 0, 0, 0, 0)]
  {
    TestNameIsValid();
    EngineVerdicts();
    run := RunDelete(map[TestQosVolumeName := TestQosVolume], TestQosVolumeName, false, InternalError);
  }

  method DeleteEngineDeclines() returns (run: QosRun<()>)
    ensures run.out == Failure(Status.UnexpectedSpdkCallResult)
    ensures run.stored == map[TestQosVolumeName := TestQosVolume]
  {
    TestNameIsValid();
    EngineVerdicts();
    run := RunDelete(map[TestQosVolumeName := TestQosVolume], TestQosVolumeName, false, Declines);
  }

  method DeleteSucceeds() returns (run: QosRun<()>)
    ensures run.out == Success(())
    ensures run.stored == map[]
    ensures run.sent == [BdevQosParams("volume-42", 0, 0, 0, 0)]
  {
    TestNameIsValid();
    EngineVerdicts();
    run := RunDelete(map[TestQosVolumeName := TestQosVolume], TestQosVolumeName, false, Accepts);
    assert map[TestQosVolumeName := TestQosVolume] - {TestQosVolumeName} == map[];
  }

  // ---------------------------------------------------------------------
  // Update
  // ---------------------------------------------------------------------

  /** The volume the update cases start from. */
  const OriginalQosVolume: QosVolume := QosVolume(TestQosVolumeName, "volume-42", MaxOnly(RdBandwidth(1221)))

  method RunUpdate(stored: map<string, QosVolume>, req: Option<QosVolume>, ex: JsonRpc.Exchange) returns (run: QosRun<QosVolume>)
    ensures run.out == Update(stored, req, ex)
    ensures run.stored == if UpdateCalls(stored, req) && run.out.Success? then stored[req.value.name := req.value] else stored
    ensures run.sent == if UpdateCalls(stored, req) then [ToBdevQosParams(req.value)] else []
  {
    var s := new QosServer();
    s.qosVolumes := stored;
    var r := s.UpdateQosVolume(req, ex);
    run := QosRun(r, s.qosVolumes, s.sent);
  }

  method UpdateSucceeds() returns (run: QosRun<QosVolume>)
    ensures run.out == Success(QosVolume(TestQosVolumeName, "volume-42", MaxOnly(RdBandwidth(2))))
    ensures run.stored == map[TestQosVolumeName := QosVolume(TestQosVolumeName, "volume-42", MaxOnly(RdBandwidth(2)))]
    ensures run.sent == [BdevQosParams("volume-42", 0, 2, 0, 0)]
  {
    TestNameIsValid();
    EngineVerdicts();
    run := RunUpdate(map[TestQosVolumeName := OriginalQosVolume], Some(QosVolume(TestQosVolumeName, "volume-42", MaxOnly(RdBandwidth(2)))), Accepts);
  }

  method UpdateWithSameLimits() returns (run: QosRun<QosVolume>)
    ensures run.out == Success(OriginalQosVolume)
    ensures run.stored == map[TestQosVolumeName := OriginalQosVolume]
  {
    TestNameIsValid();
    EngineVerdicts();
    run := RunUpdate(map[TestQosVolumeName := OriginalQosVolume], Some(OriginalQosVolume), Accepts);
  }

  method UpdateWithoutName() returns (run: QosRun<QosVolume>)
    ensures run.out == Failure(Status.Status(Status.InvalidArgument, "QoS volume name cannot be empty"))
    ensures run.stored == map[TestQosVolumeName := OriginalQosVolume] && run.sent == []
  {
    run := RunUpdate(map[TestQosVolumeName := OriginalQosVolume], Some(QosVolume("", "volume-42", MaxOnly(RwBandwidth(1)))), Silent);
  }

  method UpdateWithoutVolumeRef() returns (run: QosRun<QosVolume>)
    ensures run.out == Failure(Status.Status(Status.Unknown, "missing required field: qos_volume.volume_name_ref"))
    ensures run.stored == map[TestQosVolumeName := OriginalQosVolume] && run.sent == []
  {
    MissingRefMessage();
    run := RunUpdate(map[TestQosVolumeName := OriginalQosVolume], Some(QosVolume(TestQosVolumeName, "", MaxOnly(RwBandwidth(1)))), Silent);
  }

  method UpdateWithMinLimit() returns (run: QosRun<QosVolume>)
    ensures run.out == Failure(Status.Status(Status.InvalidArgument, "QoS volume min_limit is not supported"))
    ensures run.stored == map[TestQosVolumeName := OriginalQosVolume] && run.sent == []
  {
    TestNameIsValid();
    ValidatorCases();
    run := RunUpdate(map[TestQosVolumeName := OriginalQosVolume],
                     Some(QosVolume(TestQosVolumeName, "volume-42", Limits(Some(QosLimit(100000, 0, 0, 0, 0, 0)), None))), Silent);
  }

  method UpdateUnknown() returns (run: QosRun<QosVolume>)
    ensures run.out == Failure(Status.KeyNotFound(TestQosVolumeName))
    ensures run.stored == map[] && run.sent == []
  {
    TestNameIsValid();
    run := RunUpdate(map[], Some(TestQosVolume.(name := TestQosVolumeName)), Silent);
  }

  /** Moving a QoS volume onto another underlying volume is refused and the stored volume is kept. */
  method UpdateChangesUnderlyingVolume() returns (run: QosRun<QosVolume>)
    ensures run.out == Failure(Status.Status(Status.InvalidArgument,
                                             "Change of underlying volume " + "volume-42" + " to a new one "
                                             + "new-underlying-volume-id" + " is forbidden"))
    ensures run.stored == map[TestQosVolumeName := OriginalQosVolume] && run.sent == []
  {
    TestNameIsValid();
    run := RunUpdate(map[TestQosVolumeName := OriginalQosVolume],
                     Some(QosVolume(TestQosVolumeName, "new-underlying-volume-id", MaxOnly(RdBandwidth(1)))), Silent);
  }

  method UpdateEngineFails() returns (run: QosRun<QosVolume>)
    ensures run.out == Failure(Status.FailedSpdkCall)
    ensures run.stored == map[TestQosVolumeName := OriginalQosVolume]
  {
    TestNameIsValid();
    EngineVerdicts();
    run := RunUpdate(map[TestQosVolumeName := OriginalQosVolume], Some(TestQosVolume.(name := TestQosVolumeName)), InternalError);
  }

  method UpdateEngineDeclines() returns (run: QosRun<QosVolume>)
    ensures run.out == Failure(Status.UnexpectedSpdkCallResult)
    ensures run.stored == map[TestQosVolumeName := OriginalQosVolume]
  {
    TestNameIsValid();
    EngineVerdicts();
    run := RunUpdate(map[TestQosVolumeName := OriginalQosVolume], Some(TestQosVolume.(name := TestQosVolumeName)), Declines);
  }

  method UpdateMalformedName() returns (run: QosRun<QosVolume>)
    ensures run.out == Failure(Status.Status(Status.InvalidArgument, "segment '" + "-ABC-DEF" + "': not a valid DNS name"))
    ensures run.stored == map[] && run.sent == []
  {
    MalformedNameMessage();
    run := RunUpdate(map[], Some(QosVolume("-ABC-DEF", "TBD", MaxOnly(RwBandwidth(1)))), Silent);
  }

  // ---------------------------------------------------------------------
  // List
  // ---------------------------------------------------------------------

  const QosVolume41: QosVolume := QosVolume("qos-volume-41", "volume-41", MaxOnly(RwBandwidth(1)))
  const QosVolume45: QosVolume := QosVolume("qos-volume-45", "volume-45", MaxOnly(RwBandwidth(5)))
  const TwoVolumes: map<string, QosVolume> := map["qos-volume-41" := QosVolume41, "qos-volume-45" := QosVolume45]
  const NoVolumes: map<string, QosVolume> := map[]
  const ExistingToken: string := "existing-pagination-token"

  lemma TestNamesInOrder()
    ensures Listing.Below("qos-volume-41", "qos-volume-45")
  {
    var i := 12;
    assert "qos-volume-41"[..i] == "qos-volume-45"[..i];
    assert Listing.Below("qos-volume-41"[i..], "qos-volume-45"[i..]);
    BelowCommonPrefix("qos-volume-41", "qos-volume-45", i);
  }

  /** With the two test volumes, a listing sees them in name order. */
  lemma TwoVolumesInOrder(keys: seq<string>)
    requires Listing.IsKeyOrder(keys, TwoVolumes)
    ensures Listing.ValuesOf(TwoVolumes, keys) == [QosVolume41, QosVolume45]
  {
    TwoVolumesKeys(keys);
    TwoVolumesValues();
  }

  /** The only sorted sequence of the two test names. */
  lemma TwoVolumesKeys(keys: seq<string>)
    requires Listing.IsKeyOrder(keys, TwoVolumes)
    ensures keys == ["qos-volume-41", "qos-volume-45"]
  {
    TestNamesSorted();
    TestNamesAreKeys();
    Listing.SortedUnique(keys, ["qos-volume-41", "qos-volume-45"]);
  }

  lemma TestNamesSorted()
    ensures Listing.Sorted(["qos-volume-41", "qos-volume-45"])
  {
    TestNamesInOrder();
  }

  lemma TestNamesAreKeys()
    ensures forall x :: x in ["qos-volume-41", "qos-volume-45"] <==> x in TwoVolumes
  {
  }

  lemma TwoVolumesValues()
    ensures Listing.ValuesOf(TwoVolumes, ["qos-volume-41", "qos-volume-45"]) == [QosVolume41, QosVolume45]
  {
    assert "qos-volume-41"[12] != "qos-volume-45"[12];
    var vs := Listing.ValuesOf(TwoVolumes, ["qos-volume-41", "qos-volume-45"]);
    assert vs[0] == TwoVolumes["qos-volume-41"] == QosVolume41;
    assert vs[1] == TwoVolumes["qos-volume-45"] == QosVolume45;
  }

  /** With no volumes, a listing sees none. */
  lemma NoVolumesInOrder(keys: seq<string>)
    requires Listing.IsKeyOrder(keys, NoVolumes)
    ensures Listing.ValuesOf(NoVolumes, keys) == []
  {
    assert forall i :: 0 <= i < |keys| ==> keys[i] in NoVolumes;
  }

  lemma {:induction false} BelowCommonPrefix(a: string, b: string, i: nat)
    requires i <= |a| && i <= |b| && a[..i] == b[..i] && Listing.Below(a[i..], b[i..])
    ensures Listing.Below(a, b)
    decreases i
  {
    if i > 0 {
      assert a[0] == a[..i][0] == b[..i][0] == b[0];
      assert a[1..][..i - 1] == a[1..i] == b[1..i] == b[1..][..i - 1];
      assert a[1..][i - 1..] == a[i..] && b[1..][i - 1..] == b[i..];
      BelowCommonPrefix(a[1..], b[1..], i - 1);
    }
  }

  method RunList(stored: map<string, QosVolume>, parent: string, pageSize: int, pageToken: string)
    returns (r: Result<QosVolumesPage, Status.Error>, tokens: map<string, nat>)
    ensures exists keys :: Listing.IsKeyOrder(keys, stored) &&
              var (o, after) := Listing.List(Listing.ValuesOf(stored, keys), parent, pageSize, pageToken,
                                             map[ExistingToken := 1], "next-token");
              tokens == after && r == PageOf(o)
  {
    var s := new QosServer();
    s.qosVolumes := stored;
    s.pagination := map[ExistingToken := 1];
    r := s.ListQosVolumes(parent, pageSize, pageToken, "next-token");
    tokens := s.pagination;
  }

  method ListNothing() returns (r: Result<QosVolumesPage, Status.Error>)
    ensures r == Success(QosVolumesPage([], ""))
  {
    var tokens;
    r, tokens := RunList(NoVolumes, "todo", 0, "");
    ghost var keys :| Listing.IsKeyOrder(keys, NoVolumes) &&
                var (o, after) := Listing.List(Listing.ValuesOf(NoVolumes, keys), "todo", 0, "", map[ExistingToken := 1], "next-token");
                tokens == after && r == PageOf(o);
    NoVolumesInOrder(keys);
  }

  method ListAll() returns (r: Result<QosVolumesPage, Status.Error>)
    ensures r == Success(QosVolumesPage([QosVolume41, QosVolume45], ""))
  {
    var tokens;
    r, tokens := RunList(TwoVolumes, "todo", 0, "");
    ghost var keys :| Listing.IsKeyOrder(keys, TwoVolumes) &&
                var (o, after) := Listing.List(Listing.ValuesOf(TwoVolumes, keys), "todo", 0, "", map[ExistingToken := 1], "next-token");
                tokens == after && r == PageOf(o);
    TwoVolumesInOrder(keys);
  }

  /** A page of one gives the first volume and a token for the rest. */
  method ListFirstPage() returns (r: Result<QosVolumesPage, Status.Error>, tokens: map<string, nat>)
    ensures r == Success(QosVolumesPage([QosVolume41], "next-token"))
    ensures tokens == map[ExistingToken := 1, "next-token" := 1]
  {
    r, tokens := RunList(TwoVolumes, "todo", 1, "");
    ghost var keys :| Listing.IsKeyOrder(keys, TwoVolumes) &&
                var (o, after) := Listing.List(Listing.ValuesOf(TwoVolumes, keys), "todo", 1, "", map[ExistingToken := 1], "next-token");
                tokens == after && r == PageOf(o);
    TwoVolumesInOrder(keys);
  }

  /** A token resumes at its offset: the page after the first volume is the second, and the last. */
  method ListFromToken() returns (r: Result<QosVolumesPage, Status.Error>)
    ensures r == Success(QosVolumesPage([QosVolume45], ""))
  {
    var tokens;
    r, tokens := RunList(TwoVolumes, "todo", 1, ExistingToken);
    ghost var keys :| Listing.IsKeyOrder(keys, TwoVolumes) &&
                var (o, after) := Listing.List(Listing.ValuesOf(TwoVolumes, keys), "todo", 1, ExistingToken, map[ExistingToken := 1], "next-token");
                tokens == after && r == PageOf(o);
    TwoVolumesInOrder(keys);
  }

  method ListNegativePageSize() returns (r: Result<QosVolumesPage, Status.Error>)
    ensures r == Failure(Status.Status(Status.InvalidArgument, "negative PageSize is not allowed"))
  {
    var tokens;
    r, tokens := RunList(TwoVolumes, "todo", -10, "");
  }

  method ListUnknownToken() returns (r: Result<QosVolumesPage, Status.Error>)
    ensures r == Failure(Status.Status(Status.NotFound, "unable to find pagination token " + "unknown-pagination-token"))
  {
    var tokens;
    r, tokens := RunList(TwoVolumes, "todo", 0, "unknown-pagination-token");
  }

  method ListWithoutParent() returns (r: Result<QosVolumesPage, Status.Error>)
    ensures r == Failure(Status.Status(Status.Unknown, "missing required field: parent"))
  {
    MissingFieldMessages();
    var tokens;
    r, tokens := RunList(map[], "", 0, "");
  }

  // ---------------------------------------------------------------------
  // Get and stats
  // ---------------------------------------------------------------------

  /** Get answers with the stored volume as it is. */
  lemma GetCases()
    ensures Get(map[TestQosVolumeName := TestQosVolume], TestQosVolumeName) == Success(TestQosVolume)
    ensures Get(map[TestQosVolumeName := TestQosVolume], ResourceNames.ResourceIdToVolumeName("unknown-qos-volume-id"))
            == Failure(Status.KeyNotFound(ResourceNames.ResourceIdToVolumeName("unknown-qos-volume-id")))
    ensures Get(map[TestQosVolumeName := TestQosVolume], "") == Failure(Status.Status(Status.Unknown, "missing required field: name"))
  {
    TestNameIsValid();
    UnknownNameIsValid();
    MissingFieldMessages();
    ResourceNames.ResourceIdToVolumeNameInjective(TestQosVolumeId, "unknown-qos-volume-id");
  }

  function Iostat(bdevs: seq<JsonRpc.BdevIostat>): JsonRpc.Exchange {
    JsonRpc.Exchange(1, JsonRpc.Respond(1, JsonRpc.IostatResult(bdevs)))
  }

  /** Stats reads the counters of the one entry the engine reports for the underlying volume. */
  lemma StatsCases()
    ensures Stats(map[TestQosVolumeName := TestQosVolume], TestQosVolumeName,
                  Iostat([JsonRpc.BdevIostat("volume-42", 36864, 0, 0, 0, 0, 0)])) == Success(JsonRpc.VolumeStats(36864, 0, 0, 0, 0, 0))
    ensures Stats(map[TestQosVolumeName := TestQosVolume], TestQosVolumeName, Iostat([])) == Failure(Status.UnexpectedSpdkCallResult)
    ensures Stats(map[TestQosVolumeName := TestQosVolume], TestQosVolumeName,
                  JsonRpc.Exchange(1, JsonRpc.RespondError(1, 1, "some internal error"))) == Failure(Status.FailedSpdkCall)
    ensures Stats(map[TestQosVolumeName := TestQosVolume], "unknown-qos-volume-id", Silent)
            == Failure(Status.KeyNotFound("unknown-qos-volume-id"))
    ensures Stats(map[TestQosVolumeName := TestQosVolume], "", Silent) == Failure(Status.Status(Status.Unknown, "missing required field: name"))
    ensures Stats(map[TestQosVolumeName := TestQosVolume], "-ABC-DEF", Silent)
            == Failure(Status.Status(Status.Unknown, "segment '" + "-ABC-DEF" + "': not a valid DNS name"))
  {
    TestNameIsValid();
    UnknownIdIsValid();
    MalformedNameMessage();
    MissingFieldMessages();
    JsonRpc.ReceiveRespond(1, JsonRpc.IostatResult([JsonRpc.BdevIostat("volume-42", 36864, 0, 0, 0, 0, 0)]), JsonRpc.IostatShape);
    JsonRpc.ReceiveRespond(1, JsonRpc.IostatResult([]), JsonRpc.IostatShape);
    assert TestQosVolumeName != "unknown-qos-volume-id" by {
      assert TestQosVolumeName[0] != "unknown-qos-volume-id"[0];
    }
  }
}
