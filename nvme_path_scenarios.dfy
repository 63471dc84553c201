/**
 * The NVMe path cases of the back-end tests. Create and delete run against
 * a fresh server whose store is filled as the case needs; the answer, the
 * store afterwards and the engine methods called are returned. Update, get
 * and stats change nothing, so their cases are stated about the functions.
 */
module NvmePathScenarios {
  import opened Wrappers
  import Status
  import ResourceNames
  import Listing
  import JsonRpc
  import opened NvmePaths

  const TestNvmePathId: string := "mytest"
  const TestNvmePathName: string := ResourceNames.ResourceIdToVolumeName(TestNvmePathId)

  /**
   * The controller the test path refers to. Its name is defined with the
   * controller tests, which are not part of this model; any name will do,
   * since the path's controller reference is only carried along.
   */
  const TestNvmeCtrlName: string := "nvme-controller"

  /** The test path: TCP over IPv4 to 127.0.0.1:4444, with no name of its own. */
  const TestNvmePath: NvmePath := NvmePath(
    "", Tcp, Ipv4, "127.0.0.1", 4444,
    "nqn.2016-06.io.spdk:cnode1",
    "nqn.2014-08.org.nvmexpress:uuid:feb98abe-d51f-40c8-b348-2753f3571d3c",
    TestNvmeCtrlName)

  const NoPaths: map<string, NvmePath> := map[]

  /** What one create or delete case leaves behind. */
  datatype NvmeRun<T> = NvmeRun(out: Result<T, Status.Error>, stored: map<string, NvmePath>, calls: seq<string>)

  // ---------------------------------------------------------------------
  // Engine replies (the client numbers its first request 1)
  // ---------------------------------------------------------------------

  /** A case that never reaches the engine has no reply scripted. */
  const Silent: JsonRpc.Exchange := JsonRpc.Exchange(1, JsonRpc.EmptyReply)

  function Reply(r: JsonRpc.Reply): JsonRpc.Exchange {
    JsonRpc.Exchange(1, r)
  }

  function ErrorReply(result: JsonRpc.ResultValue): JsonRpc.Exchange {
    Reply(JsonRpc.Response(1, 1, "myopierr", result))
  }

  /** A reply to some other request: the engine answers with id 0. */
  function MismatchReply(result: JsonRpc.ResultValue): JsonRpc.Exchange {
    Reply(JsonRpc.Respond(0, result))
  }

  // ---------------------------------------------------------------------
  // Names and messages
  // ---------------------------------------------------------------------

  lemma TestIdIsValid()
    ensures ResourceNames.ValidateUserSettable(TestNvmePathId) == None
  {
    assert forall i :: 0 <= i < |TestNvmePathId| ==> ResourceNames.IsIdChar(TestNvmePathId[i]);
  }

  lemma TestNameIsValid()
    ensures ResourceNames.ValidateName(TestNvmePathName) == None
  {
    assert ResourceNames.IsSimpleLabel(TestNvmePathId);
    ResourceNames.VolumeNameIsValid(TestNvmePathId);
  }

  lemma TestIdIsValidName()
    ensures ResourceNames.ValidateName(TestNvmePathId) == None
  {
    assert ResourceNames.IsSimpleLabel(TestNvmePathId);
    ResourceNames.SimpleNameIsValid(TestNvmePathId);
  }

  lemma UnknownIdIsValidName()
    ensures ResourceNames.ValidateName("unknown-id") == None
  {
    assert ResourceNames.IsSimpleLabel("unknown-id");
    ResourceNames.SimpleNameIsValid("unknown-id");
  }

  lemma UnknownNameIsValid()
    ensures ResourceNames.ValidateName(ResourceNames.ResourceIdToVolumeName("unknown-id")) == None
  {
    assert ResourceNames.IsSimpleLabel("unknown-id");
    ResourceNames.VolumeNameIsValid("unknown-id");
  }

  /** The first offending character of an ID is named with its position. */
  lemma CapitalIdMessage()
    ensures ResourceNames.ValidateUserSettable("CapitalLettersNotAllowed")
            == Some("user-settable ID must only contain lowercase, numbers and hyphens (got: '" + "C" + "' in position " + "0" + ")")
  {
    var id := "CapitalLettersNotAllowed";
    assert !ResourceNames.IsIdChar(id[0]);
    assert Status.DecimalString(0) == "0";
  }

  /** The text of the engine's error reply, spelled out. */
  lemma ErrorCodeText()
    ensures JsonRpc.ErrorText(JsonRpc.ResponseError("myopierr")) == "json response error: myopierr"
  {
  }

  lemma MissingFieldMessages()
    ensures Status.MissingField("nvme_path") == Status.Status(Status.Unknown, "missing required field: nvme_path")
    ensures Status.MissingField("name") == Status.Status(Status.Unknown, "missing required field: name")
    ensures Status.MissingField("parent") == Status.Status(Status.Unknown, "missing required field: parent")
  {
  }

  // ---------------------------------------------------------------------
  // Create
  // ---------------------------------------------------------------------

  method RunCreate(stored: map<string, NvmePath>, req: Option<NvmePath>, nvmePathId: string, ex: JsonRpc.Exchange)
    returns (run: NvmeRun<NvmePath>)
    ensures run.out == Create(stored, req, nvmePathId, "generated-id", ex)
    ensures run.stored == CreateStore(stored, req, nvmePathId, "generated-id", ex)
    ensures run.calls == if CreateCalls(stored, req, nvmePathId, "generated-id") then [AttachController] else []
  {
    var s := new NvmePathServer();
    s.nvmePaths := stored;
    var r := s.CreateNvmePath(req, nvmePathId, "generated-id", ex);
    run := NvmeRun(r, s.nvmePaths, s.calls);
  }

  /** An ID with a capital letter is rejected before the engine is asked. */
  method CreateIllegalId() returns (run: NvmeRun<NvmePath>)
    ensures run.out == Failure(Status.Status(Status.Unknown,
              "user-settable ID must only contain lowercase, numbers and hyphens (got: '" + "C" + "' in position " + "0" + ")"))
    ensures run.stored == NoPaths && run.calls == []
  {
    CapitalIdMessage();
    run := RunCreate(NoPaths, Some(TestNvmePath), "CapitalLettersNotAllowed", Silent);
  }

  /** A result of the wrong type is a decoding failure of the attach call. */
  method CreateUndecodable() returns (run: NvmeRun<NvmePath>)
    ensures run.out == Failure(Status.DecodeFailed("bdev_nvme_attach_controller"))
    ensures run.stored == NoPaths && run.calls == ["bdev_nvme_attach_controller"]
  {
    TestIdIsValid();
    run := RunCreate(NoPaths, Some(TestNvmePath), TestNvmePathId, Reply(JsonRpc.Respond(1, JsonRpc.BoolResult(false))));
  }

  method CreateEmptyReply() returns (run: NvmeRun<NvmePath>)
    ensures run.out == Failure(Status.Status(Status.Unknown, "bdev_nvme_attach_controller" + ": " + "EOF"))
    ensures run.stored == NoPaths && run.calls == ["bdev_nvme_attach_controller"]
  {
    TestIdIsValid();
    run := RunCreate(NoPaths, Some(TestNvmePath), TestNvmePathId, Reply(JsonRpc.EmptyReply));
  }

  method CreateIdMismatch() returns (run: NvmeRun<NvmePath>)
    ensures run.out == Failure(Status.Status(Status.Unknown, "bdev_nvme_attach_controller" + ": " + "json response ID mismatch"))
    ensures run.stored == NoPaths && run.calls == ["bdev_nvme_attach_controller"]
  {
    TestIdIsValid();
    run := RunCreate(NoPaths, Some(TestNvmePath), TestNvmePathId, MismatchReply(JsonRpc.ListResult([""])));
  }

  method CreateErrorCode() returns (run: NvmeRun<NvmePath>)
    ensures run.out == Failure(Status.Status(Status.Unknown, "bdev_nvme_attach_controller" + ": " + "json response error: myopierr"))
    ensures run.stored == NoPaths && run.calls == ["bdev_nvme_attach_controller"]
  {
    TestIdIsValid();
    ErrorCodeText();
    run := RunCreate(NoPaths, Some(TestNvmePath), TestNvmePathId, ErrorReply(JsonRpc.ListResult([""])));
  }

  /** A new path is stored and returned under the name derived from the client's ID. */
  method CreateSucceeds() returns (run: NvmeRun<NvmePath>)
    ensures run.out == Success(TestNvmePath.(name := TestNvmePathName))
    ensures run.stored == map[TestNvmePathName := TestNvmePath.(name := TestNvmePathName)]
    ensures run.calls == ["bdev_nvme_attach_controller"]
  {
    TestIdIsValid();
    run := RunCreate(NoPaths, Some(TestNvmePath), TestNvmePathId, Reply(JsonRpc.Respond(1, JsonRpc.ListResult(["mytest"]))));
  }

  /** Creating a path that exists gives back the stored one without asking the engine. */
  method CreateExisting() returns (run: NvmeRun<NvmePath>)
    ensures run.out == Success(TestNvmePath.(name := TestNvmePathName))
    ensures run.stored == map[TestNvmePathName := TestNvmePath.(name := TestNvmePathName)]
    ensures run.calls == []
  {
    TestIdIsValid();
    run := RunCreate(map[TestNvmePathName := TestNvmePath.(name := TestNvmePathName)], Some(TestNvmePath), TestNvmePathId, Silent);
  }

  /** A request without a path is rejected, whatever ID comes with it. */
  method CreateWithoutBody(nvmePathId: string) returns (run: NvmeRun<NvmePath>)
    ensures run.out == Failure(Status.Status(Status.Unknown, "missing required field: nvme_path"))
    ensures run.stored == NoPaths && run.calls == []
  {
    MissingFieldMessages();
    run := RunCreate(NoPaths, None, nvmePathId, Silent);
  }

  // ---------------------------------------------------------------------
  // Delete
  // ---------------------------------------------------------------------

  /** Every delete case starts from a store holding the test path. */
  const Held: map<string, NvmePath> := map[TestNvmePathName := TestNvmePath]

  method RunDelete(name: string, allowMissing: bool, ex: JsonRpc.Exchange) returns (run: NvmeRun<()>)
    ensures run.out == Delete(Held, name, allowMissing, ex)
    ensures run.stored == if DeleteCalls(Held, name) && run.out.Success? then Held - {name} else Held
    ensures run.calls == if DeleteCalls(Held, name) then [DetachController] else []
  {
    var s := new NvmePathServer();
    s.nvmePaths := Held;
    var r := s.DeleteNvmePath(name, allowMissing, ex);
    run := NvmeRun(r, s.nvmePaths, s.calls);
  }

  /** An engine that answers `false` refused: the error names the path's ID and the path stays. */
  method DeleteRefused() returns (run: NvmeRun<()>)
    ensures run.out == Failure(Status.Status(Status.InvalidArgument, "Could not delete Nvme Path: " + "mytest"))
    ensures run.stored == Held && run.calls == ["bdev_nvme_detach_controller"]
  {
    TestNameIsValid();
    CouldNotDeleteNamesId(TestNvmePathId);
    run := RunDelete(TestNvmePathName, false, Reply(JsonRpc.Respond(1, JsonRpc.BoolResult(false))));
  }

  method DeleteUndecodable() returns (run: NvmeRun<()>)
    ensures run.out == Failure(Status.DecodeFailed("bdev_nvme_detach_controller"))
    ensures run.stored == Held && run.calls == ["bdev_nvme_detach_controller"]
  {
    TestNameIsValid();
    run := RunDelete(TestNvmePathName, false, Reply(JsonRpc.Respond(1, JsonRpc.ListResult([]))));
  }

  method DeleteEmptyReply() returns (run: NvmeRun<()>)
    ensures run.out == Failure(Status.Status(Status.Unknown, "bdev_nvme_detach_controller" + ": " + "EOF"))
    ensures run.stored == Held && run.calls == ["bdev_nvme_detach_controller"]
  {
    TestNameIsValid();
    run := RunDelete(TestNvmePathName, false, Reply(JsonRpc.EmptyReply));
  }

  method DeleteIdMismatch() returns (run: NvmeRun<()>)
    ensures run.out == Failure(Status.Status(Status.Unknown, "bdev_nvme_detach_controller" + ": " + "json response ID mismatch"))
    ensures run.stored == Held && run.calls == ["bdev_nvme_detach_controller"]
  {
    TestNameIsValid();
    run := RunDelete(TestNvmePathName, false, MismatchReply(JsonRpc.BoolResult(false)));
  }

  method DeleteErrorCode() returns (run: NvmeRun<()>)
    ensures run.out == Failure(Status.Status(Status.Unknown, "bdev_nvme_detach_controller" + ": " + "json response error: myopierr"))
    ensures run.stored == Held && run.calls == ["bdev_nvme_detach_controller"]
  {
    TestNameIsValid();
    ErrorCodeText();
    run := RunDelete(TestNvmePathName, false, ErrorReply(JsonRpc.BoolResult(false)));
  }

  /** An engine that answers `true` detached the controller, and the path is forgotten. */
  method DeleteSucceeds() returns (run: NvmeRun<()>)
    ensures run.out == Success(())
    ensures run.stored == NoPaths && run.calls == ["bdev_nvme_detach_controller"]
  {
    TestNameIsValid();
    run := RunDelete(TestNvmePathName, false, Reply(JsonRpc.Respond(1, JsonRpc.BoolResult(true))));
  }

  method DeleteUnknown() returns (run: NvmeRun<()>)
    ensures run.out == Failure(Status.Status(Status.NotFound, "unable to find key " + ResourceNames.ResourceIdToVolumeName("unknown-id")))
    ensures run.stored == Held && run.calls == []
  {
    UnknownNameIsValid();
    ResourceNames.ResourceIdToVolumeNameInjective("unknown-id", TestNvmePathId);
    run := RunDelete(ResourceNames.ResourceIdToVolumeName("unknown-id"), false, Silent);
  }

  /** With `allow_missing`, deleting an unknown key succeeds without asking the engine. */
  method DeleteUnknownAllowed() returns (run: NvmeRun<()>)
    ensures run.out == Success(())
    ensures run.stored == Held && run.calls == []
  {
    UnknownNameIsValid();
    ResourceNames.ResourceIdToVolumeNameInjective("unknown-id", TestNvmePathId);
    run := RunDelete(ResourceNames.ResourceIdToVolumeName("unknown-id"), true, Silent);
  }

  method DeleteMalformedName() returns (run: NvmeRun<()>)
    ensures run.out == Failure(Status.Status(Status.Unknown, "segment '" + "-ABC-DEF" + "': not a valid DNS name"))
    ensures run.stored == Held && run.calls == []
  {
    ResourceNames.HyphenSegmentRejected("-ABC-DEF");
    run := RunDelete(ResourceNames.ResourceIdToVolumeName("-ABC-DEF"), false, Silent);
  }

  method DeleteWithoutName() returns (run: NvmeRun<()>)
    ensures run.out == Failure(Status.Status(Status.Unknown, "missing required field: name"))
    ensures run.stored == Held && run.calls == []
  {
    MissingFieldMessages();
    run := RunDelete("", false, Silent);
  }

  // ---------------------------------------------------------------------
  // Update
  // ---------------------------------------------------------------------

  /** The update cases start from a store holding the test path under its name. */
  const HeldNamed: map<string, NvmePath> := map[TestNvmePathName := TestNvmePath.(name := TestNvmePathName)]

  /** The path of the unknown-key cases. */
  const UnknownPath: NvmePath := NvmePath(ResourceNames.ResourceIdToVolumeName("unknown-id"), Tcp, Ipv4, "127.0.0.1", 4444, "", "", "TBD")

  lemma UpdateInvalidMask()
    ensures UpdateCheck(HeldNamed, Some(TestNvmePath.(name := TestNvmePathName)), ["*", "author"], false)
            == Some(Status.Status(Status.Unknown, "invalid field path: " + "'*' must not be used with other paths"))
  {
    TestNameIsValid();
    assert ["*", "author"][0] == ResourceNames.AllFields;
  }

  /** A path that names no field of the message is reported by name; the wildcard alone selects everything. */
  lemma UpdateUnknownFieldPath()
    ensures UpdateCheck(HeldNamed, Some(TestNvmePath.(name := TestNvmePathName)), ["author"], false)
            == Some(Status.Status(Status.Unknown, "invalid field path: " + "author"))
    ensures UpdateCheck(HeldNamed, Some(TestNvmePath.(name := TestNvmePathName)), ["*"], false) == None
    ensures UpdateCheck(HeldNamed, Some(TestNvmePath.(name := TestNvmePathName)), ["traddr", "trsvcid"], false) == None
  {
    TestNameIsValid();
    assert ResourceNames.AllFields !in ["author"] && "author" !in NvmePathFields;
    assert ResourceNames.AllFields !in ["traddr", "trsvcid"];
  }

  /** An unknown key is not found, with or without `allow_missing`. */
  lemma UpdateUnknown()
    ensures UpdateCheck(HeldNamed, Some(UnknownPath), [], false)
            == Some(Status.Status(Status.NotFound, "unable to find key " + ResourceNames.ResourceIdToVolumeName("unknown-id")))
    ensures UpdateCheck(HeldNamed, Some(UnknownPath), [], true)
            == Some(Status.Status(Status.NotFound, "unable to find key " + ResourceNames.ResourceIdToVolumeName("unknown-id")))
  {
    UnknownNameIsValid();
    ResourceNames.ResourceIdToVolumeNameInjective("unknown-id", TestNvmePathId);
  }

  lemma UpdateMalformedName()
    ensures UpdateCheck(HeldNamed, Some(NvmePath("-ABC-DEF", Tcp, AdrfamUnspecified, "127.0.0.1", 0, "", "", "TBD")), [], false)
            == Some(Status.Status(Status.Unknown, "segment '" + "-ABC-DEF" + "': not a valid DNS name"))
  {
    ResourceNames.HyphenNameRejected("-ABC-DEF");
  }

  // ---------------------------------------------------------------------
  // List
  // ---------------------------------------------------------------------

  /** Listing without a parent is rejected and hands out no token. */
  method ListWithoutParent() returns (r: Result<NvmePathsPage, Status.Error>, tokens: map<string, nat>)
    ensures r == Failure(Status.Status(Status.Unknown, "missing required field: parent"))
    ensures tokens == map["existing-pagination-token" := 1]
  {
    MissingFieldMessages();
    var s := new NvmePathServer();
    s.pagination := map["existing-pagination-token" := 1];
    r := s.ListNvmePaths("", 0, "", "next-token");
    tokens := s.pagination;
  }

  // ---------------------------------------------------------------------
  // Get and stats
  // ---------------------------------------------------------------------

  /** The get cases look the path up under its bare ID. */
  const HeldById: map<string, NvmePath> := map[TestNvmePathId := TestNvmePath]

  lemma GetEngineFailures()
    ensures Get(HeldById, TestNvmePathId, Reply(JsonRpc.Respond(1, JsonRpc.BoolResult(false))))
            == Failure(Status.DecodeFailed("bdev_nvme_get_controllers"))
    ensures Get(HeldById, TestNvmePathId, Reply(JsonRpc.EmptyReply))
            == Failure(Status.Status(Status.Unknown, "bdev_nvme_get_controllers" + ": " + "EOF"))
    ensures Get(HeldById, TestNvmePathId, MismatchReply(JsonRpc.ListResult([])))
            == Failure(Status.Status(Status.Unknown, "bdev_nvme_get_controllers" + ": " + "json response ID mismatch"))
    ensures Get(HeldById, TestNvmePathId, ErrorReply(JsonRpc.NoResult))
            == Failure(Status.Status(Status.Unknown, "bdev_nvme_get_controllers" + ": " + "json response error: myopierr"))
  {
    TestIdIsValidName();
    ErrorCodeText();
  }

  /** The engine must report exactly one controller. */
  lemma GetControllerCount()
    ensures Get(HeldById, TestNvmePathId, Reply(JsonRpc.Respond(1, JsonRpc.ListResult([]))))
            == Failure(Status.Status(Status.InvalidArgument, "expecting exactly 1 result, got " + "0"))
    ensures Get(HeldById, TestNvmePathId, Reply(JsonRpc.Respond(1, JsonRpc.ListResult(["mytest"]))))
            == Success(TestNvmePath)
  {
    TestIdIsValidName();
    assert Status.DecimalString(0) == "0";
  }

  lemma GetUnknownKey()
    ensures Get(HeldById, "unknown-id", Silent) == Failure(Status.Status(Status.NotFound, "unable to find key " + "unknown-id"))
  {
    UnknownIdIsValidName();
  }

  lemma GetMalformedName()
    ensures Get(HeldById, "-ABC-DEF", Silent) == Failure(Status.Status(Status.Unknown, "segment '" + "-ABC-DEF" + "': not a valid DNS name"))
  {
    ResourceNames.HyphenNameRejected("-ABC-DEF");
  }

  lemma GetWithoutName()
    ensures Get(HeldById, "", Silent) == Failure(Status.Status(Status.Unknown, "missing required field: name"))
  {
    MissingFieldMessages();
  }

  /** The stats cases hold the test path under its bare ID, named after the full name. */
  const HeldForStats: map<string, NvmePath> := map[TestNvmePathId := TestNvmePath.(name := TestNvmePathName)]

  lemma StatsUnknownKey()
    ensures Stats(HeldForStats, "unknown-id", Silent) == Failure(Status.Status(Status.NotFound, "unable to find key " + "unknown-id"))
  {
    UnknownIdIsValidName();
  }

  lemma StatsMalformedName()
    ensures Stats(HeldForStats, "-ABC-DEF", Silent)
            == Failure(Status.Status(Status.Unknown, "segment '" + "-ABC-DEF" + "': not a valid DNS name"))
  {
    ResourceNames.HyphenNameRejected("-ABC-DEF");
  }

  /** The counters of the one entry are reported; no entry at all is an error. */
  lemma StatsOfOneEntry()
    ensures Stats(HeldForStats, TestNvmePathId,
                  Reply(JsonRpc.Respond(1, JsonRpc.IostatResult([JsonRpc.BdevIostat("mytest", 1, 2, 3, 4, 7, 8)]))))
            == Success(JsonRpc.VolumeStats(1, 2, 3, 4, 7, 8))
    ensures Stats(HeldForStats, TestNvmePathId, Reply(JsonRpc.Respond(1, JsonRpc.IostatResult([]))))
            == Failure(Status.Status(Status.InvalidArgument, "expecting exactly 1 result, got " + "0"))
  {
    TestIdIsValidName();
    assert Status.DecimalString(0) == "0";
  }
}
