# opi-spdk-bridge: a Dafny model of the behaviour its tests pin down

The opi-spdk-bridge serves the OPI storage API on top of an SPDK storage
engine (reached over JSON-RPC) and, for virtio devices, a QEMU monitor
(reached over QMP). This project models three parts of it as the
repository's table tests describe them:

- **virtio-blk attach and detach** (`Kvm`, `Qmp`, `KvmScenarios`):
  - Attach asks the engine for a vhost controller, then sends
    `chardev-add` and `device_add`. When `device_add` fails it rolls back
    with `chardev-remove`.
  - Detach always tries `device_del`, `chardev-remove` and the engine
    delete. It reports none, partial or full success.
  - The test's mock QMP server is a class. It holds the ordered expected
    calls and a call index. It serves the greeting and the capabilities
    handshake, then one expected call per request. It records the
    requests it received and the expected arguments a request lacked.
  - The attach and detach methods drive that server. Their results and
    traces are tied to pure functions (`Attach`, `Detach`,
    `DetachOutcome`).
- **QoS volumes** (`Qos`, `QosScenarios`):
  - the ordered limit validator;
  - the translation to `bdev_set_qos_limit` parameters (kiops × 1000);
  - create, delete, update, list, get and stats on the `qosVolumes` map,
    with the store and the engine-parameter log held by a server class.
- **NVMe paths** (`NvmePaths`, `NvmePathScenarios`):
  - create, delete, list, get and stats on the `NvmePaths` map, plus the
    request checks of update;
  - the classification of the engine's JSON-RPC replies.

Shared pieces:

- `Status`: the API's error values.
- `JsonRpc`: the engine's reply, the response object of section 5 of the
  JSON-RPC 2.0 specification, and how the client classifies it: end of
  stream, id mismatch, error code, result of the wrong shape.
- `ResourceNames`: resource names, the DNS-label rule for name segments,
  user-settable IDs and field masks.
- `Listing`: the key order of listings and the page-size and page-token
  pagination.

The storage engine and the monitor are oracles. Each engine call is a
given `Exchange` (request id plus reply), or for the kvm stub a fixed
success or failure. Each monitor answer is the reply and the optional
event the mock holds for that call. The `*Scenarios` modules replay the
table tests case by case on the model. State-changing operations are
exercised on a freshly allocated server, and each case's expected
outcome, store and engine log are proved.

The implementation packages (`pkg/kvm`, `pkg/middleend`, `pkg/backend`
and the `server` helpers) are not part of this model. Only their
behaviour as the tests assert it is modelled. Where the tests leave a
step open, the model takes the simplest reading consistent with every
case, and the lines below say which.

## Model

| member | source | states |
|---|---|---|
| Kvm.Call | pkg/kvm/kvm_test.go:51-73 | the stub passes on its configured error; it answers `true` exactly for the two controller methods when it has no error |
| Kvm.EngineStep | pkg/kvm/kvm_test.go:294-297 | an engine call succeeds iff there is no error and the result is `true`; an error becomes `ErrFailedSpdkCall` |
| Kvm.Attach | pkg/kvm/kvm_test.go:288-314 | attach succeeds iff the monitor is reachable and the engine, `chardev-add` and `device_add` all succeed, and then returns the input unchanged; otherwise each failure gives its own error with its exact command prefix (none when unreachable, only the handshake on engine failure, no `device_add` after a failed `chardev-add`, `chardev-remove` last after a failed `device_add`) |
| Kvm.AttachOrder | pkg/kvm/kvm_test.go:303-309 | in every attach trace the handshake comes first, `device_add` can only be third and right after `chardev-add` of the device's socket path, and `chardev-remove` is only ever the last command of a failed `device_add` |
| Kvm.DetachOutcome | pkg/kvm/kvm_test.go:374-408 | all three removals succeeded iff success; none succeeded iff `errDeviceNotDeleted`; one or two iff `errDevicePartiallyDeleted` |
| Kvm.Detach | pkg/kvm/kvm_test.go:374-413 | an unreachable monitor gives `errMonitorCreation` with no command; otherwise detach always sends handshake, `device_del`, `chardev-remove`, and aggregates the three outcomes, `device_del` counting only with its `DEVICE_DELETED` event |
| Kvm.MissingEventIsFailure | pkg/kvm/kvm_test.go:385-390 | a `device_del` reply without the event behaves exactly like an error reply |
| Kvm.PlugChardevFails | pkg/kvm/kvm_test.go:298-302 | on a failed `chardev-add` the mock receives only that command and advances its index by one |
| Kvm.PlugDeviceFails | pkg/kvm/kvm_test.go:303-309 | on a failed `device_add` the mock receives `chardev-add`, `device_add`, `chardev-remove` for the same id and serves three expected calls |
| Kvm.PlugSucceeds | pkg/kvm/kvm_test.go:288-293 | on success the mock receives `chardev-add` (id, joined socket path) then `device_add` (`vhost-user-blk-pci`, id, chardev id) |
| Kvm.PlugDevice | pkg/kvm/kvm_test.go:288-309 | the plug-in steps performed against the mock server: result, received requests, call index and argument misses equal those of the pure attempt |
| Kvm.CreateStopsEarly | pkg/kvm/kvm_test.go:294-297 | an unreachable monitor or a failed engine call ends attach before any expected call is served |
| Kvm.CreateIsPlug | pkg/kvm/kvm_test.go:288-293 | with a reachable monitor and a successful engine call, attach is exactly the plug-in steps after the handshake |
| Kvm.CreateVirtioBlk | pkg/kvm/kvm_test.go:317-358 | attach run on the mock server: its result, the requests the mock receives, the mock's call index and its argument misses are those of the pure attempt; the expected calls are unchanged |
| Kvm.DetachServed | pkg/kvm/kvm_test.go:187-204 | detach's two monitor commands are served by the next two expected calls |
| Kvm.DeleteVirtioBlk | pkg/kvm/kvm_test.go:416-453 | detach run on the mock server, tied to the pure attempt as for attach |
| Qmp.MissingArgsMembers | pkg/kvm/kvm_test.go:234-246 | an expected argument is reported iff the request does not contain it |
| Qmp.MissingArgsNone | pkg/kvm/kvm_test.go:234-246 | a request that contains every expected argument causes no report |
| Qmp.ServeIndexClosedForm | pkg/kvm/kvm_test.go:227-232 | serving n requests advances the call index by n, capped at the number of expected calls |
| Qmp.MissesNoneWhenMatching | pkg/kvm/kvm_test.go:234-246 | requests that match their expected calls produce no argument report |
| Qmp.MockQmpServer.constructor | pkg/kvm/kvm_test.go:95-118 | a new mock has its socket at `qmp.sock` in its directory, the handshake call, no expected calls, index 0 and no connection |
| Qmp.MockQmpServer.ExpectAddChardev | pkg/kvm/kvm_test.go:151-161 | appends the `chardev-add` call with id and socket path; nothing else changes |
| Qmp.MockQmpServer.ExpectAddVirtioBlk | pkg/kvm/kvm_test.go:163-174 | appends the `device_add` call with driver, id and chardev; nothing else changes |
| Qmp.MockQmpServer.ExpectDeleteChardev | pkg/kvm/kvm_test.go:176-185 | appends the `chardev-remove` call; nothing else changes |
| Qmp.MockQmpServer.ExpectDeleteVirtioBlk | pkg/kvm/kvm_test.go:195-204 | appends the `device_del` call without an event; nothing else changes |
| Qmp.MockQmpServer.ExpectDeleteVirtioBlkWithEvent | pkg/kvm/kvm_test.go:187-193 | appends the `device_del` call followed by its `DEVICE_DELETED` event for the id |
| Qmp.MockQmpServer.WithErrorResponse | pkg/kvm/kvm_test.go:206-212 | only the last expected call's response becomes the generic error; with no expected call it fails (index out of range) |
| Qmp.MockQmpServer.WereExpectedCallsPerformed | pkg/kvm/kvm_test.go:214-225 | true iff the call index equals the number of expected calls |
| Qmp.MockQmpServer.Accept | pkg/kvm/kvm_test.go:120-131 | the single connection is accepted; calls, index and logs are unchanged |
| Qmp.MockQmpServer.HandleCall | pkg/kvm/kvm_test.go:234-246 | answers with the call's response and event, records the request and appends exactly the expected arguments the request lacks |
| Qmp.MockQmpServer.HandleExpectedCall | pkg/kvm/kvm_test.go:227-232 | serves the expected call at the index (none past the end) and advances the index by one |
| KvmScenarios.AddChardevMatches | pkg/kvm/kvm_test.go:151-161 | the `chardev-add` attach sends contains every argument the mock expects |
| KvmScenarios.AddVirtioBlkMatches | pkg/kvm/kvm_test.go:163-174 | the `device_add` attach sends contains every argument the mock expects |
| KvmScenarios.DeleteChardevMatches | pkg/kvm/kvm_test.go:176-185 | the `chardev-remove` sent contains every argument the mock expects |
| KvmScenarios.DeleteVirtioBlkMatches | pkg/kvm/kvm_test.go:195-204 | the `device_del` sent contains every argument the mock expects |
| KvmScenarios.SocketIsNotDevNull | pkg/kvm/kvm_test.go:310-314 | the mock's socket path is never `/dev/null`, so that address is unreachable |
| KvmScenarios.AttachValidTrace | pkg/kvm/kvm_test.go:288-293 | the valid case's attempt returns the input and serves both expected calls with no argument report |
| KvmScenarios.AttachChardevFailsTrace | pkg/kvm/kvm_test.go:298-302 | the chardev failure stops after `chardev-add` |
| KvmScenarios.AttachDeviceFailsTrace | pkg/kvm/kvm_test.go:303-309 | the device failure rolls back with `chardev-remove` and serves all three expected calls |
| KvmScenarios.AttachEngineFailsTrace | pkg/kvm/kvm_test.go:294-297 | the engine failure sends only the handshake |
| KvmScenarios.CreateValid | pkg/kvm/kvm_test.go:288-293 | output equals the input, the full attach trace is received, all expected calls performed, no argument report |
| KvmScenarios.CreateEngineFails | pkg/kvm/kvm_test.go:294-297 | `ErrFailedSpdkCall`, only the handshake received |
| KvmScenarios.CreateChardevFails | pkg/kvm/kvm_test.go:298-302 | `errAddChardevFailed`, no `device_add` received |
| KvmScenarios.CreateDeviceFails | pkg/kvm/kvm_test.go:303-309 | `errAddDeviceFailed`, `chardev-remove` for the same id received last |
| KvmScenarios.CreateMonitorUnreachable | pkg/kvm/kvm_test.go:310-314 | `errMonitorCreation`, nothing received, zero expected calls performed |
| KvmScenarios.DetachTrace | pkg/kvm/kvm_test.go:374-408 | for any engine stub and any reply combination, detach's outcome is the aggregate of the three removals and both expected calls are served |
| KvmScenarios.RunDelete | pkg/kvm/kvm_test.go:416-453 | the delete loop body on a fresh mock: the aggregate outcome and the detach trace |
| KvmScenarios.DeleteValid | pkg/kvm/kvm_test.go:374-378 | success, full detach trace |
| KvmScenarios.DeleteDeviceFails | pkg/kvm/kvm_test.go:379-384 | `errDevicePartiallyDeleted` |
| KvmScenarios.DeleteDeviceTimesOut | pkg/kvm/kvm_test.go:385-390 | `errDevicePartiallyDeleted` when the event never comes |
| KvmScenarios.DeleteChardevFails | pkg/kvm/kvm_test.go:391-396 | `errDevicePartiallyDeleted` |
| KvmScenarios.DeleteEngineFails | pkg/kvm/kvm_test.go:397-402 | `errDevicePartiallyDeleted` |
| KvmScenarios.DeleteAllFail | pkg/kvm/kvm_test.go:403-408 | `errDeviceNotDeleted` |
| KvmScenarios.DeleteMonitorUnreachable | pkg/kvm/kvm_test.go:409-413 | `errMonitorCreation`, nothing received |
| Status.DecimalString | pkg/backend/nvme_path_test.go:52-60 | positions are written as non-empty digit strings, one digit exactly below ten |
| Status.DecimalRoundTrip | pkg/backend/nvme_path_test.go:52-60 | the decimal rendering reads back to the same number |
| JsonRpc.Receive | pkg/backend/nvme_path_test.go:61-96 | a reply is classified as end of stream iff it is empty, as id mismatch iff its id differs from the request's, as an error iff it has a nonzero code (carrying its message), and as a result iff the code is zero and the result has the method's shape |
| JsonRpc.ReceiveRespond | pkg/backend/nvme_path_test.go:97-105 | a well-formed answer with the request's id is read back as its result |
| JsonRpc.ReceiveRespondError | pkg/backend/nvme_path_test.go:88-96 | an error answer with the request's id is read back as that error message |
| JsonRpc.ErrorTextsDistinct | pkg/backend/nvme_path_test.go:70-96 | the EOF, id-mismatch and error-code texts differ pairwise |
| JsonRpc.ErrorTextInjective | pkg/backend/nvme_path_test.go:61-96 | different classified errors have different texts |
| ResourceNames.ResourceIdToVolumeNameInjective | pkg/middleend/qos_test.go:21-23 | distinct IDs give distinct resource names |
| ResourceNames.ResourceIdOfVolumeName | pkg/backend/nvme_path_test.go:262-269 | the last segment of an ID's resource name is the ID (the "Could not delete" message names the ID) |
| ResourceNames.VolumeNameSegments | pkg/backend/nvme_path_test.go:27-29 | a resource name splits into the collection and the ID |
| ResourceNames.JoinSegmentsOfSegments | pkg/backend/nvme_path_test.go:326-333 | splitting a name at '/' and joining again gives the name back |
| ResourceNames.SegmentsOfJoinSegments | pkg/backend/nvme_path_test.go:326-333 | joining slash-free segments and splitting again gives the segments back |
| ResourceNames.JoinPathInjective | pkg/kvm/kvm_test.go:151-161 | distinct device ids give distinct chardev socket paths in one directory |
| ResourceNames.ValidateName | pkg/backend/nvme_path_test.go:326-333 | a name is accepted iff every segment is valid; otherwise the message names the first invalid segment |
| ResourceNames.CheckName | pkg/backend/nvme_path_test.go:326-341 | an empty name is a missing field; a non-empty name passes iff all segments are valid, else the segment error with code Unknown |
| ResourceNames.HyphenNameRejected | pkg/backend/nvme_path_test.go:326-333 | a single segment starting with '-' is rejected as "not a valid DNS name" |
| ResourceNames.HyphenSegmentRejected | pkg/middleend/qos_test.go:1071-1077 | a resource name whose ID starts with '-' is rejected at that segment |
| ResourceNames.LeadingHyphenIsNotDomainName | pkg/backend/nvme_path_test.go:326-333 | no DNS name starts with a hyphen |
| ResourceNames.TrailingHyphenIsNotDomainName | pkg/backend/nvme_path_test.go:326-333 | no DNS name ends with a hyphen |
| ResourceNames.SimpleLabelIsDomainName | pkg/backend/nvme_path_test.go:27-29 | a non-empty label of lowercase letters, digits and inner hyphens is a DNS name |
| ResourceNames.VolumeNameIsValid | pkg/middleend/qos_test.go:21-23 | the resource name of such an ID passes name validation |
| ResourceNames.ValidateUserSettable | pkg/backend/nvme_path_test.go:52-60 | an ID is accepted iff every character is a lowercase letter, digit or hyphen; otherwise the message names the first bad character and its position |
| ResourceNames.ValidateFieldMask | pkg/backend/nvme_path_test.go:389-397 | with `*` in the mask it is rejected iff there is another path, with the fixed message; without `*` it is accepted iff every path names a field of the message, and otherwise the first path that does not is reported |
| Listing.BelowTotal | pkg/middleend/qos_test.go:857-868 | the key order is total on distinct keys |
| Listing.BelowTransitive | pkg/middleend/qos_test.go:857-868 | the key order is transitive |
| Listing.SortedUnique | pkg/middleend/qos_test.go:857-868 | there is only one sorted listing of a key set |
| Listing.Insert | pkg/middleend/qos_test.go:857-868 | inserting a new key into a sorted listing keeps it sorted and adds exactly that key |
| Listing.SortedKeys | pkg/middleend/qos_test.go:857-868 | the listing of a map is its keys in sorted order, each once |
| Listing.ValuesOf | pkg/middleend/qos_test.go:857-868 | the listed values are the stored values in key order, one per key |
| Listing.ExtractPagination | pkg/middleend/qos_test.go:869-916 | a negative size is InvalidArgument; an unknown token is NotFound; otherwise size 0 means 50, sizes above 250 are cut to 250, and the offset is 0 or the token's |
| Listing.LimitPagination | pkg/middleend/qos_test.go:869-892 | a page holds at most size items; there is a next page iff items remain past it; page and rest restore the list |
| Listing.List | pkg/middleend/qos_test.go:848-926 | a missing parent or a pagination error fails and keeps the tokens; otherwise the page is the limited slice, a next token is issued and recorded iff items remain, and the token table is unchanged otherwise |
| Listing.ListResumes | pkg/middleend/qos_test.go:881-892 | the token a page issues resumes the listing right after that page |
| Listing.PagesCover | pkg/middleend/qos_test.go:869-892 | following next tokens from an offset visits every remaining item once, in order |
| Qos.VerifyQosVolume | pkg/middleend/qos_test.go:65-198 | accepted iff no min limit, zero rd and wr kiops, nonnegative rw kiops and bandwidths, and some nonzero max limit; each rejection with its own message in the source's order |
| Qos.NegativeBandwidthRejected | pkg/middleend/qos_test.go:133-183 | each negative bandwidth is rejected with its message, read before write before read-write |
| Qos.ParamsRoundTrip | pkg/middleend/qos_test.go:323-357 | the engine parameters name the underlying volume, carry 1000 × rw kiops, pass the three MB/s limits through, and give back the max limit |
| Qos.NoLimitIsNotALimit | pkg/middleend/qos_test.go:390-416 | the parameters delete sends clear every limit and differ from those of any accepted volume |
| Qos.SetLimitVerdict | pkg/middleend/qos_test.go:240-259 | success iff the engine answered `true`; a failed call is `ErrFailedSpdkCall`, any other result `ErrUnexpectedSpdkCallResult` |
| Qos.CreateCheck | pkg/middleend/qos_test.go:65-279 | a create request passes iff it has a volume with a volume reference, a valid or empty ID and accepted limits; a missing volume or reference is a missing field, and an InvalidArgument always carries the validator's message |
| Qos.Create | pkg/middleend/qos_test.go:230-269 | a failed check is returned; an existing key returns the stored volume; otherwise the result follows the engine verdict and a success stores the request under the derived name |
| Qos.CreateCheckIgnoresName | pkg/middleend/qos_test.go:199-214 | the request's name does not affect the check |
| Qos.CreateIgnoresName | pkg/middleend/qos_test.go:199-214 | the request's name affects neither the result nor the store |
| Qos.CreateIdempotent | pkg/middleend/qos_test.go:230-239 | after a successful create, the same create returns the same volume and makes no engine call |
| Qos.Delete | pkg/middleend/qos_test.go:372-416 | a bad name fails; a missing key is NotFound, or success with `allow_missing`; otherwise the result is the engine verdict |
| Qos.DeleteForgets | pkg/middleend/qos_test.go:408-416 | after a successful delete the key is gone for get and another delete makes no engine call |
| Qos.UpdateCheck | pkg/middleend/qos_test.go:491-664 | an update passes iff it has a volume with a reference, a non-empty valid name and accepted limits, with the source's messages for each missing part |
| Qos.Update | pkg/middleend/qos_test.go:665-761 | a failed check is returned; a missing key is NotFound; a changed underlying volume is forbidden with its message; otherwise the engine verdict decides, and success returns the request |
| Qos.UpdateKeepsUnderlyingVolume | pkg/middleend/qos_test.go:681-697 | a successful update never changes the stored volume's underlying volume |
| Qos.Get | pkg/middleend/qos_test.go:973-990 | a bad name fails; otherwise the stored volume or NotFound |
| Qos.Stats | pkg/middleend/qos_test.go:1029-1077 | get's error first; then a failed call is `ErrFailedSpdkCall`; success iff exactly one entry came back, whose counters are reported; otherwise `ErrUnexpectedSpdkCallResult` |
| Qos.QosServer.constructor | pkg/middleend/qos_test.go:283-284 | a new server has no volumes, no pagination tokens and no engine parameters sent |
| Qos.QosServer.CreateQosVolume | pkg/middleend/qos_test.go:281-321 | returns `Create`, stores `CreateStore`, logs the request's parameters iff the engine is called, keeps the tokens |
| Qos.QosServer.DeleteQosVolume | pkg/middleend/qos_test.go:418-451 | returns `Delete`; the entry is removed only on a successful engine call; the zero-limit parameters are logged iff the engine is called |
| Qos.QosServer.UpdateQosVolume | pkg/middleend/qos_test.go:778-816 | returns `Update`; the entry is replaced by the request only on a successful engine call, otherwise the original stays |
| Qos.QosServer.ListQosVolumes | pkg/middleend/qos_test.go:927-962 | the page and token table are those of `List` over the stored values in key order; store and log unchanged |
| Qos.QosServer.GetQosVolume | pkg/middleend/qos_test.go:992-1017 | succeeds iff the name is non-empty, valid and stored, with the stored volume |
| Qos.QosServer.StatsQosVolume | pkg/middleend/qos_test.go:1079-1104 | succeeds only for a stored name |
| QosScenarios.EngineVerdicts | pkg/middleend/qos_test.go:240-259 | `true` succeeds, `false` is the unexpected-result error, an error reply the failed-call error |
| QosScenarios.MissingFieldMessages | pkg/middleend/qos_test.go:270-279 | the missing-field errors carry code Unknown and the field path |
| QosScenarios.MissingRefMessage | pkg/middleend/qos_test.go:215-229 | a missing volume reference is reported with code Unknown under the path `qos_volume.volume_name_ref` |
| QosScenarios.MalformedNameMessage | pkg/middleend/qos_test.go:762-776 | `-ABC-DEF` is rejected as not a valid DNS name |
| QosScenarios.ValidatorCases | pkg/middleend/qos_test.go:65-198 | each validator case gives its message and the test volume is accepted |
| QosScenarios.RunCreate | pkg/middleend/qos_test.go:281-321 | the create loop body on a fresh server: result, store and parameter log |
| QosScenarios.CreateSucceeds | pkg/middleend/qos_test.go:260-269 | stored under the derived name; one parameter set sent |
| QosScenarios.CreateIgnoresRequestName | pkg/middleend/qos_test.go:199-214 | a name in the request is replaced by the derived name |
| QosScenarios.CreateWithoutVolume | pkg/middleend/qos_test.go:270-279 | "missing required field: qos_volume", nothing stored or sent |
| QosScenarios.CreateWithoutVolumeRef | pkg/middleend/qos_test.go:215-229 | "missing required field: qos_volume.volume_name_ref", nothing stored or sent |
| QosScenarios.CreateWithMinLimit | pkg/middleend/qos_test.go:65-81 | InvalidArgument "QoS volume min_limit is not supported", nothing stored or sent |
| QosScenarios.CreateExisting | pkg/middleend/qos_test.go:230-239 | the stored volume is returned and nothing is sent |
| QosScenarios.CreateEngineFails | pkg/middleend/qos_test.go:240-249 | `ErrFailedSpdkCall`, nothing stored |
| QosScenarios.CreateEngineDeclines | pkg/middleend/qos_test.go:250-259 | `ErrUnexpectedSpdkCallResult`, nothing stored |
| QosScenarios.CreateSendsParams | pkg/middleend/qos_test.go:323-357 | exactly one parameter set: name `volume-42`, 1000 IOPS, 2/3/4 MB/s |
| QosScenarios.RunDelete | pkg/middleend/qos_test.go:418-451 | the delete loop body on a fresh server |
| QosScenarios.DeleteUnknown | pkg/middleend/qos_test.go:372-380 | NotFound, nothing sent |
| QosScenarios.DeleteUnknownAllowed | pkg/middleend/qos_test.go:381-389 | success with `allow_missing`, nothing sent |
| QosScenarios.DeleteEngineFails | pkg/middleend/qos_test.go:390-398 | `ErrFailedSpdkCall`, entry kept |
| QosScenarios.DeleteEngineDeclines | pkg/middleend/qos_test.go:399-407 | `ErrUnexpectedSpdkCallResult`, entry kept |
| QosScenarios.DeleteSucceeds | pkg/middleend/qos_test.go:408-416 | success, entry removed |
| QosScenarios.RunUpdate | pkg/middleend/qos_test.go:778-816 | the update loop body on a fresh server |
| QosScenarios.UpdateSucceeds | pkg/middleend/qos_test.go:730-751 | the request is returned and stored; its parameters are sent |
| QosScenarios.UpdateWithSameLimits | pkg/middleend/qos_test.go:752-761 | an update to the same limits succeeds |
| QosScenarios.UpdateWithoutName | pkg/middleend/qos_test.go:633-648 | InvalidArgument "QoS volume name cannot be empty", original kept |
| QosScenarios.UpdateWithoutVolumeRef | pkg/middleend/qos_test.go:649-664 | missing field, original kept |
| QosScenarios.UpdateWithMinLimit | pkg/middleend/qos_test.go:491-508 | the validator's message, original kept |
| QosScenarios.UpdateUnknown | pkg/middleend/qos_test.go:665-680 | NotFound |
| QosScenarios.UpdateChangesUnderlyingVolume | pkg/middleend/qos_test.go:681-697 | InvalidArgument naming the old and new underlying volumes, original kept |
| QosScenarios.UpdateEngineFails | pkg/middleend/qos_test.go:698-713 | `ErrFailedSpdkCall`, original kept |
| QosScenarios.UpdateEngineDeclines | pkg/middleend/qos_test.go:714-729 | `ErrUnexpectedSpdkCallResult`, original kept |
| QosScenarios.UpdateMalformedName | pkg/middleend/qos_test.go:762-776 | InvalidArgument "segment '-ABC-DEF': not a valid DNS name" |
| QosScenarios.TestNamesInOrder | pkg/middleend/qos_test.go:820-833 | `qos-volume-41` sorts before `qos-volume-45` |
| QosScenarios.TwoVolumesInOrder | pkg/middleend/qos_test.go:857-868 | the two test volumes are listed 41 then 45 |
| QosScenarios.RunList | pkg/middleend/qos_test.go:927-962 | the list loop body on a fresh server with the existing token at offset 1 |
| QosScenarios.ListNothing | pkg/middleend/qos_test.go:848-856 | an empty store lists nothing and no next token |
| QosScenarios.ListAll | pkg/middleend/qos_test.go:857-868 | both volumes in order, no next token |
| QosScenarios.ListFirstPage | pkg/middleend/qos_test.go:869-880 | page size 1 gives `qos-volume-41` and records a next token at offset 1 |
| QosScenarios.ListFromToken | pkg/middleend/qos_test.go:881-892 | page size 1 from the existing token gives `qos-volume-45` and no next token |
| QosScenarios.ListNegativePageSize | pkg/middleend/qos_test.go:893-904 | InvalidArgument "negative PageSize is not allowed" |
| QosScenarios.ListUnknownToken | pkg/middleend/qos_test.go:905-916 | NotFound naming the token |
| QosScenarios.ListWithoutParent | pkg/middleend/qos_test.go:917-926 | "missing required field: parent" |
| QosScenarios.GetCases | pkg/middleend/qos_test.go:973-990 | unknown name NotFound, existing name the stored volume, empty name a missing field |
| QosScenarios.StatsCases | pkg/middleend/qos_test.go:1029-1077 | one entry reports its counters; no entry, a failed call, an unknown or empty or malformed name each give their error |
| NvmePaths.CallFailure | pkg/backend/nvme_path_test.go:61-96 | an engine failure is reported with code Unknown as the method name, ": ", and the classification text; an undecodable result as a decode failure of that method |
| NvmePaths.CallFailureInjective | pkg/backend/nvme_path_test.go:61-96 | different classifications give different errors for one method |
| NvmePaths.CreateCheck | pkg/backend/nvme_path_test.go:52-60 | a create passes iff it has a body and a valid or empty ID; no body is "missing required field: nvme_path"; a bad ID gives the ID validator's message with code Unknown |
| NvmePaths.Create | pkg/backend/nvme_path_test.go:61-114 | a failed check is returned; an existing key returns the stored path; otherwise success iff the attach reply is a result, storing the request under the derived name, and each failure is that reply's classification |
| NvmePaths.CreateIdempotent | pkg/backend/nvme_path_test.go:106-114 | after a successful create, the same create returns the same path and makes no engine call |
| NvmePaths.Delete | pkg/backend/nvme_path_test.go:262-341 | a bad name fails; a missing key is NotFound, or success with `allow_missing`; otherwise success iff the detach reply is `true`, `false` is InvalidArgument "Could not delete Nvme Path", failures are classified |
| NvmePaths.CouldNotDeleteNamesId | pkg/backend/nvme_path_test.go:262-269 | the refusal message for an ID's resource name ends in the ID |
| NvmePaths.DeleteForgets | pkg/backend/nvme_path_test.go:302-325 | after a successful delete the key is NotFound, and OK with `allow_missing` |
| NvmePaths.UpdateCheck | pkg/backend/nvme_path_test.go:389-524 | no body, a bad name, an unknown key (whatever `allow_missing` says) and an invalid field mask (a mixed `*`, or a path naming no field of the message) are rejected in that order; the request passes iff none applies |
| NvmePaths.UpdateIgnoresAllowMissing | pkg/backend/nvme_path_test.go:479-510 | `allow_missing` does not change the check, and a passing update names a stored key |
| NvmePaths.Get | pkg/backend/nvme_path_test.go:770-838 | a bad name fails; an unknown key is NotFound; a failed controller query is classified; success iff exactly one controller came back, otherwise the count error |
| NvmePaths.Stats | pkg/backend/nvme_path_test.go:879-941 | the same checks, then success iff exactly one iostat entry came back, whose counters are reported |
| NvmePaths.NvmePathServer.constructor | pkg/backend/nvme_path_test.go:129-130 | a new server has no paths, no tokens and no engine calls |
| NvmePaths.NvmePathServer.CreateNvmePath | pkg/backend/nvme_path_test.go:127-159 | returns `Create`, stores `CreateStore`, logs the attach call iff the engine is called |
| NvmePaths.NvmePathServer.DeleteNvmePath | pkg/backend/nvme_path_test.go:345-371 | returns `Delete`; the entry is removed only on a successful detach; the detach call is logged iff the engine is called |
| NvmePaths.NvmePathServer.ListNvmePaths | pkg/backend/nvme_path_test.go:728-758 | the page and token table are those of `List` over the stored paths in key order; store and log unchanged |
| NvmePaths.NvmePathServer.GetNvmePath | pkg/backend/nvme_path_test.go:842-867 | a successful get returns the stored path |
| NvmePaths.NvmePathServer.StatsNvmePath | pkg/backend/nvme_path_test.go:945-971 | succeeds only for a stored name |
| NvmePathScenarios.CapitalIdMessage | pkg/backend/nvme_path_test.go:52-60 | `CapitalLettersNotAllowed` is rejected at 'C', position 0 |
| NvmePathScenarios.ErrorCodeText | pkg/backend/nvme_path_test.go:88-96 | the error-code text is "json response error: myopierr" |
| NvmePathScenarios.MissingFieldMessages | pkg/backend/nvme_path_test.go:115-123 | the missing-field errors carry code Unknown and the field path |
| NvmePathScenarios.RunCreate | pkg/backend/nvme_path_test.go:127-159 | the create loop body on a fresh server: result, store and engine log |
| NvmePathScenarios.CreateIllegalId | pkg/backend/nvme_path_test.go:52-60 | the ID error naming 'C' at 0, nothing stored or called |
| NvmePathScenarios.CreateUndecodable | pkg/backend/nvme_path_test.go:61-69 | a decode failure of `bdev_nvme_attach_controller`, nothing stored |
| NvmePathScenarios.CreateEmptyReply | pkg/backend/nvme_path_test.go:70-78 | "bdev_nvme_attach_controller: EOF", nothing stored |
| NvmePathScenarios.CreateIdMismatch | pkg/backend/nvme_path_test.go:79-87 | "...: json response ID mismatch", nothing stored |
| NvmePathScenarios.CreateErrorCode | pkg/backend/nvme_path_test.go:88-96 | "...: json response error: myopierr", nothing stored |
| NvmePathScenarios.CreateSucceeds | pkg/backend/nvme_path_test.go:97-105 | stored under the derived name, one attach call |
| NvmePathScenarios.CreateExisting | pkg/backend/nvme_path_test.go:106-114 | the stored path, no engine call |
| NvmePathScenarios.CreateWithoutBody | pkg/backend/nvme_path_test.go:115-123 | "missing required field: nvme_path" for any ID, nothing stored or called |
| NvmePathScenarios.RunDelete | pkg/backend/nvme_path_test.go:345-371 | the delete loop body on a fresh server holding the test path |
| NvmePathScenarios.DeleteRefused | pkg/backend/nvme_path_test.go:262-269 | InvalidArgument "Could not delete Nvme Path: mytest", entry kept |
| NvmePathScenarios.DeleteUndecodable | pkg/backend/nvme_path_test.go:270-277 | a decode failure of `bdev_nvme_detach_controller`, entry kept |
| NvmePathScenarios.DeleteEmptyReply | pkg/backend/nvme_path_test.go:278-285 | "bdev_nvme_detach_controller: EOF", entry kept |
| NvmePathScenarios.DeleteIdMismatch | pkg/backend/nvme_path_test.go:286-293 | "...: json response ID mismatch", entry kept |
| NvmePathScenarios.DeleteErrorCode | pkg/backend/nvme_path_test.go:294-301 | "...: json response error: myopierr", entry kept |
| NvmePathScenarios.DeleteSucceeds | pkg/backend/nvme_path_test.go:302-309 | success, entry removed |
| NvmePathScenarios.DeleteUnknown | pkg/backend/nvme_path_test.go:310-317 | NotFound, no engine call |
| NvmePathScenarios.DeleteUnknownAllowed | pkg/backend/nvme_path_test.go:318-325 | success with `allow_missing`, no engine call |
| NvmePathScenarios.DeleteMalformedName | pkg/backend/nvme_path_test.go:326-333 | "segment '-ABC-DEF': not a valid DNS name" |
| NvmePathScenarios.DeleteWithoutName | pkg/backend/nvme_path_test.go:334-341 | "missing required field: name" |
| NvmePathScenarios.UpdateInvalidMask | pkg/backend/nvme_path_test.go:389-397 | "invalid field path: '*' must not be used with other paths" |
| NvmePathScenarios.UpdateUnknownFieldPath | pkg/backend/nvme_path_test.go:389-397 | a mask path naming no field ("author" alone) is rejected as "invalid field path: author"; `*` alone and a mask of real fields pass |
| NvmePathScenarios.UpdateUnknown | pkg/backend/nvme_path_test.go:479-510 | NotFound with and without `allow_missing` |
| NvmePathScenarios.UpdateMalformedName | pkg/backend/nvme_path_test.go:511-524 | "segment '-ABC-DEF': not a valid DNS name" |
| NvmePathScenarios.ListWithoutParent | pkg/backend/nvme_path_test.go:716-724 | "missing required field: parent", tokens unchanged |
| NvmePathScenarios.GetEngineFailures | pkg/backend/nvme_path_test.go:777-804 | undecodable, empty, mismatched and error-code replies give their classified errors for `bdev_nvme_get_controllers` |
| NvmePathScenarios.GetControllerCount | pkg/backend/nvme_path_test.go:770-776 | no controller gives "expecting exactly 1 result, got 0"; one gives the stored path |
| NvmePathScenarios.GetUnknownKey | pkg/backend/nvme_path_test.go:818-824 | NotFound "unable to find key unknown-id" |
| NvmePathScenarios.GetMalformedName | pkg/backend/nvme_path_test.go:825-831 | "segment '-ABC-DEF': not a valid DNS name" |
| NvmePathScenarios.GetWithoutName | pkg/backend/nvme_path_test.go:832-838 | "missing required field: name" |
| NvmePathScenarios.StatsUnknownKey | pkg/backend/nvme_path_test.go:928-934 | NotFound "unable to find key unknown-id" |
| NvmePathScenarios.StatsMalformedName | pkg/backend/nvme_path_test.go:935-941 | "segment '-ABC-DEF': not a valid DNS name" |
| NvmePathScenarios.StatsOfOneEntry | pkg/backend/nvme_path_test.go:914-927 | one iostat entry reports counters 1, 2, 3, 4, 7, 8; no entry gives the count error |

## Left out

- Socket I/O of the mock monitor (listen, accept, deadlines, the 512-byte read, write). The JSON text of QMP messages is left out too. A command is a datatype, and "the request contains the expected argument" is membership of a key/value member.
- The accept goroutine, the mutex and the 1 ms sleep before the event. A `device_del` timeout is the absence of the event.
- The QMP greeting text. Serving it is part of accepting the connection.
- gRPC codes and status plumbing, proto cloning and equality, and `deepcopier`. Errors are the `Status.Error` datatype, and messages are built the way the `fmt.Sprintf` calls build them.
- JSON-RPC framing, and the Go `encoding/json` text of a result that does not decode. `Status.DecodeFailed(method)` stands for "method: json: cannot unmarshal ...".
- The PSK key file: creating it, writing it and removing it (pkg/backend/nvme_path_test.go:161-250). This is filesystem I/O.
- The engine's `tick_rate` and `ticks`. Statistics copy the six counters only.
- `ResourceIDToVolumeName`: its body is not part of this model. It is modelled as `"volumes/" + id`, which is injective and keeps the id as the last segment. The "Could not delete Nvme Path: mytest" message needs that second fact.
- Resource-name validation covers what the tests reach: '/'-separated segments, where each segment is a DNS label or the `-` wildcard. Name patterns with variables are left out. User-settable IDs are checked for their character rule only. The length, first-letter and UUID rules are left out.
- `filepath.Join`'s path cleaning. `JoinPath` is `dir + "/" + name`.
- Integers are unbounded. No 32-bit page size and no 64-bit counter overflow is modelled.
- Page tokens are generated outside the model: callers pass a fresh non-empty one. A token whose offset lies past the end of the list gives an empty page.
- QoS update's `allow_missing` and field mask. No QoS test sets them.
- Kvm.Call: the call's arguments are not modelled, because the stub ignores them.
- ResourceNames.ValidateFieldMask: the field-mask library is not part of this model. Its rules are restated here: `*` must be the only path, and otherwise every path must name a field. The valid paths are passed in as a set, and only the top-level fields of the modelled NVMe path message are listed (`NvmePaths.NvmePathFields`). Dotted paths into sub-messages are therefore not accepted.
- NvmePaths.UpdateCheck: only the request checks of `UpdateNvmePath` are modelled. Every test case that gets past them is commented out in the source, so the detach and re-attach that follow are not modelled.
- NvmePaths.Get: a successful get returns the stored path. Building the answer from the controller data the engine returns is left out; that test case is commented out.
- NvmePaths.NvmePathServer.ListNvmePaths: lists the stored paths with no engine call. Every engine-backed list case is commented out in the source.
- NvmePaths.NvmePathServer.GetNvmePath: states only that a successful get returns the stored entry. Its full contract is `NvmePaths.Get`, to which it delegates.
- NvmePaths.NvmePathServer.StatsNvmePath and Qos.QosServer.StatsQosVolume: state only that success needs a stored name. The rest of their contracts is that of `Stats`.
- The NVMe controller that a path refers to (`testNvmeCtrlName`, and the controller-store lookup in delete) is not part of this model. The test path refers to a placeholder controller name.
