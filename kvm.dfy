/**
 * Plugging a virtio-blk device into a running QEMU instance and unplugging
 * it. Attach creates the storage engine's vhost controller, then adds a
 * character device for its socket and then the vhost-user-blk-pci device on
 * top of it, removing the character device again if the device cannot be
 * added. Detach always tries all three removals (device, character device,
 * engine controller) and reports how many of them succeeded.
 */
module Kvm {
  import opened Wrappers
  import ResourceNames
  import Qmp

  datatype VirtioBlk = VirtioBlk(id: string, physicalFunction: int, volumeId: string, maxIoQps: int)

  datatype KvmError =
    | MonitorCreation
    | FailedSpdkCall
    | UnexpectedSpdkCallResult
    | AddChardevFailed
    | AddDeviceFailed
    | DevicePartiallyDeleted
    | DeviceNotDeleted

  /** The engine methods the stub tells apart; any other method is named by its string. */
  datatype EngineMethod = VhostCreateBlkController | VhostDeleteController | OtherMethod(name: string)

  /** The JSON-RPC method name of an engine method. */
  function MethodName(m: EngineMethod): string {
    match m
    case VhostCreateBlkController => "vhost_create_blk_controller"
    case VhostDeleteController => "vhost_delete_controller"
    case OtherMethod(name) => name
  }
  const VhostUserBlkPci: string := "vhost-user-blk-pci"

  // ---------------------------------------------------------------------
  // The storage engine stub
  // ---------------------------------------------------------------------

  /** An engine that fails every call with `err`, or succeeds every call when `err` is absent. */
  datatype StubJsonRpc = StubJsonRpc(err: Option<string>)

  const AlwaysSuccessful: StubJsonRpc := StubJsonRpc(None)
  const AlwaysFailing: StubJsonRpc := StubJsonRpc(Some("stub error"))

  /** The error a call returns and the result it writes (absent: the caller's result is left alone). */
  datatype CallOutcome = CallOutcome(err: Option<string>, result: Option<bool>)

  /** The stub's answer: its error for every method; `true` written for the two controller methods when it succeeds. */
  function Call(s: StubJsonRpc, rpcMethod: EngineMethod): (o: CallOutcome)
    ensures o.err == s.err
    ensures o.result.Some? <==> s.err.None? && !rpcMethod.OtherMethod?
    ensures o.result.Some? ==> o.result.value
  {
    if !rpcMethod.OtherMethod? then
      if s.err.None? then CallOutcome(None, Some(true)) else CallOutcome(s.err, None)
    else CallOutcome(s.err, None)
  }

  /** How a controller call ends for the caller: an error is a failed call, anything but `true` an unexpected result. */
  function EngineStep(o: CallOutcome): (r: Result<(), KvmError>)
    ensures r.Success? <==> o.err.None? && o.result == Some(true)
    ensures o.err.Some? ==> r == Failure(FailedSpdkCall)
  {
    if o.err.Some? then Failure(FailedSpdkCall)
    else if o.result != Some(true) then Failure(UnexpectedSpdkCallResult)
    else Success(())
  }

  // ---------------------------------------------------------------------
  // Outcomes
  // ---------------------------------------------------------------------

  /** The bridge's side of the monitor connection: the socket it dials and where controller sockets live. */
  datatype KvmServer = KvmServer(engine: StubJsonRpc, qmpAddress: string, ctrlrDir: string)

  /** The monitor can be opened only at the mock's socket, and the mock takes one connection. */
  predicate Reachable(qmpAddress: string, socketPath: string, accepted: bool) {
    qmpAddress == socketPath && !accepted
  }

  /** A command succeeded: an answer came and it is a `return`. */
  predicate Succeeded(a: Option<Qmp.Answer>) {
    a.Some? && a.value.reply.Return?
  }

  /** A device deletion counts only when its `return` is followed by the deletion event for that device. */
  predicate DeletionConfirmed(a: Option<Qmp.Answer>, id: string) {
    Succeeded(a) && a.value.event.Some? && a.value.event.value.device == id
  }

  /** What an operation returned and the monitor commands it sent, in order. */
  datatype Attempt<T> = Attempt(result: Result<T, KvmError>, commands: seq<Qmp.Command>)

  /** The commands of a complete attach. */
  function AttachCommands(dir: string, id: string): seq<Qmp.Command> {
    [Qmp.QmpCapabilities, Qmp.ChardevAdd(id, ResourceNames.JoinPath(dir, id)), Qmp.DeviceAdd(VhostUserBlkPci, id, id)]
  }

  /**
   * Attach, given whether the monitor is reachable, how the engine call
   * ends, and the answers to `chardev-add` and `device_add`.
   */
  function Attach(blk: VirtioBlk, dir: string, reachable: bool, engine: Result<(), KvmError>,
                  chardev: Option<Qmp.Answer>, device: Option<Qmp.Answer>): (a: Attempt<VirtioBlk>)
    ensures a.result.Success? <==> reachable && engine.Success? && Succeeded(chardev) && Succeeded(device)
    ensures a.result.Success? ==> a.result.value == blk && a.commands == AttachCommands(dir, blk.id)
    ensures !reachable ==> a == Attempt(Failure(MonitorCreation), [])
    ensures reachable && engine.Failure? ==> a == Attempt(Failure(engine.error), [Qmp.QmpCapabilities])
    ensures reachable && engine.Success? && !Succeeded(chardev) ==>
              a == Attempt(Failure(AddChardevFailed), AttachCommands(dir, blk.id)[..2])
    ensures reachable && engine.Success? && Succeeded(chardev) && !Succeeded(device) ==>
              a == Attempt(Failure(AddDeviceFailed), AttachCommands(dir, blk.id) + [Qmp.ChardevRemove(blk.id)])
  {
    var cmds := AttachCommands(dir, blk.id);
    if !reachable then Attempt(Failure(MonitorCreation), [])
    else if engine.Failure? then Attempt(Failure(engine.error), [Qmp.QmpCapabilities])
    else if !Succeeded(chardev) then Attempt(Failure(AddChardevFailed), cmds[..2])
    else if !Succeeded(device) then Attempt(Failure(AddDeviceFailed), cmds + [Qmp.ChardevRemove(blk.id)])
    else Attempt(Success(blk), cmds)
  }

  /** Every attach sends `chardev-add` only after the handshake and `device_add` only after `chardev-add`. */
  lemma AttachOrder(blk: VirtioBlk, dir: string, reachable: bool, engine: Result<(), KvmError>,
                    chardev: Option<Qmp.Answer>, device: Option<Qmp.Answer>)
    ensures var a := Attach(blk, dir, reachable, engine, chardev, device);
            a.commands == [] || a.commands[0] == Qmp.QmpCapabilities
    ensures var a := Attach(blk, dir, reachable, engine, chardev, device);
            forall k :: 0 <= k < |a.commands| && a.commands[k].DeviceAdd? ==>
              k == 2 && a.commands[1] == Qmp.ChardevAdd(blk.id, ResourceNames.JoinPath(dir, blk.id))
    ensures var a := Attach(blk, dir, reachable, engine, chardev, device);
            forall k :: 0 <= k < |a.commands| && a.commands[k].ChardevRemove? ==>
              k == |a.commands| - 1 && a.result == Failure(AddDeviceFailed)
  {
  }

  /** Count of true flags. */
  function Count(b: bool): nat {
    if b then 1 else 0
  }

  /** The detach verdict from the three removals: all done is success, none done is failure, anything between partial. */
  function DetachOutcome(deviceDeleted: bool, chardevRemoved: bool, controllerDeleted: bool): (r: Result<(), KvmError>)
    ensures r.Success? <==> deviceDeleted && chardevRemoved && controllerDeleted
    ensures r == Failure(DeviceNotDeleted) <==> !deviceDeleted && !chardevRemoved && !controllerDeleted
    ensures r == Failure(DevicePartiallyDeleted) <==>
              (deviceDeleted || chardevRemoved || controllerDeleted) && !(deviceDeleted && chardevRemoved && controllerDeleted)
  {
    var n := Count(deviceDeleted) + Count(chardevRemoved) + Count(controllerDeleted);
    if n == 3 then Success(())
    else if n == 0 then Failure(DeviceNotDeleted)
    else Failure(DevicePartiallyDeleted)
  }

  /** The commands of every detach over a reachable monitor. */
  function DetachCommands(id: string): seq<Qmp.Command> {
    [Qmp.QmpCapabilities, Qmp.DeviceDel(id), Qmp.ChardevRemove(id)]
  }

  /**
   * Detach, given whether the monitor is reachable, the answers to
   * `device_del` and `chardev-remove`, and how the engine call ends.
   */
  function Detach(id: string, reachable: bool, deviceDel: Option<Qmp.Answer>, chardevRemove: Option<Qmp.Answer>,
                  engine: Result<(), KvmError>): (a: Attempt<()>)
    ensures !reachable ==> a == Attempt(Failure(MonitorCreation), [])
    ensures reachable ==> a.commands == DetachCommands(id)
    ensures reachable ==> a.result == DetachOutcome(DeletionConfirmed(deviceDel, id), Succeeded(chardevRemove), engine.Success?)
  {
    if !reachable then Attempt(Failure(MonitorCreation), [])
    else Attempt(DetachOutcome(DeletionConfirmed(deviceDel, id), Succeeded(chardevRemove), engine.Success?), DetachCommands(id))
  }

  /** A `return` without the deletion event counts like an error reply. */
  lemma MissingEventIsFailure(id: string, reply: Qmp.Reply, chardevRemove: Option<Qmp.Answer>, engine: Result<(), KvmError>)
    ensures Detach(id, true, Some(Qmp.Answer(reply, None)), chardevRemove, engine)
         == Detach(id, true, Some(Qmp.Answer(Qmp.GenericQmpError, None)), chardevRemove, engine)
  {
  }

  // ---------------------------------------------------------------------
  // The operations against the mock monitor
  // ---------------------------------------------------------------------

  /** The requests after the capabilities handshake. */
  function AfterHandshake(cmds: seq<Qmp.Command>): seq<Qmp.Command> {
    if cmds == [] then [] else cmds[1..]
  }

  lemma HandshakeMatches()
    ensures Qmp.MissingArgs(Qmp.CapabilitiesNegotiation.expectedArgs, Qmp.QmpCapabilities) == []
  {
    assert Qmp.Member("execute", "qmp_capabilities") in Qmp.Members(Qmp.QmpCapabilities);
  }

  /** Serving one request: the counter moves on once and the report grows by that request's missing arguments. */
  lemma ServeOne(calls: seq<Qmp.MockCall>, index: nat, c1: Qmp.Command)
    ensures Qmp.ServeIndex(calls, index, [c1]) == Qmp.NextIndex(calls, index)
    ensures Qmp.Misses(calls, index, [c1]) == Qmp.StepMisses(calls, index, c1)
  {
    assert [c1][..0] == [];
  }

  /** Serving two requests, one after the other. */
  lemma ServeTwo(calls: seq<Qmp.MockCall>, index: nat, c1: Qmp.Command, c2: Qmp.Command)
    ensures Qmp.ServeIndex(calls, index, [c1, c2]) == Qmp.NextIndex(calls, Qmp.NextIndex(calls, index))
    ensures Qmp.Misses(calls, index, [c1, c2])
            == Qmp.StepMisses(calls, index, c1) + Qmp.StepMisses(calls, Qmp.NextIndex(calls, index), c2)
  {
    assert [c1, c2][..1] == [c1];
    ServeOne(calls, index, c1);
  }

  /** Serving three requests, one after the other. */
  lemma ServeThree(calls: seq<Qmp.MockCall>, index: nat, c1: Qmp.Command, c2: Qmp.Command, c3: Qmp.Command)
    ensures Qmp.ServeIndex(calls, index, [c1, c2, c3])
            == Qmp.NextIndex(calls, Qmp.NextIndex(calls, Qmp.NextIndex(calls, index)))
    ensures Qmp.Misses(calls, index, [c1, c2, c3])
            == Qmp.StepMisses(calls, index, c1) + Qmp.StepMisses(calls, Qmp.NextIndex(calls, index), c2)
               + Qmp.StepMisses(calls, Qmp.NextIndex(calls, Qmp.NextIndex(calls, index)), c3)
  {
    assert [c1, c2, c3][..2] == [c1, c2];
    ServeTwo(calls, index, c1, c2);
  }

  /**
   * Appending a joined run of two pieces is appending them one by one.
   * A proof step only: stating it apart keeps `ServedTwo` and `ServedThree` cheap.
   */
  lemma JoinTwo<T>(e: seq<T>, a: seq<T>, b: seq<T>)
    ensures e + (a + b) == e + a + b
  {
  }

  /** Appending a joined run of three pieces is appending them one by one (a proof step, as `JoinTwo`). */
  lemma JoinThree<T>(e: seq<T>, a: seq<T>, b: seq<T>, c: seq<T>)
    ensures e + (a + b + c) == e + a + b + c
  {
    JoinTwo(e, a + b, c);
    JoinTwo(e, a, b);
  }

  /** The bookkeeping of the mock once it has served exactly the two requests `cmds`. */
  lemma ServedTwo(calls: seq<Qmp.MockCall>, index: nat, cmds: seq<Qmp.Command>, c1: Qmp.Command, c2: Qmp.Command,
                  requests: seq<Qmp.Command>, errors: seq<Qmp.Member>)
    requires cmds == [c1, c2]
    ensures requests + cmds == requests + [c1] + [c2]
    ensures Qmp.ServeIndex(calls, index, cmds) == Qmp.NextIndex(calls, Qmp.NextIndex(calls, index))
    ensures errors + Qmp.Misses(calls, index, cmds)
            == errors + Qmp.StepMisses(calls, index, c1) + Qmp.StepMisses(calls, Qmp.NextIndex(calls, index), c2)
  {
    ServeTwo(calls, index, c1, c2);
    assert cmds == [c1] + [c2];
    JoinTwo(requests, [c1], [c2]);
    JoinTwo(errors, Qmp.StepMisses(calls, index, c1), Qmp.StepMisses(calls, Qmp.NextIndex(calls, index), c2));
  }

  /** The bookkeeping of the mock once it has served exactly the three requests `cmds`. */
  lemma ServedThree(calls: seq<Qmp.MockCall>, index: nat, cmds: seq<Qmp.Command>,
                    c1: Qmp.Command, c2: Qmp.Command, c3: Qmp.Command,
                    requests: seq<Qmp.Command>, errors: seq<Qmp.Member>)
    requires cmds == [c1, c2, c3]
    ensures requests + cmds == requests + [c1] + [c2] + [c3]
    ensures Qmp.ServeIndex(calls, index, cmds)
            == Qmp.NextIndex(calls, Qmp.NextIndex(calls, Qmp.NextIndex(calls, index)))
    ensures errors + Qmp.Misses(calls, index, cmds)
            == errors + Qmp.StepMisses(calls, index, c1) + Qmp.StepMisses(calls, Qmp.NextIndex(calls, index), c2)
               + Qmp.StepMisses(calls, Qmp.NextIndex(calls, Qmp.NextIndex(calls, index)), c3)
  {
    ServeThree(calls, index, c1, c2, c3);
    assert cmds == [c1] + [c2] + [c3];
    JoinThree(requests, [c1], [c2], [c3]);
    var i2 := Qmp.NextIndex(calls, index);
    JoinThree(errors, Qmp.StepMisses(calls, index, c1), Qmp.StepMisses(calls, i2, c2),
              Qmp.StepMisses(calls, Qmp.NextIndex(calls, i2), c3));
  }

  /** Attach after a successful handshake and engine call, with the mock's answers for the calls from `index` on. */
  function PlugAttempt(blk: VirtioBlk, dir: string, calls: seq<Qmp.MockCall>, index: nat): Attempt<VirtioBlk> {
    Attach(blk, dir, true, Success(()), Qmp.AnswerAt(calls, index), Qmp.AnswerAt(calls, index + 1))
  }

  /** A failed `chardev-add` ends the attach: one request after the handshake, served with the call at `index`. */
  lemma PlugChardevFails(blk: VirtioBlk, dir: string, calls: seq<Qmp.MockCall>, index: nat,
                         requests: seq<Qmp.Command>, errors: seq<Qmp.Member>)
    requires !Succeeded(Qmp.AnswerAt(calls, index))
    ensures var a := PlugAttempt(blk, dir, calls, index);
            var c1 := Qmp.ChardevAdd(blk.id, ResourceNames.JoinPath(dir, blk.id));
            && a.result == Failure(AddChardevFailed)
            && requests + AfterHandshake(a.commands) == requests + [c1]
            && Qmp.ServeIndex(calls, index, AfterHandshake(a.commands)) == Qmp.NextIndex(calls, index)
            && errors + Qmp.Misses(calls, index, AfterHandshake(a.commands)) == errors + Qmp.StepMisses(calls, index, c1)
  {
    var c1 := Qmp.ChardevAdd(blk.id, ResourceNames.JoinPath(dir, blk.id));
    assert AfterHandshake(PlugAttempt(blk, dir, calls, index).commands) == [c1];
    ServeOne(calls, index, c1);
  }

  /** A failed `device_add` is followed by `chardev-remove`: three requests after the handshake. */
  lemma PlugDeviceFails(blk: VirtioBlk, dir: string, calls: seq<Qmp.MockCall>, index: nat,
                        requests: seq<Qmp.Command>, errors: seq<Qmp.Member>)
    requires Succeeded(Qmp.AnswerAt(calls, index)) && !Succeeded(Qmp.AnswerAt(calls, index + 1))
    ensures PlugAttempt(blk, dir, calls, index).result == Failure(AddDeviceFailed)
    ensures var a := PlugAttempt(blk, dir, calls, index);
            var c1 := Qmp.ChardevAdd(blk.id, ResourceNames.JoinPath(dir, blk.id));
            var c2 := Qmp.DeviceAdd(VhostUserBlkPci, blk.id, blk.id);
            requests + AfterHandshake(a.commands) == requests + [c1] + [c2] + [Qmp.ChardevRemove(blk.id)]
    ensures var a := PlugAttempt(blk, dir, calls, index);
            var i2 := Qmp.NextIndex(calls, index);
            Qmp.ServeIndex(calls, index, AfterHandshake(a.commands)) == Qmp.NextIndex(calls, Qmp.NextIndex(calls, i2))
    ensures var a := PlugAttempt(blk, dir, calls, index);
            var c1 := Qmp.ChardevAdd(blk.id, ResourceNames.JoinPath(dir, blk.id));
            var c2 := Qmp.DeviceAdd(VhostUserBlkPci, blk.id, blk.id);
            var i2 := Qmp.NextIndex(calls, index);
            errors + Qmp.Misses(calls, index, AfterHandshake(a.commands))
            == errors + Qmp.StepMisses(calls, index, c1) + Qmp.StepMisses(calls, i2, c2)
               + Qmp.StepMisses(calls, Qmp.NextIndex(calls, i2), Qmp.ChardevRemove(blk.id))
  {
    var c1 := Qmp.ChardevAdd(blk.id, ResourceNames.JoinPath(dir, blk.id));
    var c2 := Qmp.DeviceAdd(VhostUserBlkPci, blk.id, blk.id);
    var c3 := Qmp.ChardevRemove(blk.id);
    RollbackCommands(blk, dir, calls, index);
    ServedThree(calls, index, AfterHandshake(PlugAttempt(blk, dir, calls, index).commands), c1, c2, c3, requests, errors);
  }

  /** The requests of a rolled-back attach after the handshake. */
  lemma RollbackCommands(blk: VirtioBlk, dir: string, calls: seq<Qmp.MockCall>, index: nat)
    requires Succeeded(Qmp.AnswerAt(calls, index)) && !Succeeded(Qmp.AnswerAt(calls, index + 1))
    ensures PlugAttempt(blk, dir, calls, index).result == Failure(AddDeviceFailed)
    ensures AfterHandshake(PlugAttempt(blk, dir, calls, index).commands)
            == [Qmp.ChardevAdd(blk.id, ResourceNames.JoinPath(dir, blk.id)), Qmp.DeviceAdd(VhostUserBlkPci, blk.id, blk.id),
                Qmp.ChardevRemove(blk.id)]
  {
  }

  /** Both commands succeed: two requests after the handshake and the device attached. */
  lemma PlugSucceeds(blk: VirtioBlk, dir: string, calls: seq<Qmp.MockCall>, index: nat,
                     requests: seq<Qmp.Command>, errors: seq<Qmp.Member>)
    requires Succeeded(Qmp.AnswerAt(calls, index)) && Succeeded(Qmp.AnswerAt(calls, index + 1))
    ensures var a := PlugAttempt(blk, dir, calls, index);
            var c1 := Qmp.ChardevAdd(blk.id, ResourceNames.JoinPath(dir, blk.id));
            var c2 := Qmp.DeviceAdd(VhostUserBlkPci, blk.id, blk.id);
            && a.result == Success(blk)
            && requests + AfterHandshake(a.commands) == requests + [c1] + [c2]
            && Qmp.ServeIndex(calls, index, AfterHandshake(a.commands)) == Qmp.NextIndex(calls, Qmp.NextIndex(calls, index))
            && errors + Qmp.Misses(calls, index, AfterHandshake(a.commands))
               == errors + Qmp.StepMisses(calls, index, c1) + Qmp.StepMisses(calls, Qmp.NextIndex(calls, index), c2)
  {
    var c1 := Qmp.ChardevAdd(blk.id, ResourceNames.JoinPath(dir, blk.id));
    var c2 := Qmp.DeviceAdd(VhostUserBlkPci, blk.id, blk.id);
    AttachCommandsServed(blk, dir, calls, index);
    ServedTwo(calls, index, AfterHandshake(PlugAttempt(blk, dir, calls, index).commands), c1, c2, requests, errors);
  }

  /** The requests of a completed attach after the handshake. */
  lemma AttachCommandsServed(blk: VirtioBlk, dir: string, calls: seq<Qmp.MockCall>, index: nat)
    requires Succeeded(Qmp.AnswerAt(calls, index)) && Succeeded(Qmp.AnswerAt(calls, index + 1))
    ensures PlugAttempt(blk, dir, calls, index).result == Success(blk)
    ensures AfterHandshake(PlugAttempt(blk, dir, calls, index).commands)
            == [Qmp.ChardevAdd(blk.id, ResourceNames.JoinPath(dir, blk.id)), Qmp.DeviceAdd(VhostUserBlkPci, blk.id, blk.id)]
  {
  }

  /**
   * The part of attach after the handshake and the engine call: add the
   * character device, then the device, removing the character device again
   * if the device cannot be added.
   */
  method PlugDevice(mon: Qmp.MockQmpServer, dir: string, blk: VirtioBlk) returns (out: Result<VirtioBlk, KvmError>)
    requires mon.Valid() && mon.accepted
    modifies mon
    ensures mon.Valid() && mon.accepted && mon.expectedCalls == old(mon.expectedCalls)
    ensures var a := PlugAttempt(blk, dir, old(mon.expectedCalls), old(mon.callIndex));
            out == a.result
            && mon.requests == old(mon.requests) + AfterHandshake(a.commands)
            && mon.callIndex == Qmp.ServeIndex(old(mon.expectedCalls), old(mon.callIndex), AfterHandshake(a.commands))
            && mon.argumentErrors == old(mon.argumentErrors) + Qmp.Misses(old(mon.expectedCalls), old(mon.callIndex), AfterHandshake(a.commands))
  {
    ghost var calls, index, requests, errors := mon.expectedCalls, mon.callIndex, mon.requests, mon.argumentErrors;
    var chardev := mon.HandleExpectedCall(Qmp.ChardevAdd(blk.id, ResourceNames.JoinPath(dir, blk.id)));
    if !Succeeded(chardev) {
      PlugChardevFails(blk, dir, calls, index, requests, errors);
      return Failure(AddChardevFailed);
    }
    assert Qmp.NextIndex(calls, index) == index + 1;
    var device := mon.HandleExpectedCall(Qmp.DeviceAdd(VhostUserBlkPci, blk.id, blk.id));
    if !Succeeded(device) {
      var ignored := mon.HandleExpectedCall(Qmp.ChardevRemove(blk.id));
      PlugDeviceFails(blk, dir, calls, index, requests, errors);
      return Failure(AddDeviceFailed);
    }
    PlugSucceeds(blk, dir, calls, index, requests, errors);
    return Success(blk);
  }

  /** Attach against a mock in the given state, with the mock's scripted answers. */
  function CreateAttempt(kvm: KvmServer, socketPath: string, accepted: bool, calls: seq<Qmp.MockCall>, index: nat,
                         blk: VirtioBlk): Attempt<VirtioBlk>
  {
    Attach(blk, kvm.ctrlrDir, Reachable(kvm.qmpAddress, socketPath, accepted),
           EngineStep(Call(kvm.engine, VhostCreateBlkController)),
           Qmp.AnswerAt(calls, index), Qmp.AnswerAt(calls, index + 1))
  }

  /** An attach that stops before the handshake or right after it sends nothing the script serves. */
  lemma CreateStopsEarly(kvm: KvmServer, socketPath: string, accepted: bool, calls: seq<Qmp.MockCall>, index: nat,
                         blk: VirtioBlk)
    requires !Reachable(kvm.qmpAddress, socketPath, accepted) || EngineStep(Call(kvm.engine, VhostCreateBlkController)).Failure?
    ensures var a := CreateAttempt(kvm, socketPath, accepted, calls, index, blk);
            && a.result.Failure?
            && (Reachable(kvm.qmpAddress, socketPath, accepted) ==>
                  a.result == Failure(EngineStep(Call(kvm.engine, VhostCreateBlkController)).error)
                  && a.commands == [Qmp.QmpCapabilities])
            && (!Reachable(kvm.qmpAddress, socketPath, accepted) ==> a.result == Failure(MonitorCreation) && a.commands == [])
            && AfterHandshake(a.commands) == []
            && Qmp.ServeIndex(calls, index, AfterHandshake(a.commands)) == index
            && Qmp.Misses(calls, index, AfterHandshake(a.commands)) == []
  {
  }

  /** Past the handshake and the engine call, attach is the plugging of the device. */
  lemma CreateIsPlug(kvm: KvmServer, socketPath: string, calls: seq<Qmp.MockCall>, index: nat, blk: VirtioBlk,
                     requests: seq<Qmp.Command>)
    requires Reachable(kvm.qmpAddress, socketPath, false)
    requires EngineStep(Call(kvm.engine, VhostCreateBlkController)).Success?
    ensures CreateAttempt(kvm, socketPath, false, calls, index, blk) == PlugAttempt(blk, kvm.ctrlrDir, calls, index)
    ensures var cmds := PlugAttempt(blk, kvm.ctrlrDir, calls, index).commands;
            requests + [Qmp.QmpCapabilities] + AfterHandshake(cmds) == requests + cmds
  {
    var cmds := PlugAttempt(blk, kvm.ctrlrDir, calls, index).commands;
    assert cmds == [Qmp.QmpCapabilities] + AfterHandshake(cmds);
  }

  /**
   * Attach over the mock monitor: the result and the requests are those of
   * `Attach` with the mock's scripted answers, and the mock serves the
   * requests after the handshake.
   */
  method CreateVirtioBlk(kvm: KvmServer, mon: Qmp.MockQmpServer, blk: VirtioBlk) returns (out: Result<VirtioBlk, KvmError>)
    requires mon.Valid()
    modifies mon
    ensures mon.Valid()
    ensures out == CreateAttempt(kvm, mon.socketPath, old(mon.accepted), old(mon.expectedCalls), old(mon.callIndex), blk).result
    ensures mon.requests == old(mon.requests) + CreateAttempt(kvm, mon.socketPath, old(mon.accepted), old(mon.expectedCalls), old(mon.callIndex), blk).commands
    ensures mon.callIndex == Qmp.ServeIndex(old(mon.expectedCalls), old(mon.callIndex),
              AfterHandshake(CreateAttempt(kvm, mon.socketPath, old(mon.accepted), old(mon.expectedCalls), old(mon.callIndex), blk).commands))
    ensures mon.argumentErrors == old(mon.argumentErrors) + Qmp.Misses(old(mon.expectedCalls), old(mon.callIndex),
              AfterHandshake(CreateAttempt(kvm, mon.socketPath, old(mon.accepted), old(mon.expectedCalls), old(mon.callIndex), blk).commands))
    ensures mon.expectedCalls == old(mon.expectedCalls)
    ensures mon.accepted == (old(mon.accepted) || Reachable(kvm.qmpAddress, mon.socketPath, old(mon.accepted)))
  {
    ghost var calls, index, errors, requests := mon.expectedCalls, mon.callIndex, mon.argumentErrors, mon.requests;
    if kvm.qmpAddress != mon.socketPath || mon.accepted {
      CreateStopsEarly(kvm, mon.socketPath, mon.accepted, calls, index, blk);
      assert requests + [] == requests && errors + [] == errors;
      return Failure(MonitorCreation);
    }
    mon.Accept();
    var greetingAnswer := mon.HandleCall(mon.capabilitiesNegotiation, Qmp.QmpCapabilities);
    HandshakeMatches();
    assert mon.argumentErrors == errors;
    var engine := EngineStep(Call(kvm.engine, VhostCreateBlkController));
    if engine.Failure? {
      CreateStopsEarly(kvm, mon.socketPath, false, calls, index, blk);
      assert errors + [] == errors;
      return Failure(engine.error);
    }
    CreateIsPlug(kvm, mon.socketPath, calls, index, blk, requests);
    out := PlugDevice(mon, kvm.ctrlrDir, blk);
  }

  /** Over a reachable monitor, detach sends its three commands and the script serves the two after the handshake. */
  lemma DetachServed(id: string, calls: seq<Qmp.MockCall>, index: nat, requests: seq<Qmp.Command>, errors: seq<Qmp.Member>)
    ensures requests + DetachCommands(id) == requests + [Qmp.QmpCapabilities] + [Qmp.DeviceDel(id)] + [Qmp.ChardevRemove(id)]
    ensures Qmp.ServeIndex(calls, index, AfterHandshake(DetachCommands(id)))
            == Qmp.NextIndex(calls, Qmp.NextIndex(calls, index))
    ensures errors + Qmp.Misses(calls, index, AfterHandshake(DetachCommands(id)))
            == errors + Qmp.StepMisses(calls, index, Qmp.DeviceDel(id))
               + Qmp.StepMisses(calls, Qmp.NextIndex(calls, index), Qmp.ChardevRemove(id))
  {
    assert DetachCommands(id) == [Qmp.QmpCapabilities] + [Qmp.DeviceDel(id)] + [Qmp.ChardevRemove(id)];
    JoinThree(requests, [Qmp.QmpCapabilities], [Qmp.DeviceDel(id)], [Qmp.ChardevRemove(id)]);
    assert AfterHandshake(DetachCommands(id)) == [Qmp.DeviceDel(id), Qmp.ChardevRemove(id)];
    ServedTwo(calls, index, AfterHandshake(DetachCommands(id)), Qmp.DeviceDel(id), Qmp.ChardevRemove(id), [], errors);
  }

  /** Detach against a mock in the given state, with the mock's scripted answers. */
  function DeleteAttempt(kvm: KvmServer, socketPath: string, accepted: bool, calls: seq<Qmp.MockCall>, index: nat,
                         name: string): Attempt<()>
  {
    Detach(name, Reachable(kvm.qmpAddress, socketPath, accepted),
           Qmp.AnswerAt(calls, index), Qmp.AnswerAt(calls, index + 1),
           EngineStep(Call(kvm.engine, VhostDeleteController)))
  }

  /**
   * Detach over the mock monitor: the result and the requests are those of
   * `Detach` with the mock's scripted answers, and the mock serves the
   * requests after the handshake.
   */
  method DeleteVirtioBlk(kvm: KvmServer, mon: Qmp.MockQmpServer, name: string) returns (out: Result<(), KvmError>)
    requires mon.Valid()
    modifies mon
    ensures mon.Valid()
    ensures out == DeleteAttempt(kvm, mon.socketPath, old(mon.accepted), old(mon.expectedCalls), old(mon.callIndex), name).result
    ensures mon.requests == old(mon.requests) + DeleteAttempt(kvm, mon.socketPath, old(mon.accepted), old(mon.expectedCalls), old(mon.callIndex), name).commands
    ensures mon.callIndex == Qmp.ServeIndex(old(mon.expectedCalls), old(mon.callIndex),
              AfterHandshake(DeleteAttempt(kvm, mon.socketPath, old(mon.accepted), old(mon.expectedCalls), old(mon.callIndex), name).commands))
    ensures mon.argumentErrors == old(mon.argumentErrors) + Qmp.Misses(old(mon.expectedCalls), old(mon.callIndex),
              AfterHandshake(DeleteAttempt(kvm, mon.socketPath, old(mon.accepted), old(mon.expectedCalls), old(mon.callIndex), name).commands))
    ensures mon.expectedCalls == old(mon.expectedCalls)
    ensures mon.accepted == (old(mon.accepted) || Reachable(kvm.qmpAddress, mon.socketPath, old(mon.accepted)))
  {
    ghost var calls, index, errors, requests := mon.expectedCalls, mon.callIndex, mon.argumentErrors, mon.requests;
    if kvm.qmpAddress != mon.socketPath || mon.accepted {
      assert requests + [] == requests && errors + [] == errors;
      return Failure(MonitorCreation);
    }
    mon.Accept();
    var greetingAnswer := mon.HandleCall(mon.capabilitiesNegotiation, Qmp.QmpCapabilities);
    HandshakeMatches();
    assert mon.argumentErrors == errors;
    var del := mon.HandleExpectedCall(Qmp.DeviceDel(name));
    var remove := mon.HandleExpectedCall(Qmp.ChardevRemove(name));
    var engine := EngineStep(Call(kvm.engine, VhostDeleteController));
    out := DetachOutcome(DeletionConfirmed(del, name), Succeeded(remove), engine.Success?);
    DetachServed(name, calls, index, requests, errors);
  }
}
