/**
 * The attach and detach cases of the virtio-blk tests, each run end to end
 * against a fresh mock monitor: the monitor is scripted, the operation runs,
 * and the result, the requests the monitor saw, whether every scripted call
 * was served, and the arguments it found missing are returned.
 */
module KvmScenarios {
  import opened Wrappers
  import ResourceNames
  import Qmp
  import opened Kvm

  const TestVirtioBlkId: string := "virtio-blk-42"
  const TestVirtioBlk: VirtioBlk := VirtioBlk(TestVirtioBlkId, 42, "Malloc42", 1)

  /** What one run leaves behind. */
  datatype Run<T> = Run(out: Result<T, KvmError>, requests: seq<Qmp.Command>, performed: bool, reported: seq<Qmp.Member>)

  // ---------------------------------------------------------------------
  // Requests matching their scripted calls
  // ---------------------------------------------------------------------

  lemma AddChardevMatches(dir: string, id: string)
    ensures Qmp.MissingArgs(Qmp.AddChardevCall(dir, id).expectedArgs,
                            Qmp.ChardevAdd(id, ResourceNames.JoinPath(dir, id))) == []
  {
    var members := Qmp.Members(Qmp.ChardevAdd(id, ResourceNames.JoinPath(dir, id)));
    assert members == [Qmp.Member("execute", "chardev-add"), Qmp.Member("id", id),
                       Qmp.Member("path", ResourceNames.JoinPath(dir, id))];
    Qmp.MissingArgsNone(Qmp.AddChardevCall(dir, id).expectedArgs, Qmp.ChardevAdd(id, ResourceNames.JoinPath(dir, id)));
  }

  lemma AddVirtioBlkMatches(id: string)
    ensures Qmp.MissingArgs(Qmp.AddVirtioBlkCall(id, id).expectedArgs, Qmp.DeviceAdd(VhostUserBlkPci, id, id)) == []
  {
    var members := Qmp.Members(Qmp.DeviceAdd(VhostUserBlkPci, id, id));
    assert members == [Qmp.Member("execute", "device_add"), Qmp.Member("driver", VhostUserBlkPci),
                       Qmp.Member("id", id), Qmp.Member("chardev", id)];
    Qmp.MissingArgsNone(Qmp.AddVirtioBlkCall(id, id).expectedArgs, Qmp.DeviceAdd(VhostUserBlkPci, id, id));
  }

  lemma DeleteChardevMatches(id: string)
    ensures Qmp.MissingArgs(Qmp.DeleteChardevCall(id).expectedArgs, Qmp.ChardevRemove(id)) == []
  {
    assert Qmp.Members(Qmp.ChardevRemove(id)) == [Qmp.Member("execute", "chardev-remove"), Qmp.Member("id", id)];
    Qmp.MissingArgsNone(Qmp.DeleteChardevCall(id).expectedArgs, Qmp.ChardevRemove(id));
  }

  lemma DeleteVirtioBlkMatches(id: string)
    ensures Qmp.MissingArgs(Qmp.DeleteVirtioBlkCall(id).expectedArgs, Qmp.DeviceDel(id)) == []
  {
    assert Qmp.Members(Qmp.DeviceDel(id)) == [Qmp.Member("execute", "device_del"), Qmp.Member("id", id)];
    Qmp.MissingArgsNone(Qmp.DeleteVirtioBlkCall(id).expectedArgs, Qmp.DeviceDel(id));
  }

  /** The mock's socket is never at "/dev/null". */
  lemma SocketIsNotDevNull(dir: string)
    ensures ResourceNames.JoinPath(dir, Qmp.SocketName) != "/dev/null"
  {
    if dir == "" {
      assert ResourceNames.JoinPath(dir, Qmp.SocketName)[0] != "/dev/null"[0];
    } else {
      assert |ResourceNames.JoinPath(dir, Qmp.SocketName)| > |"/dev/null"|;
    }
  }

  function Socket(dir: string): string {
    ResourceNames.JoinPath(dir, Qmp.SocketName)
  }

  // ---------------------------------------------------------------------
  // Attach
  // ---------------------------------------------------------------------

  /** Attach with a successful engine against a fresh mock holding `calls`. */
  function AttachOn(dir: string, engine: StubJsonRpc, calls: seq<Qmp.MockCall>): Attempt<VirtioBlk> {
    CreateAttempt(KvmServer(engine, Socket(dir), dir), Socket(dir), false, calls, 0, TestVirtioBlk)
  }

  lemma AttachValidTrace(dir: string)
    ensures var calls := [Qmp.AddChardevCall(dir, TestVirtioBlkId), Qmp.AddVirtioBlkCall(TestVirtioBlkId, TestVirtioBlkId)];
            var a := AttachOn(dir, AlwaysSuccessful, calls);
            && a == Attempt(Success(TestVirtioBlk), AttachCommands(dir, TestVirtioBlkId))
            && Qmp.ServeIndex(calls, 0, AfterHandshake(a.commands)) == 2
            && Qmp.Misses(calls, 0, AfterHandshake(a.commands)) == []
  {
    var calls := [Qmp.AddChardevCall(dir, TestVirtioBlkId), Qmp.AddVirtioBlkCall(TestVirtioBlkId, TestVirtioBlkId)];
    var cmds := AttachCommands(dir, TestVirtioBlkId);
    assert AttachOn(dir, AlwaysSuccessful, calls) == Attempt(Success(TestVirtioBlk), cmds);
    assert AfterHandshake(cmds) == [cmds[1], cmds[2]];
    ServeTwo(calls, 0, cmds[1], cmds[2]);
    AddChardevMatches(dir, TestVirtioBlkId);
    AddVirtioBlkMatches(TestVirtioBlkId);
  }

  lemma AttachChardevFailsTrace(dir: string)
    ensures var calls := [Qmp.AddChardevCall(dir, TestVirtioBlkId).(response := Qmp.GenericQmpError)];
            var a := AttachOn(dir, AlwaysSuccessful, calls);
            && a == Attempt(Failure(AddChardevFailed), AttachCommands(dir, TestVirtioBlkId)[..2])
            && Qmp.ServeIndex(calls, 0, AfterHandshake(a.commands)) == 1
            && Qmp.Misses(calls, 0, AfterHandshake(a.commands)) == []
  {
    var calls := [Qmp.AddChardevCall(dir, TestVirtioBlkId).(response := Qmp.GenericQmpError)];
    var cmds := AttachCommands(dir, TestVirtioBlkId);
    assert AttachOn(dir, AlwaysSuccessful, calls) == Attempt(Failure(AddChardevFailed), cmds[..2]);
    assert AfterHandshake(cmds[..2]) == [cmds[1]];
    ServeOne(calls, 0, cmds[1]);
    AddChardevMatches(dir, TestVirtioBlkId);
  }

  lemma AttachDeviceFailsTrace(dir: string)
    ensures var calls := [Qmp.AddChardevCall(dir, TestVirtioBlkId),
                          Qmp.AddVirtioBlkCall(TestVirtioBlkId, TestVirtioBlkId).(response := Qmp.GenericQmpError),
                          Qmp.DeleteChardevCall(TestVirtioBlkId)];
            var a := AttachOn(dir, AlwaysSuccessful, calls);
            && a == Attempt(Failure(AddDeviceFailed), AttachCommands(dir, TestVirtioBlkId) + [Qmp.ChardevRemove(TestVirtioBlkId)])
            && Qmp.ServeIndex(calls, 0, AfterHandshake(a.commands)) == 3
            && Qmp.Misses(calls, 0, AfterHandshake(a.commands)) == []
  {
    var calls := [Qmp.AddChardevCall(dir, TestVirtioBlkId),
                  Qmp.AddVirtioBlkCall(TestVirtioBlkId, TestVirtioBlkId).(response := Qmp.GenericQmpError),
                  Qmp.DeleteChardevCall(TestVirtioBlkId)];
    var cmds := AttachCommands(dir, TestVirtioBlkId) + [Qmp.ChardevRemove(TestVirtioBlkId)];
    assert AttachOn(dir, AlwaysSuccessful, calls) == Attempt(Failure(AddDeviceFailed), cmds);
    assert AfterHandshake(cmds) == [cmds[1], cmds[2], cmds[3]];
    ServeThree(calls, 0, cmds[1], cmds[2], cmds[3]);
    AddChardevMatches(dir, TestVirtioBlkId);
    AddVirtioBlkMatches(TestVirtioBlkId);
    DeleteChardevMatches(TestVirtioBlkId);
  }

  lemma AttachEngineFailsTrace(dir: string)
    ensures var a := AttachOn(dir, AlwaysFailing, []);
            && a == Attempt(Failure(FailedSpdkCall), [Qmp.QmpCapabilities])
            && Qmp.ServeIndex([], 0, AfterHandshake(a.commands)) == 0
            && Qmp.Misses([], 0, AfterHandshake(a.commands)) == []
  {
  }

  method CreateValid(dir: string) returns (r: Run<VirtioBlk>)
    ensures r.out == Success(TestVirtioBlk)
    ensures r.requests == AttachCommands(dir, TestVirtioBlkId)
    ensures r.performed && r.reported == []
  {
    var mon := new Qmp.MockQmpServer(dir);
    mon.ExpectAddChardev(TestVirtioBlkId);
    mon.ExpectAddVirtioBlk(TestVirtioBlkId, TestVirtioBlkId);
    assert mon.expectedCalls == [Qmp.AddChardevCall(dir, TestVirtioBlkId), Qmp.AddVirtioBlkCall(TestVirtioBlkId, TestVirtioBlkId)];
    AttachValidTrace(dir);
    var out := CreateVirtioBlk(KvmServer(AlwaysSuccessful, mon.socketPath, dir), mon, TestVirtioBlk);
    var performed := mon.WereExpectedCallsPerformed();
    r := Run(out, mon.requests, performed, mon.argumentErrors);
  }

  method CreateEngineFails(dir: string) returns (r: Run<VirtioBlk>)
    ensures r.out == Failure(FailedSpdkCall)
    ensures r.requests == [Qmp.QmpCapabilities]
    ensures r.performed && r.reported == []
  {
    var mon := new Qmp.MockQmpServer(dir);
    AttachEngineFailsTrace(dir);
    var out := CreateVirtioBlk(KvmServer(AlwaysFailing, mon.socketPath, dir), mon, TestVirtioBlk);
    var performed := mon.WereExpectedCallsPerformed();
    r := Run(out, mon.requests, performed, mon.argumentErrors);
  }

  method CreateChardevFails(dir: string) returns (r: Run<VirtioBlk>)
    ensures r.out == Failure(AddChardevFailed)
    ensures r.requests == [Qmp.QmpCapabilities, Qmp.ChardevAdd(TestVirtioBlkId, ResourceNames.JoinPath(dir, TestVirtioBlkId))]
    ensures r.performed && r.reported == []
  {
    var mon := new Qmp.MockQmpServer(dir);
    mon.ExpectAddChardev(TestVirtioBlkId);
    var panicked := mon.WithErrorResponse();
    assert mon.expectedCalls == [Qmp.AddChardevCall(dir, TestVirtioBlkId).(response := Qmp.GenericQmpError)];
    AttachChardevFailsTrace(dir);
    var out := CreateVirtioBlk(KvmServer(AlwaysSuccessful, mon.socketPath, dir), mon, TestVirtioBlk);
    var performed := mon.WereExpectedCallsPerformed();
    r := Run(out, mon.requests, performed, mon.argumentErrors);
  }

  method CreateDeviceFails(dir: string) returns (r: Run<VirtioBlk>)
    ensures r.out == Failure(AddDeviceFailed)
    ensures r.requests == AttachCommands(dir, TestVirtioBlkId) + [Qmp.ChardevRemove(TestVirtioBlkId)]
    ensures r.performed && r.reported == []
  {
    var mon := new Qmp.MockQmpServer(dir);
    mon.ExpectAddChardev(TestVirtioBlkId);
    mon.ExpectAddVirtioBlk(TestVirtioBlkId, TestVirtioBlkId);
    ghost var chardevCall := Qmp.AddChardevCall(dir, TestVirtioBlkId);
    ghost var deviceCall := Qmp.AddVirtioBlkCall(TestVirtioBlkId, TestVirtioBlkId);
    assert mon.expectedCalls == [chardevCall, deviceCall];
    var panicked := mon.WithErrorResponse();
    assert mon.expectedCalls[0] == chardevCall;
    assert mon.expectedCalls == [chardevCall, deviceCall.(response := Qmp.GenericQmpError)];
    mon.ExpectDeleteChardev(TestVirtioBlkId);
    assert mon.expectedCalls == [chardevCall, deviceCall.(response := Qmp.GenericQmpError), Qmp.DeleteChardevCall(TestVirtioBlkId)];
    AttachDeviceFailsTrace(dir);
    var out := CreateVirtioBlk(KvmServer(AlwaysSuccessful, mon.socketPath, dir), mon, TestVirtioBlk);
    var performed := mon.WereExpectedCallsPerformed();
    r := Run(out, mon.requests, performed, mon.argumentErrors);
  }

  method CreateMonitorUnreachable(dir: string) returns (r: Run<VirtioBlk>)
    ensures r.out == Failure(MonitorCreation)
    ensures r.requests == []
    ensures r.performed && r.reported == []
  {
    var mon := new Qmp.MockQmpServer(dir);
    SocketIsNotDevNull(dir);
    var out := CreateVirtioBlk(KvmServer(AlwaysSuccessful, "/dev/null", dir), mon, TestVirtioBlk);
    var performed := mon.WereExpectedCallsPerformed();
    r := Run(out, mon.requests, performed, mon.argumentErrors);
  }

  // ---------------------------------------------------------------------
  // Detach
  // ---------------------------------------------------------------------

  /** A device deletion call answered with `reply`, with or without the deletion event. */
  function DeviceDelCall(reply: Qmp.Reply, withEvent: bool): Qmp.MockCall {
    Qmp.DeleteVirtioBlkCall(TestVirtioBlkId).(response := reply,
                                               event := if withEvent then Some(Qmp.DeviceDeletedEvent(TestVirtioBlkId)) else None)
  }

  /** A chardev removal call answered with `reply`. */
  function ChardevRemoveCall(reply: Qmp.Reply): Qmp.MockCall {
    Qmp.DeleteChardevCall(TestVirtioBlkId).(response := reply)
  }

  lemma DetachTrace(dir: string, engine: StubJsonRpc, deviceReply: Qmp.Reply, withEvent: bool, chardevReply: Qmp.Reply)
    ensures var calls := [DeviceDelCall(deviceReply, withEvent), ChardevRemoveCall(chardevReply)];
            var a := DeleteAttempt(KvmServer(engine, Socket(dir), dir), Socket(dir), false, calls, 0, TestVirtioBlkId);
            && a.result == DetachOutcome(deviceReply.Return? && withEvent, chardevReply.Return?, engine.err.None?)
            && a.commands == DetachCommands(TestVirtioBlkId)
            && Qmp.ServeIndex(calls, 0, AfterHandshake(a.commands)) == 2
            && Qmp.Misses(calls, 0, AfterHandshake(a.commands)) == []
  {
    var calls := [DeviceDelCall(deviceReply, withEvent), ChardevRemoveCall(chardevReply)];
    var cmds := DetachCommands(TestVirtioBlkId);
    assert AfterHandshake(cmds) == [cmds[1], cmds[2]];
    ServeTwo(calls, 0, cmds[1], cmds[2]);
    DeleteVirtioBlkMatches(TestVirtioBlkId);
    DeleteChardevMatches(TestVirtioBlkId);
  }

  /** Detach over a mock scripted with the deletion (answered with `deviceReply`, with or without the event) and the chardev removal. */
  method RunDelete(dir: string, engine: StubJsonRpc, deviceReply: Qmp.Reply, withEvent: bool, chardevReply: Qmp.Reply)
    returns (r: Run<()>)
    requires deviceReply == Qmp.GenericQmpOk || deviceReply == Qmp.GenericQmpError
    requires chardevReply == Qmp.GenericQmpOk || chardevReply == Qmp.GenericQmpError
    ensures r.out == DetachOutcome(deviceReply.Return? && withEvent, chardevReply.Return?, engine.err.None?)
    ensures r.requests == DetachCommands(TestVirtioBlkId)
    ensures r.performed && r.reported == []
  {
    var mon := ScriptDelete(dir, deviceReply, withEvent, chardevReply);
    DetachTrace(dir, engine, deviceReply, withEvent, chardevReply);
    var out := DeleteVirtioBlk(KvmServer(engine, mon.socketPath, dir), mon, TestVirtioBlkId);
    var performed := mon.WereExpectedCallsPerformed();
    r := Run(out, mon.requests, performed, mon.argumentErrors);
  }

  /** A fresh mock scripted with the deletion and the chardev removal, nothing served yet. */
  method ScriptDelete(dir: string, deviceReply: Qmp.Reply, withEvent: bool, chardevReply: Qmp.Reply)
    returns (mon: Qmp.MockQmpServer)
    requires deviceReply == Qmp.GenericQmpOk || deviceReply == Qmp.GenericQmpError
    requires chardevReply == Qmp.GenericQmpOk || chardevReply == Qmp.GenericQmpError
    ensures fresh(mon) && mon.Valid()
    ensures mon.socketPath == Socket(dir) && !mon.accepted && mon.callIndex == 0
    ensures mon.expectedCalls == [DeviceDelCall(deviceReply, withEvent), ChardevRemoveCall(chardevReply)]
    ensures mon.requests == [] && mon.argumentErrors == []
  {
    mon := new Qmp.MockQmpServer(dir);
    if withEvent {
      mon.ExpectDeleteVirtioBlkWithEvent(TestVirtioBlkId);
    } else {
      mon.ExpectDeleteVirtioBlk(TestVirtioBlkId);
    }
    if deviceReply.QmpError? {
      var panicked := mon.WithErrorResponse();
    }
    assert mon.expectedCalls == [DeviceDelCall(deviceReply, withEvent)];
    mon.ExpectDeleteChardev(TestVirtioBlkId);
    assert mon.expectedCalls == [DeviceDelCall(deviceReply, withEvent), Qmp.DeleteChardevCall(TestVirtioBlkId)];
    if chardevReply.QmpError? {
      var panicked := mon.WithErrorResponse();
      assert mon.expectedCalls[0] == DeviceDelCall(deviceReply, withEvent);
    }
  }

  method DeleteValid(dir: string) returns (r: Run<()>)
    ensures r.out == Success(())
    ensures r.requests == DetachCommands(TestVirtioBlkId)
    ensures r.performed && r.reported == []
  {
    r := RunDelete(dir, AlwaysSuccessful, Qmp.GenericQmpOk, true, Qmp.GenericQmpOk);
  }

  method DeleteDeviceFails(dir: string) returns (r: Run<()>)
    ensures r.out == Failure(DevicePartiallyDeleted)
    ensures r.performed && r.reported == []
  {
    r := RunDelete(dir, AlwaysSuccessful, Qmp.GenericQmpError, false, Qmp.GenericQmpOk);
  }

  /** The deletion is answered but its event never comes. */
  method DeleteDeviceTimesOut(dir: string) returns (r: Run<()>)
    ensures r.out == Failure(DevicePartiallyDeleted)
    ensures r.performed && r.reported == []
  {
    r := RunDelete(dir, AlwaysSuccessful, Qmp.GenericQmpOk, false, Qmp.GenericQmpOk);
  }

  method DeleteChardevFails(dir: string) returns (r: Run<()>)
    ensures r.out == Failure(DevicePartiallyDeleted)
    ensures r.performed && r.reported == []
  {
    r := RunDelete(dir, AlwaysSuccessful, Qmp.GenericQmpOk, true, Qmp.GenericQmpError);
  }

  method DeleteEngineFails(dir: string) returns (r: Run<()>)
    ensures r.out == Failure(DevicePartiallyDeleted)
    ensures r.performed && r.reported == []
  {
    r := RunDelete(dir, AlwaysFailing, Qmp.GenericQmpOk, true, Qmp.GenericQmpOk);
  }

  method DeleteAllFail(dir: string) returns (r: Run<()>)
    ensures r.out == Failure(DeviceNotDeleted)
    ensures r.performed && r.reported == []
  {
    r := RunDelete(dir, AlwaysFailing, Qmp.GenericQmpError, false, Qmp.GenericQmpError);
  }

  method DeleteMonitorUnreachable(dir: string) returns (r: Run<()>)
    ensures r.out == Failure(MonitorCreation)
    ensures r.requests == []
    ensures r.performed && r.reported == []
  {
    var mon := new Qmp.MockQmpServer(dir);
    SocketIsNotDevNull(dir);
    var out := DeleteVirtioBlk(KvmServer(AlwaysSuccessful, "/dev/null", dir), mon, TestVirtioBlkId);
    var performed := mon.WereExpectedCallsPerformed();
    r := Run(out, mon.requests, performed, mon.argumentErrors);
  }
}
