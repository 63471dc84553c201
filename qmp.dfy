/**
 * The monitor side of the virtio-blk tests: the commands of the QEMU
 * Machine Protocol (QMP) that the bridge sends, the replies and events it
 * reads back, and the scripted mock monitor that answers them. The mock
 * holds an ordered list of expected calls and a counter of the calls it has
 * served; after its greeting it answers the capabilities negotiation and
 * then each expected call in turn, reporting every expected argument a
 * request lacks.
 */
module Qmp {
  import opened Wrappers
  import ResourceNames

  // ---------------------------------------------------------------------
  // Commands, replies, events
  // ---------------------------------------------------------------------

  /** One `"key":"value"` member of a command, as the mock looks for it in a request. */
  datatype Member = Member(key: string, value: string)

  datatype Command =
    | QmpCapabilities
    | ChardevAdd(id: string, path: string)
    | ChardevRemove(id: string)
    | DeviceAdd(driver: string, id: string, chardev: string)
    | DeviceDel(id: string)

  /** The `execute` name of a command. */
  function Execute(c: Command): string {
    match c
    case QmpCapabilities => "qmp_capabilities"
    case ChardevAdd(_, _) => "chardev-add"
    case ChardevRemove(_) => "chardev-remove"
    case DeviceAdd(_, _, _) => "device_add"
    case DeviceDel(_) => "device_del"
  }

  /** The members a request for a command carries (only the ones the mock can look for). */
  function Members(c: Command): seq<Member> {
    [Member("execute", Execute(c))] +
    match c
    case QmpCapabilities => []
    case ChardevAdd(id, path) => [Member("id", id), Member("path", path)]
    case ChardevRemove(id) => [Member("id", id)]
    case DeviceAdd(driver, id, chardev) => [Member("driver", driver), Member("id", id), Member("chardev", chardev)]
    case DeviceDel(id) => [Member("id", id)]
  }

  /** A reply: success (with the pty a chardev got, if any) or an error with its class and description. */
  datatype Reply =
    | Return(pty: Option<string>)
    | QmpError(errorClass: string, desc: string)

  /** An asynchronous event: a device is gone. */
  datatype Event = DeviceDeleted(device: string, path: string)

  /** What the monitor sends back for one request: a reply, possibly followed by an event. */
  datatype Answer = Answer(reply: Reply, event: Option<Event>)

  const GenericQmpOk: Reply := Return(None)
  const GenericQmpError: Reply := QmpError("GenericError", "some error")

  // ---------------------------------------------------------------------
  // The mock's script
  // ---------------------------------------------------------------------

  /** One scripted call: the reply to send, an optional event after it, and the members the request must carry. */
  datatype MockCall = MockCall(response: Reply, event: Option<Event>, expectedArgs: seq<Member>)

  const CapabilitiesNegotiation: MockCall :=
    MockCall(GenericQmpOk, None, [Member("execute", "qmp_capabilities")])

  /** The name of the monitor socket inside the test directory. */
  const SocketName: string := "qmp.sock"

  function AddChardevCall(dir: string, id: string): MockCall {
    MockCall(Return(Some("/tmp/dev/pty/42")), None,
      [Member("execute", "chardev-add"), Member("id", id), Member("path", ResourceNames.JoinPath(dir, id))])
  }

  function AddVirtioBlkCall(id: string, chardevId: string): MockCall {
    MockCall(GenericQmpOk, None,
      [Member("execute", "device_add"), Member("driver", "vhost-user-blk-pci"), Member("id", id), Member("chardev", chardevId)])
  }

  function DeleteChardevCall(id: string): MockCall {
    MockCall(GenericQmpOk, None, [Member("execute", "chardev-remove"), Member("id", id)])
  }

  function DeleteVirtioBlkCall(id: string): MockCall {
    MockCall(GenericQmpOk, None, [Member("execute", "device_del"), Member("id", id)])
  }

  /** The event the mock sends after a device deletion that completes. */
  function DeviceDeletedEvent(id: string): Event {
    DeviceDeleted(id, "/some/path")
  }

  /** The expected arguments a request lacks, in script order. */
  function MissingArgs(args: seq<Member>, c: Command): seq<Member> {
    if args == [] then []
    else
      var last := args[|args| - 1];
      MissingArgs(args[..|args| - 1], c) + (if last in Members(c) then [] else [last])
  }

  /** An argument is reported missing exactly when it is expected and the request does not carry it. */
  lemma {:induction false} MissingArgsMembers(args: seq<Member>, c: Command)
    ensures forall m :: m in MissingArgs(args, c) <==> m in args && m !in Members(c)
  {
    if args != [] {
      var last := args[|args| - 1];
      assert args == args[..|args| - 1] + [last];
      MissingArgsMembers(args[..|args| - 1], c);
    }
  }

  /** A request carrying every expected argument leaves nothing missing. */
  lemma {:induction false} MissingArgsNone(args: seq<Member>, c: Command)
    requires forall i :: 0 <= i < |args| ==> args[i] in Members(c)
    ensures MissingArgs(args, c) == []
  {
    if args != [] {
      MissingArgsNone(args[..|args| - 1], c);
    }
  }

  /** Checking one more argument extends the missing list by that argument alone, if it is missing. */
  lemma MissingArgsSnoc(args: seq<Member>, i: nat, c: Command)
    requires i < |args|
    ensures MissingArgs(args[..i + 1], c) == MissingArgs(args[..i], c) + (if args[i] in Members(c) then [] else [args[i]])
  {
    assert args[..i + 1][..i] == args[..i];
  }

  /** The answer the mock gives for the call at `index`, if the script has one. */
  function AnswerAt(calls: seq<MockCall>, index: nat): Option<Answer> {
    if index < |calls| then Some(Answer(calls[index].response, calls[index].event)) else None
  }

  /** The counter after one more request: it moves on while scripted calls remain. */
  function NextIndex(calls: seq<MockCall>, index: nat): nat {
    if index < |calls| then index + 1 else index
  }

  /** The counter after a sequence of requests. */
  function ServeIndex(calls: seq<MockCall>, index: nat, cmds: seq<Command>): nat {
    if cmds == [] then index
    else NextIndex(calls, ServeIndex(calls, index, cmds[..|cmds| - 1]))
  }

  /** The arguments reported missing while serving the call at `index` with `c` (none once the script is exhausted). */
  function StepMisses(calls: seq<MockCall>, index: nat, c: Command): seq<Member> {
    if index < |calls| then MissingArgs(calls[index].expectedArgs, c) else []
  }

  /** The arguments reported missing over a sequence of requests. */
  function Misses(calls: seq<MockCall>, index: nat, cmds: seq<Command>): seq<Member> {
    if cmds == [] then []
    else
      var init := cmds[..|cmds| - 1];
      Misses(calls, index, init) + StepMisses(calls, ServeIndex(calls, index, init), cmds[|cmds| - 1])
  }

  /** The counter goes up by one per request until the script is exhausted, and never past it. */
  lemma {:induction false} ServeIndexClosedForm(calls: seq<MockCall>, index: nat, cmds: seq<Command>)
    requires index <= |calls|
    ensures ServeIndex(calls, index, cmds) == if index + |cmds| <= |calls| then index + |cmds| else |calls|
  {
    if cmds != [] {
      ServeIndexClosedForm(calls, index, cmds[..|cmds| - 1]);
    }
  }

  /** A request sequence that matches the script call by call leaves nothing reported missing. */
  lemma {:induction false} MissesNoneWhenMatching(calls: seq<MockCall>, index: nat, cmds: seq<Command>)
    requires index + |cmds| <= |calls|
    requires forall k :: 0 <= k < |cmds| ==> MissingArgs(calls[index + k].expectedArgs, cmds[k]) == []
    ensures Misses(calls, index, cmds) == []
  {
    if cmds != [] {
      var init := cmds[..|cmds| - 1];
      MissesNoneWhenMatching(calls, index, init);
      ServeIndexClosedForm(calls, index, init);
      assert MissingArgs(calls[index + |init|].expectedArgs, cmds[|init|]) == [];
    }
  }

  // ---------------------------------------------------------------------
  // The mock monitor
  // ---------------------------------------------------------------------

  class MockQmpServer {
    const testDir: string
    const socketPath: string
    const capabilitiesNegotiation: MockCall
    /** The scripted calls, in the order they must arrive. */
    var expectedCalls: seq<MockCall>
    /** How many scripted calls have been served. */
    var callIndex: nat
    /** Whether a client has connected (the mock accepts one connection). */
    var accepted: bool
    /** Every request a client wrote to the socket, handshake included. */
    var requests: seq<Command>
    /** The expected arguments found missing, each one a reported test error. */
    var argumentErrors: seq<Member>

    ghost predicate Valid()
      reads this
    {
      && socketPath == ResourceNames.JoinPath(testDir, SocketName)
      && capabilitiesNegotiation == CapabilitiesNegotiation
      && callIndex <= |expectedCalls|
    }

    /** A mock listening on `qmp.sock` inside `testDir`, with an empty script. */
    constructor (testDir: string)
      ensures Valid()
      ensures this.testDir == testDir && socketPath == ResourceNames.JoinPath(testDir, SocketName)
      ensures capabilitiesNegotiation == CapabilitiesNegotiation
      ensures expectedCalls == [] && callIndex == 0 && !accepted
      ensures requests == [] && argumentErrors == []
    {
      this.testDir := testDir;
      socketPath := ResourceNames.JoinPath(testDir, SocketName);
      capabilitiesNegotiation := CapabilitiesNegotiation;
      expectedCalls := [];
      callIndex := 0;
      accepted := false;
      requests := [];
      argumentErrors := [];
    }

    method ExpectAddChardev(id: string)
      requires Valid()
      modifies this
      ensures Valid()
      ensures expectedCalls == old(expectedCalls) + [AddChardevCall(testDir, id)]
      ensures callIndex == old(callIndex) && accepted == old(accepted)
      ensures requests == old(requests) && argumentErrors == old(argumentErrors)
    {
      expectedCalls := expectedCalls + [AddChardevCall(testDir, id)];
    }

    method ExpectAddVirtioBlk(id: string, chardevId: string)
      requires Valid()
      modifies this
      ensures Valid()
      ensures expectedCalls == old(expectedCalls) + [AddVirtioBlkCall(id, chardevId)]
      ensures callIndex == old(callIndex) && accepted == old(accepted)
      ensures requests == old(requests) && argumentErrors == old(argumentErrors)
    {
      expectedCalls := expectedCalls + [AddVirtioBlkCall(id, chardevId)];
    }

    method ExpectDeleteChardev(id: string)
      requires Valid()
      modifies this
      ensures Valid()
      ensures expectedCalls == old(expectedCalls) + [DeleteChardevCall(id)]
      ensures callIndex == old(callIndex) && accepted == old(accepted)
      ensures requests == old(requests) && argumentErrors == old(argumentErrors)
    {
      expectedCalls := expectedCalls + [DeleteChardevCall(id)];
    }

    method ExpectDeleteVirtioBlk(id: string)
      requires Valid()
      modifies this
      ensures Valid()
      ensures expectedCalls == old(expectedCalls) + [DeleteVirtioBlkCall(id)]
      ensures callIndex == old(callIndex) && accepted == old(accepted)
      ensures requests == old(requests) && argumentErrors == old(argumentErrors)
    {
      expectedCalls := expectedCalls + [DeleteVirtioBlkCall(id)];
    }

    /** A device deletion that completes: the reply is followed by the deletion event for `id`. */
    method ExpectDeleteVirtioBlkWithEvent(id: string)
      requires Valid()
      modifies this
      ensures Valid()
      ensures expectedCalls == old(expectedCalls) + [DeleteVirtioBlkCall(id).(event := Some(DeviceDeletedEvent(id)))]
      ensures callIndex == old(callIndex) && accepted == old(accepted)
      ensures requests == old(requests) && argumentErrors == old(argumentErrors)
    {
      ExpectDeleteVirtioBlk(id);
      var last := expectedCalls[|expectedCalls| - 1];
      expectedCalls := expectedCalls[..|expectedCalls| - 1] + [last.(event := Some(DeviceDeletedEvent(id)))];
    }

    /**
     * Turns the reply of the last scripted call into an error and leaves
     * everything else as it was; with an empty script there is nothing to
     * change and the mock gives up (`panicked`).
     */
    method WithErrorResponse() returns (panicked: bool)
      requires Valid()
      modifies this
      ensures Valid()
      ensures panicked <==> old(expectedCalls) == []
      ensures |expectedCalls| == |old(expectedCalls)|
      ensures forall i :: 0 <= i < |expectedCalls| - 1 ==> expectedCalls[i] == old(expectedCalls)[i]
      ensures !panicked ==> expectedCalls[|expectedCalls| - 1]
                              == old(expectedCalls)[|expectedCalls| - 1].(response := GenericQmpError)
      ensures callIndex == old(callIndex) && accepted == old(accepted)
      ensures requests == old(requests) && argumentErrors == old(argumentErrors)
    {
      if expectedCalls == [] {
        return true;
      }
      var last := expectedCalls[|expectedCalls| - 1];
      expectedCalls := expectedCalls[..|expectedCalls| - 1] + [last.(response := GenericQmpError)];
      return false;
    }

    /** Whether every scripted call has been served. */
    method WereExpectedCallsPerformed() returns (ok: bool)
      ensures ok <==> callIndex == |expectedCalls|
    {
      ok := callIndex == |expectedCalls|;
    }

    /** A client connects; the mock sends its greeting. */
    method Accept()
      requires !accepted
      modifies this
      ensures accepted
      ensures expectedCalls == old(expectedCalls) && callIndex == old(callIndex)
      ensures requests == old(requests) && argumentErrors == old(argumentErrors)
    {
      accepted := true;
    }

    /**
     * Serves one request with `call`: reports each expected argument the
     * request lacks, then answers with the call's reply and event.
     */
    method HandleCall(call: MockCall, req: Command) returns (answer: Answer)
      requires accepted
      modifies this
      ensures answer == Answer(call.response, call.event)
      ensures requests == old(requests) + [req]
      ensures argumentErrors == old(argumentErrors) + MissingArgs(call.expectedArgs, req)
      ensures expectedCalls == old(expectedCalls) && callIndex == old(callIndex) && accepted
    {
      var members := Members(req);
      var missing: seq<Member> := [];
      var i := 0;
      while i < |call.expectedArgs|
        invariant 0 <= i <= |call.expectedArgs|
        invariant missing == MissingArgs(call.expectedArgs[..i], req)
        modifies {}
      {
        var arg := call.expectedArgs[i];
        MissingArgsSnoc(call.expectedArgs, i, req);
        if arg !in members {
          missing := missing + [arg];
        }
        i := i + 1;
      }
      assert call.expectedArgs[..i] == call.expectedArgs;
      requests := requests + [req];
      argumentErrors := argumentErrors + missing;
      answer := Answer(call.response, call.event);
    }

    /**
     * Serves one request with the next scripted call and moves the counter
     * on by one; once the script is exhausted nobody reads the request and
     * no answer comes.
     */
    method HandleExpectedCall(req: Command) returns (answer: Option<Answer>)
      requires Valid() && accepted
      modifies this
      ensures Valid() && accepted
      ensures answer == AnswerAt(old(expectedCalls), old(callIndex))
      ensures callIndex == NextIndex(old(expectedCalls), old(callIndex))
      ensures requests == old(requests) + [req]
      ensures argumentErrors == old(argumentErrors) + StepMisses(old(expectedCalls), old(callIndex), req)
      ensures expectedCalls == old(expectedCalls)
    {
      if callIndex < |expectedCalls| {
        var a := HandleCall(expectedCalls[callIndex], req);
        callIndex := callIndex + 1;
        answer := Some(a);
      } else {
        requests := requests + [req];
        answer := None;
      }
    }
  }
}
