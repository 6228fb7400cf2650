/** The single-unit program (src/rop.c): open the control channel, allocate
    a client, open and register unit 0, allocate a device and a subdevice
    under fixed handles, query the render-output-unit figures and print
    them. Every step is tried only if the ones before it worked, the first
    failure ends the program with exit code 1, and nothing is ever freed or
    closed: the process exit leaves that to the kernel. */
module RopSingle {
  import opened Protocol
  import opened Requests
  import opened Discipline
  import RmCalls

  /** The driver's answers for one run, one per call `main` can make. */
  datatype Script = Script(
    control: SysResult,
    client: Reply<Handle>,
    openResult: SysResult,
    registerResult: SysResult,
    device: Reply<Handle>,
    subdevice: Reply<Handle>,
    query: Reply<RopInfo>)

  // ---------------------------------------------------------------------
  // The wrappers

  /** The calls `open_nvidia0` makes: the open of unit 0 and, if it worked,
      the registration; the channel is not closed when registration fails. */
  function Nvidia0Events(openResult: SysResult, registerResult: SysResult): seq<Event>
  {
    [Open(Unit(0), openResult)] + if openResult.SysOk? then [Register(0, registerResult)] else []
  }

  /** open_nvidia0: succeeds iff the open and the registration both do. */
  method OpenNvidia0(openResult: SysResult, registerResult: SysResult) returns (ok: bool, ghost events: seq<Event>)
    ensures ok <==> openResult.SysOk? && registerResult.SysOk?
    ensures events == Nvidia0Events(openResult, registerResult)
  {
    events := [Open(Unit(0), openResult)];
    if openResult.SysFailed? {
      return false, events;
    }
    events := events + [Register(0, registerResult)];
    ok := registerResult.SysOk?;
  }

  /** alloc_client: an all-zero request; `*hClient` receives whatever handle
      the driver wrote back as soon as the transport completed, even when
      the status reports a failure. */
  method AllocClient(hClient: Handle, reply: Reply<Handle>) returns (ok: bool, hClient': Handle, req: ObjectRequest)
    ensures req == ObjectRequest(0, 0, 0, 0, NoParams, 0)
    ensures ok <==> reply.Completed? && reply.status == 0
    ensures hClient' == if reply.Completed? then reply.out else hClient
  {
    req := ClientRequest();
    if reply.TransportFailed? {
      return false, hClient, req;
    }
    hClient' := reply.out;
    ok := reply.status == 0;
  }

  /** alloc_device: `*hDevice` is set to the fixed handle before the call,
      and the request asks the driver to use that handle, with a zero
      parameter size. */
  method AllocDevice(hClient: Handle, reply: Reply<Handle>) returns (ok: bool, hDevice: Handle, req: ObjectRequest)
    ensures hDevice == 0xB1000000
    ensures req.hRoot == hClient && req.hObjectParent == hClient && req.hObjectNew == hDevice
    ensures req.hClass == 0x80 && req.paramsSize == 0
    ensures req == FixedDeviceRequest(hClient)
    ensures ok <==> reply.Completed? && reply.status == 0
  {
    hDevice := FixedDeviceHandle;
    req := ObjectRequest(hClient, hClient, hDevice, DeviceClass, DeviceParams(0), 0);
    if reply.TransportFailed? {
      return false, hDevice, req;
    }
    ok := reply.status == 0;
  }

  /** alloc_subdevice: the same, with the second fixed handle, under
      `hParentDevice`. */
  method AllocSubdevice(hClient: Handle, hParentDevice: Handle, reply: Reply<Handle>)
    returns (ok: bool, hSubDevice: Handle, req: ObjectRequest)
    ensures hSubDevice == 0xB2000000
    ensures req.hRoot == hClient && req.hObjectParent == hParentDevice && req.hObjectNew == hSubDevice
    ensures req.hClass == 0x2080 && req.paramsSize == 0
    ensures req == FixedSubdeviceRequest(hClient, hParentDevice)
    ensures ok <==> reply.Completed? && reply.status == 0
  {
    hSubDevice := FixedSubdeviceHandle;
    req := ObjectRequest(hClient, hParentDevice, hSubDevice, SubdeviceClass, SubdeviceParams(0), 0);
    if reply.TransportFailed? {
      return false, hSubDevice, req;
    }
    ok := reply.status == 0;
  }

  // ---------------------------------------------------------------------
  // The run

  /** The requests after unit 0 is registered: the device, the subdevice if
      the device was allocated, the query if the subdevice was. */
  function UnitRequests(hClient: Handle, s: Script): seq<Event>
  {
    [Alloc(FixedDeviceRequest(hClient), s.device)] +
    if !Succeeded(s.device) then []
    else
      [Alloc(FixedSubdeviceRequest(hClient, FixedDeviceHandle), s.subdevice)] +
      if !Succeeded(s.subdevice) then [] else [Query(RopInfoRequest(hClient, FixedSubdeviceHandle), s.query)]
  }

  function Prologue(s: Script): seq<Event>
  {
    [Open(Control, s.control), Alloc(ClientRequest(), s.client)]
  }

  /** The exit code, the calls made, and the figures printed (if any). */
  datatype SessionResult = SessionResult(exit: int, log: seq<Event>, report: Option<RopInfo>)

  /** What `main` does, as a function of the answers it receives. */
  function Session(s: Script): SessionResult
  {
    if s.control.SysFailed? then SessionResult(1, [Open(Control, s.control)], None)
    else if !Succeeded(s.client) then SessionResult(1, Prologue(s), None)
    else if !RmCalls.ProbeOk(s.openResult, s.registerResult) then
      SessionResult(1, Prologue(s) + Nvidia0Events(s.openResult, s.registerResult), None)
    else
      var log := Prologue(s) + Nvidia0Events(s.openResult, s.registerResult) + UnitRequests(s.client.out, s);
      if Succeeded(s.device) && Succeeded(s.subdevice) && Succeeded(s.query) then
        SessionResult(0, log, Some(s.query.out))
      else
        SessionResult(1, log, None)
  }

  /** `main`: returns the exit code and the figures printed; `log` records
      every call made. The handle variable starts at 0 here. */
  method Run(s: Script) returns (ret: int, ghost log: seq<Event>, report: Option<RopInfo>)
    ensures ret == Session(s).exit
    ensures log == Session(s).log
    ensures report == Session(s).report
  {
    report := None;
    log := [Open(Control, s.control)];
    if s.control.SysFailed? {
      return 1, log, report;
    }

    var hClient: Handle := 0;
    var ok, req;
    ok, hClient, req := AllocClient(hClient, s.client);
    log := log + [Alloc(req, s.client)];
    if !ok {
      return 1, log, report;
    }

    ghost var probe;
    ok, probe := OpenNvidia0(s.openResult, s.registerResult);
    log := log + probe;
    if !ok {
      return 1, log, report;
    }

    ghost var start := log;
    var hDevice;
    ok, hDevice, req := AllocDevice(hClient, s.device);
    log := log + [Alloc(req, s.device)];
    if !ok {
      assert log == start + UnitRequests(hClient, s);
      return 1, log, report;
    }

    var hSubDevice;
    ok, hSubDevice, req := AllocSubdevice(hClient, hDevice, s.subdevice);
    log := log + [Alloc(req, s.subdevice)];
    if !ok {
      assert log == start + UnitRequests(hClient, s);
      return 1, log, report;
    }

    var info, qreq;
    ok, info, qreq := RmCalls.GetRopCount(hClient, hSubDevice, s.query);
    log := log + [Query(qreq, s.query)];
    assert log == start + UnitRequests(hClient, s);
    if !ok {
      return 1, log, report;
    }
    return 0, log, Some(info);
  }

  // ---------------------------------------------------------------------
  // Properties of a run

  /** The seven calls of a run in which nothing fails, in order. */
  function Plan(s: Script): seq<Event>
  {
    var hClient := if s.client.Completed? then s.client.out else 0;
    [Open(Control, s.control),
     Alloc(ClientRequest(), s.client),
     Open(Unit(0), s.openResult),
     Register(0, s.registerResult),
     Alloc(FixedDeviceRequest(hClient), s.device),
     Alloc(FixedSubdeviceRequest(hClient, FixedDeviceHandle), s.subdevice),
     Query(RopInfoRequest(hClient, FixedSubdeviceHandle), s.query)]
  }

  /** Whether each of the seven calls worked, in order. */
  function StepResults(s: Script): seq<bool>
  {
    [s.control.SysOk?, Succeeded(s.client), s.openResult.SysOk?, s.registerResult.SysOk?,
     Succeeded(s.device), Succeeded(s.subdevice), Succeeded(s.query)]
  }

  /** The index of the first false entry, or |oks| if there is none. */
  function FirstFailure(oks: seq<bool>): (k: nat)
    ensures k <= |oks|
    ensures forall j :: 0 <= j < k ==> oks[j]
    ensures k < |oks| ==> !oks[k]
    decreases |oks|
  {
    if oks == [] then 0
    else if !oks[0] then 0
    else 1 + FirstFailure(oks[1..])
  }

  /** The first failure is at `k` when every entry before `k` is true and
      the one at `k` (if any) is false. */
  lemma {:induction false} FirstFailureAt(oks: seq<bool>, k: nat)
    requires k <= |oks|
    requires forall j :: 0 <= j < k ==> oks[j]
    requires k < |oks| ==> !oks[k]
    ensures FirstFailure(oks) == k
    decreases k
  {
    if k > 0 {
      assert oks[0];
      forall j | 0 <= j < k - 1
        ensures oks[1..][j]
      {
        assert oks[1..][j] == oks[j + 1];
      }
      FirstFailureAt(oks[1..], k - 1);
    }
  }

  /** How many calls a run makes: up to and including the first failing
      one, or all seven. */
  function CallsMade(s: Script): nat
  {
    var k := FirstFailure(StepResults(s));
    if k < 7 then k + 1 else 7
  }

  /** `main` follows the plan and stops right after the first call that
      fails; it exits with 0, printing the query's figures, exactly when no
      call fails. */
  lemma SessionFollowsPlan(s: Script)
    ensures Session(s).log == Plan(s)[..CallsMade(s)]
    ensures Session(s).exit == (if FirstFailure(StepResults(s)) == 7 then 0 else 1)
    ensures Session(s).report == (if FirstFailure(StepResults(s)) == 7 then Some(s.query.out) else None)
  {
    var oks := StepResults(s);
    var p := Plan(s);
    if !s.control.SysOk? {
      FirstFailureAt(oks, 0);
      assert p[..1] == [p[0]];
    } else if !Succeeded(s.client) {
      FirstFailureAt(oks, 1);
      assert p[..2] == Prologue(s);
    } else if !s.openResult.SysOk? {
      FirstFailureAt(oks, 2);
      assert p[..3] == Prologue(s) + Nvidia0Events(s.openResult, s.registerResult);
    } else if !s.registerResult.SysOk? {
      FirstFailureAt(oks, 3);
      assert p[..4] == Prologue(s) + Nvidia0Events(s.openResult, s.registerResult);
    } else {
      FollowsPlanAfterProbe(s);
    }
  }

  lemma FollowsPlanAfterProbe(s: Script)
    requires s.control.SysOk? && Succeeded(s.client) && s.openResult.SysOk? && s.registerResult.SysOk?
    ensures Session(s).log == Plan(s)[..CallsMade(s)]
    ensures Session(s).exit == (if FirstFailure(StepResults(s)) == 7 then 0 else 1)
    ensures Session(s).report == (if FirstFailure(StepResults(s)) == 7 then Some(s.query.out) else None)
  {
    var oks := StepResults(s);
    var p := Plan(s);
    var head := Prologue(s) + Nvidia0Events(s.openResult, s.registerResult);
    assert head == p[..4];
    if !Succeeded(s.device) {
      FirstFailureAt(oks, 4);
      assert p[..5] == head + [p[4]];
    } else if !Succeeded(s.subdevice) {
      FirstFailureAt(oks, 5);
      assert p[..6] == head + [p[4], p[5]];
    } else {
      FirstFailureAt(oks, if Succeeded(s.query) then 7 else 6);
      assert p[..7] == head + [p[4], p[5], p[6]];
    }
  }

  /** The objects a run creates, in order: the client, and under it the
      device and then the subdevice at their fixed handles. */
  function HeldAtExit(s: Script): seq<HeldObject>
  {
    if s.control.SysFailed? || !Succeeded(s.client) then []
    else
      [HeldObject(s.client.out, ClientClass)] +
      if !RmCalls.ProbeOk(s.openResult, s.registerResult) || !Succeeded(s.device) then []
      else
        [HeldObject(FixedDeviceHandle, DeviceClass)] +
        if Succeeded(s.subdevice) then [HeldObject(FixedSubdeviceHandle, SubdeviceClass)] else []
  }

  /** The channels a run leaves open: the control channel once opened, and
      unit 0's channel once opened, registered or not. */
  function OpenAtExit(s: Script): set<Channel>
  {
    if s.control.SysFailed? then {}
    else if !Succeeded(s.client) || s.openResult.SysFailed? then {Control}
    else {Control, Unit(0)}
  }

  /** Every handle is named only while held with the right class, and the
      program still holds everything it created when it exits: nothing is
      freed. */
  lemma SessionHandles(s: Script)
    ensures HandleReplay([], Session(s).log) == Some(HeldAtExit(s))
    ensures FreedIn(Session(s).log) == []
  {
    if s.control.SysFailed? {
      assert Session(s).log[1..] == [];
    } else if !Succeeded(s.client) {
      PrologueFacts(s);
    } else if !RmCalls.ProbeOk(s.openResult, s.registerResult) {
      var c := HeldObject(s.client.out, ClientClass);
      HandlesBeforeUnit(s);
      assert Session(s).log == Prologue(s) + Nvidia0Events(s.openResult, s.registerResult);
      assert HeldAtExit(s) == [c] + [];
      assert [c] + [] == [c];
    } else {
      HandlesBeforeUnit(s);
      HandlesAfterProbe(s);
    }
  }

  /** The calls up to the registration of unit 0 hold exactly the client. */
  lemma HandlesBeforeUnit(s: Script)
    requires s.control.SysOk? && Succeeded(s.client)
    ensures HandleReplay([], Prologue(s) + Nvidia0Events(s.openResult, s.registerResult)) ==
            Some([HeldObject(s.client.out, ClientClass)])
    ensures FreedIn(Prologue(s) + Nvidia0Events(s.openResult, s.registerResult)) == []
  {
    var probe := Nvidia0Events(s.openResult, s.registerResult);
    PrologueFacts(s);
    ProbeFacts([HeldObject(s.client.out, ClientClass)], s.openResult, s.registerResult);
    HandleReplayAppend([], Prologue(s), probe);
    FreedInAppend(Prologue(s), probe);
  }

  lemma HandlesAfterProbe(s: Script)
    requires s.control.SysOk? && Succeeded(s.client) && RmCalls.ProbeOk(s.openResult, s.registerResult)
    requires HandleReplay([], Prologue(s) + Nvidia0Events(s.openResult, s.registerResult)) ==
             Some([HeldObject(s.client.out, ClientClass)])
    requires FreedIn(Prologue(s) + Nvidia0Events(s.openResult, s.registerResult)) == []
    ensures HandleReplay([], Session(s).log) == Some(HeldAtExit(s))
    ensures FreedIn(Session(s).log) == []
  {
    var head := Prologue(s) + Nvidia0Events(s.openResult, s.registerResult);
    var reqs := UnitRequests(s.client.out, s);
    assert Session(s).log == head + reqs;
    RequestsHandles(s, [HeldObject(s.client.out, ClientClass)]);
    HandleReplayAppend([], head, reqs);
    FreedInAppend(head, reqs);
  }

  /** Every call goes over an open channel, and the program exits with the
      channels it opened still open: nothing is closed. */
  lemma SessionChannels(s: Script)
    ensures ChannelReplay({}, Session(s).log) == Some(OpenAtExit(s))
    ensures ClosedIn(Session(s).log) == []
  {
    assert {} + {Control} == {Control};
    if s.control.SysFailed? {
      assert Session(s).log[1..] == [];
    } else if !Succeeded(s.client) {
      PrologueFacts(s);
    } else if !RmCalls.ProbeOk(s.openResult, s.registerResult) {
      ChannelsBeforeUnit(s);
    } else {
      ChannelsBeforeUnit(s);
      ChannelsAfterProbe(s);
    }
  }

  lemma ChannelsBeforeUnit(s: Script)
    requires s.control.SysOk? && Succeeded(s.client)
    ensures ChannelReplay({}, Prologue(s) + Nvidia0Events(s.openResult, s.registerResult)) == Some(OpenAtExit(s))
    ensures ClosedIn(Prologue(s) + Nvidia0Events(s.openResult, s.registerResult)) == []
  {
    var probe := Nvidia0Events(s.openResult, s.registerResult);
    PrologueFacts(s);
    ProbeChannels(s.openResult, s.registerResult);
    ChannelReplayAppend({}, Prologue(s), probe);
    ClosedInAppend(Prologue(s), probe);
  }

  lemma ChannelsAfterProbe(s: Script)
    requires s.control.SysOk? && Succeeded(s.client) && RmCalls.ProbeOk(s.openResult, s.registerResult)
    requires ChannelReplay({}, Prologue(s) + Nvidia0Events(s.openResult, s.registerResult)) == Some(OpenAtExit(s))
    requires ClosedIn(Prologue(s) + Nvidia0Events(s.openResult, s.registerResult)) == []
    ensures ChannelReplay({}, Session(s).log) == Some(OpenAtExit(s))
    ensures ClosedIn(Session(s).log) == []
  {
    var head := Prologue(s) + Nvidia0Events(s.openResult, s.registerResult);
    var reqs := UnitRequests(s.client.out, s);
    assert Session(s).log == head + reqs;
    assert OpenAtExit(s) == {Control, Unit(0)};
    RequestsHandles(s, [HeldObject(s.client.out, ClientClass)]);
    RequestsOnlyFacts({Control, Unit(0)}, reqs);
    ChannelReplayAppend({}, head, reqs);
    ClosedInAppend(head, reqs);
  }

  lemma PrologueFacts(s: Script)
    requires s.control.SysOk?
    ensures FreedIn(Prologue(s)) == [] && ClosedIn(Prologue(s)) == []
    ensures ChannelReplay({}, Prologue(s)) == Some({Control})
    ensures HandleReplay([], Prologue(s)) ==
            Some(if Succeeded(s.client) then [HeldObject(s.client.out, ClientClass)] else [])
  {
    var log := Prologue(s);
    var rest := [Alloc(ClientRequest(), s.client)];
    assert log[1..] == rest;
    assert {} + {Control} == {Control};
    assert ChannelReplay({Control}, rest) == Some({Control});
    assert FreedIn(rest) == [] && ClosedIn(rest) == [];
    if Succeeded(s.client) {
      var held := [HeldObject(s.client.out, ClientClass)];
      assert HandleStep([], rest[0]) == Some([] + held);
      assert [] + held == held;
      assert HandleReplay([], rest) == Some(held);
    } else {
      assert HandleReplay([], rest) == Some([]);
    }
  }

  /** open_nvidia0 names no handle and frees and closes nothing. */
  lemma ProbeFacts(held: seq<HeldObject>, openResult: SysResult, registerResult: SysResult)
    ensures HandleReplay(held, Nvidia0Events(openResult, registerResult)) == Some(held)
    ensures FreedIn(Nvidia0Events(openResult, registerResult)) == []
  {
    var events := Nvidia0Events(openResult, registerResult);
    if openResult.SysOk? {
      assert events[1..] == [Register(0, registerResult)];
      assert events[1..][1..] == [];
      assert HandleReplay(held, events[1..]) == Some(held);
      assert FreedIn(events[1..]) == [];
    } else {
      assert events[1..] == [];
    }
  }

  /** open_nvidia0 leaves unit 0's channel open once the open worked. */
  lemma ProbeChannels(openResult: SysResult, registerResult: SysResult)
    ensures ChannelReplay({Control}, Nvidia0Events(openResult, registerResult)) ==
            Some(if openResult.SysOk? then {Control, Unit(0)} else {Control})
    ensures ClosedIn(Nvidia0Events(openResult, registerResult)) == []
  {
    var events := Nvidia0Events(openResult, registerResult);
    assert {Control} - {Control} == {};
    if openResult.SysOk? {
      assert {Control} + {Unit(0)} == {Control, Unit(0)};
      assert events[1..] == [Register(0, registerResult)];
      assert events[1..][1..] == [];
      assert ChannelReplay({Control, Unit(0)}, events[1..]) == Some({Control, Unit(0)});
      assert ClosedIn(events[1..]) == [];
    } else {
      assert events[1..] == [];
    }
  }

  /** The device is allocated under the held client, the subdevice under
      the device just allocated, and the query names that subdevice. */
  lemma RequestsHandles(s: Script, held: seq<HeldObject>)
    requires Succeeded(s.client) && held == [HeldObject(s.client.out, ClientClass)]
    ensures RequestsOnly(UnitRequests(s.client.out, s))
    ensures HandleReplay(held, UnitRequests(s.client.out, s)) ==
            Some(held + if !Succeeded(s.device) then []
                        else [HeldObject(FixedDeviceHandle, DeviceClass)] +
                             if Succeeded(s.subdevice) then [HeldObject(FixedSubdeviceHandle, SubdeviceClass)] else [])
    ensures FreedIn(UnitRequests(s.client.out, s)) == []
  {
    var h := s.client.out;
    var reqs := UnitRequests(h, s);
    var d := HeldObject(FixedDeviceHandle, DeviceClass);
    var sub := HeldObject(FixedSubdeviceHandle, SubdeviceClass);
    RequestsOnlyFacts({Control}, reqs) by {
      assert RequestsOnly(reqs);
    }
    if Succeeded(s.device) {
      assert HandleStep(held, reqs[0]) == Some(held + [d]);
      var rest := reqs[1..];
      if Succeeded(s.subdevice) {
        assert Holds(held + [d, sub], h, ClientClass);
        assert (held + [d]) + [sub] == held + [d, sub];
        assert HandleStep(held + [d], rest[0]) == Some(held + [d, sub]);
        assert rest[1..] == [Query(RopInfoRequest(h, FixedSubdeviceHandle), s.query)];
        assert HandleReplay(held + [d, sub], rest[1..]) == Some(held + [d, sub]);
        assert HandleReplay(held + [d], rest) == Some(held + [d, sub]);
        assert [d] + [sub] == [d, sub];
      } else {
        assert rest == [Alloc(FixedSubdeviceRequest(h, FixedDeviceHandle), s.subdevice)];
        assert rest[1..] == [];
        assert HandleStep(held + [d], rest[0]) == Some(held + [d]);
        assert HandleReplay(held + [d], rest) == Some(held + [d]);
        assert [d] + [] == [d];
      }
    } else {
      assert reqs == [Alloc(FixedDeviceRequest(h), s.device)];
      assert reqs[1..] == [];
      assert HandleStep(held, reqs[0]) == Some(held);
      assert held + [] == held;
    }
  }
}
