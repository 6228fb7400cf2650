/** The multi-unit program with unit names (src/ropnvml.c): the same
    enumeration as the plain multi-unit program, but every handle it
    allocates is freed again, in reverse order of allocation, and each
    processed unit is reported under the name the NVML library gives it, or
    "Unknown" when the lookup fails. */
module RopNvml {
  import opened Protocol
  import opened Requests
  import opened Discipline
  import opened RmCalls
  import RopMulti

  /** The answers only this program receives for one unit: the NVML name
      lookup and the replies to the two frees. */
  datatype UnitExtras = UnitExtras(name: Option<string>, freeSubdevice: Reply<()>, freeDevice: Reply<()>)

  /** The driver's and the library's answers for one run: those the plain
      multi-unit program also receives, one `UnitExtras` per unit, and the
      reply to the client free. */
  datatype Script = Script(common: RopMulti.Script, extras: seq<UnitExtras>, clientFree: Reply<()>)

  function ExtrasAt(s: Script, i: nat): UnitExtras
  {
    if i < |s.extras| then s.extras[i] else UnitExtras(None, TransportFailed(NoEntry), TransportFailed(NoEntry))
  }

  const Unknown: string := "Unknown"

  /** The name printed for a unit: the looked-up one, or "Unknown". */
  function DisplayName(lookup: Option<string>): string
  {
    if lookup.Some? then lookup.value else Unknown
  }

  datatype Report = Report(index: nat, name: string, info: RopInfo)

  datatype UnitOutcome = Stopped(notFound: bool) | Skipped | Processed(name: string, info: RopInfo)

  datatype UnitRun = UnitRun(events: seq<Event>, outcome: UnitOutcome)

  /** What an iteration does after the allocations and the query: on a
      failure it closes the unit channel first and then frees the objects
      already created, innermost first; on success it frees both objects
      and then closes the channel. */
  function Cleanup(hClient: Handle, i: nat, u: RopMulti.UnitScript, x: UnitExtras): seq<Event>
  {
    var close := [Close(Unit(i))];
    if !Succeeded(u.device) then close
    else
      var freeDevice := [Free(FreeRequest(hClient, u.device.out), x.freeDevice)];
      if !Succeeded(u.subdevice) then close + freeDevice
      else
        var freeSub := [Free(FreeRequest(hClient, u.subdevice.out), x.freeSubdevice)];
        if !Succeeded(u.query) then close + freeSub + freeDevice
        else freeSub + freeDevice + close
  }

  /** How the iteration for a unit ends; a processed unit carries its name. */
  function Outcome(u: RopMulti.UnitScript, x: UnitExtras): UnitOutcome
  {
    if !RopMulti.Probed(u) then Stopped(ProbeErrno(u.openResult, u.registerResult) == NoEntry)
    else if RopMulti.UnitOk(u) then Processed(DisplayName(x.name), u.query.out)
    else Skipped
  }

  /** One iteration of the loop in `main` for unit `i`: the probe, then, if
      it succeeded, the same requests as in the plain multi-unit program and
      the cleanup. */
  function RunUnit(hClient: Handle, i: nat, u: RopMulti.UnitScript, x: UnitExtras): UnitRun
  {
    var probe := ProbeEvents(i, u.openResult, u.registerResult);
    UnitRun(probe + (if RopMulti.Probed(u) then RopMulti.UnitRequests(hClient, i, u) + Cleanup(hClient, i, u, x) else []),
            Outcome(u, x))
  }

  /** The variables `main` updates across iterations. The state, `NextRet`,
      `Next` and `Enumerate` mirror those of `RopMulti` and are kept apart
      because a report and a processed outcome here carry the unit's name;
      `SessionAgrees` proves the two loops give the same exit code and count. */
  datatype LoopState = LoopState(ret: int, deviceCount: nat, log: seq<Event>, reports: seq<Report>)

  /** The exit code after an iteration, as in the plain multi-unit program. */
  function NextRet(ret: int, i: nat, outcome: UnitOutcome): int
  {
    match outcome
    case Stopped(notFound) => if notFound && i != 0 then ret else 1
    case Skipped => 1
    case Processed(_, _) => ret
  }

  /** The state after an iteration: its calls are appended to the log, a
      unit that opened is counted, a processed unit is reported by name. */
  function Next(st: LoopState, i: nat, r: UnitRun): LoopState
  {
    LoopState(
      NextRet(st.ret, i, r.outcome),
      if r.outcome.Stopped? then st.deviceCount else st.deviceCount + 1,
      st.log + r.events,
      if r.outcome.Processed? then st.reports + [Report(i, r.outcome.name, r.outcome.info)] else st.reports)
  }

  /** The loop of `main` from unit `i` on, returning the state at `break`. */
  function Enumerate(s: Script, hClient: Handle, i: nat, st: LoopState): LoopState
    decreases |s.common.units| - i
  {
    var r := RunUnit(hClient, i, RopMulti.UnitAt(s.common, i), ExtrasAt(s, i));
    if !RopMulti.Probed(RopMulti.UnitAt(s.common, i)) then Next(st, i, r)
    else Enumerate(s, hClient, i + 1, Next(st, i, r))
  }

  lemma EnumerateStep(s: Script, hClient: Handle, i: nat, st: LoopState)
    requires RopMulti.Probed(RopMulti.UnitAt(s.common, i))
    ensures Enumerate(s, hClient, i, st) ==
            Enumerate(s, hClient, i + 1, Next(st, i, RunUnit(hClient, i, RopMulti.UnitAt(s.common, i), ExtrasAt(s, i))))
  {
  }

  lemma EnumerateStop(s: Script, hClient: Handle, i: nat, st: LoopState)
    requires !RopMulti.Probed(RopMulti.UnitAt(s.common, i))
    ensures Enumerate(s, hClient, i, st) == Next(st, i, RunUnit(hClient, i, RopMulti.UnitAt(s.common, i), ExtrasAt(s, i)))
  {
  }

  datatype SessionResult = SessionResult(exit: int, log: seq<Event>, deviceCount: nat, reports: seq<Report>)

  /** What `main` does, as a function of the answers it receives. After the
      loop the client is freed, then the control channel is closed. */
  function Session(s: Script): SessionResult
  {
    var c := s.common;
    if c.control.SysFailed? then SessionResult(1, [Open(Control, c.control)], 0, [])
    else if !Succeeded(c.client) then SessionResult(1, RopMulti.Prologue(c) + [Close(Control)], 0, [])
    else
      var hClient := c.client.out;
      var st := LoopEnd(s);
      SessionResult(RopMulti.FinalExit(st.ret, st.deviceCount, c.nvidia0Present),
                    st.log + Epilogue(hClient, s.clientFree), st.deviceCount, st.reports)
  }

  /** The calls after the loop: the client is freed, then the control
      channel is closed. */
  function Epilogue(hClient: Handle, clientFree: Reply<()>): seq<Event>
  {
    [Free(FreeRequest(hClient, hClient), clientFree), Close(Control)]
  }

  /** The state at the end of the loop, once the client exists. */
  function LoopEnd(s: Script): LoopState
    requires RopMulti.Reached(s.common)
  {
    Enumerate(s, s.common.client.out, 0, LoopState(0, 0, RopMulti.Prologue(s.common), []))
  }

  /** free_handle: a zeroed request naming the client as root and the
      object in `hObjectNew`; succeeds iff the transport completed with
      status 0. */
  method FreeHandle(hClient: Handle, hObject: Handle, reply: Reply<()>) returns (ok: bool, req: ObjectRequest)
    ensures req == ObjectRequest(hClient, 0, hObject, 0, NoParams, 0)
    ensures ok <==> reply.Completed? && reply.status == 0
  {
    req := FreeRequest(hClient, hObject);
    if reply.TransportFailed? {
      return false, req;
    }
    if reply.status != 0 {
      return false, req;
    }
    ok := true;
  }

  /** alloc_subdevice of this program: the same request as the plain
      multi-unit program's; `deviceIndex` does not reach the request. */
  method AllocSubdevice(hClient: Handle, hParentDevice: Handle, deviceIndex: nat, hSubDevice: Handle, reply: Reply<Handle>)
    returns (ok: bool, hSubDevice': Handle, req: ObjectRequest)
    ensures req == SubdeviceRequest(hClient, hParentDevice)
    ensures ok <==> reply.Completed? && reply.status == 0
    ensures hSubDevice' == if ok then reply.out else hSubDevice
  {
    ok, hSubDevice', req := RmCalls.AllocSubdevice(hClient, hParentDevice, hSubDevice, reply);
  }

  /** The body of the loop in `main` after unit `deviceIndex` was opened:
      allocate the device, look up the name, allocate the subdevice, query,
      and on every path close the unit channel and free what was created.
      `processed` tells whether the unit's figures are printed. */
  method ProcessUnit(hClient: Handle, deviceIndex: nat, u: RopMulti.UnitScript, x: UnitExtras)
    returns (processed: bool, name: string, info: RopInfo, ghost events: seq<Event>)
    requires RopMulti.Probed(u)
    ensures processed <==> RopMulti.UnitOk(u)
    ensures processed ==> name == DisplayName(x.name) && info == u.query.out
    ensures events == RopMulti.UnitRequests(hClient, deviceIndex, u) + Cleanup(hClient, deviceIndex, u, x)
  {
    var hDevice: Handle := 0;
    var hSubDevice: Handle := 0;
    var ok, req, freed, freeReq;
    name, info := Unknown, RopInfo(0, 0, 0);

    ok, hDevice, req := AllocDevice(hClient, deviceIndex, hDevice, u.device);
    assert req == DeviceRequest(hClient, deviceIndex);
    events := [Alloc(req, u.device)];
    if !ok {
      events := events + [Close(Unit(deviceIndex))];
      return false, name, info, events;
    }

    if x.name.Some? {
      name := x.name.value;
    }

    ok, hSubDevice, req := AllocSubdevice(hClient, hDevice, deviceIndex, hSubDevice, u.subdevice);
    events := events + [Alloc(req, u.subdevice)];
    if !ok {
      events := events + [Close(Unit(deviceIndex))];
      freed, freeReq := FreeHandle(hClient, hDevice, x.freeDevice);
      events := events + [Free(freeReq, x.freeDevice)];
      return false, name, info, events;
    }

    var qreq;
    ok, info, qreq := GetRopCount(hClient, hSubDevice, u.query);
    events := events + [Query(qreq, u.query)];
    if !ok {
      events := events + [Close(Unit(deviceIndex))];
      freed, freeReq := FreeHandle(hClient, hSubDevice, x.freeSubdevice);
      events := events + [Free(freeReq, x.freeSubdevice)];
      freed, freeReq := FreeHandle(hClient, hDevice, x.freeDevice);
      events := events + [Free(freeReq, x.freeDevice)];
      return false, name, info, events;
    }

    freed, freeReq := FreeHandle(hClient, hSubDevice, x.freeSubdevice);
    events := events + [Free(freeReq, x.freeSubdevice)];
    freed, freeReq := FreeHandle(hClient, hDevice, x.freeDevice);
    events := events + [Free(freeReq, x.freeDevice)];
    events := events + [Close(Unit(deviceIndex))];
    processed := true;
  }

  /** The loop of `main`, from unit 0 until the first unit that does not
      open, starting from the calls in `start`. */
  method EnumerateUnits(s: Script, hClient: Handle, ghost start: seq<Event>)
    returns (ret: int, deviceCount: nat, ghost log: seq<Event>, reports: seq<Report>)
    ensures ret == Enumerate(s, hClient, 0, LoopState(0, 0, start, [])).ret
    ensures deviceCount == Enumerate(s, hClient, 0, LoopState(0, 0, start, [])).deviceCount
    ensures reports == Enumerate(s, hClient, 0, LoopState(0, 0, start, [])).reports
    ensures log == Enumerate(s, hClient, 0, LoopState(0, 0, start, [])).log
  {
    var c := s.common;
    ret, deviceCount, log, reports := 0, 0, start, [];
    ghost var final := Enumerate(s, hClient, 0, LoopState(0, 0, start, []));
    for deviceIndex := 0 to *
      invariant Enumerate(s, hClient, deviceIndex, LoopState(ret, deviceCount, log, reports)) == final
      decreases |c.units| - deviceIndex
    {
      var u := RopMulti.UnitAt(c, deviceIndex);
      var x := ExtrasAt(s, deviceIndex);
      ghost var before := LoopState(ret, deviceCount, log, reports);

      var probeOk, errno, probe := OpenNvidiaDevice(deviceIndex, u.openResult, u.registerResult);
      if !probeOk {
        if errno == NoEntry {
          if deviceIndex == 0 {
            ret := 1;
          }
        } else {
          ret := 1;
        }
        ghost var run := UnitRun(probe, Stopped(errno == NoEntry));
        assert RunUnit(hClient, deviceIndex, u, x) == run;
        log := log + probe;
        assert LoopState(ret, deviceCount, log, reports) == Next(before, deviceIndex, run);
        EnumerateStop(s, hClient, deviceIndex, before);
        break;
      }

      deviceCount := deviceCount + 1;

      var processed, name, info, rest := ProcessUnit(hClient, deviceIndex, u, x);
      ghost var run := UnitRun(probe + rest, if processed then Processed(name, info) else Skipped);
      assert RunUnit(hClient, deviceIndex, u, x) == run;
      log := log + (probe + rest);
      if processed {
        reports := reports + [Report(deviceIndex, name, info)];
      } else {
        ret := 1;
      }
      assert LoopState(ret, deviceCount, log, reports) == Next(before, deviceIndex, run);
      EnumerateStep(s, hClient, deviceIndex, before);
    }
  }

  /** `main`: returns the exit code and the reports printed; `log` records
      every call made. */
  method Run(s: Script) returns (ret: int, ghost log: seq<Event>, reports: seq<Report>)
    ensures ret == Session(s).exit
    ensures log == Session(s).log
    ensures reports == Session(s).reports
  {
    var c := s.common;
    ret := 0;
    var hClient: Handle := 0;
    reports := [];

    log := [Open(Control, c.control)];
    if c.control.SysFailed? {
      ret := 1;
      return;
    }

    var ok, req;
    ok, hClient, req := AllocClient(hClient, c.client);
    log := log + [Alloc(req, c.client)];
    assert log == RopMulti.Prologue(c);
    if !ok {
      log := log + [Close(Control)];
      ret := 1;
      return;
    }

    var deviceCount;
    ret, deviceCount, log, reports := EnumerateUnits(s, hClient, log);
    var freed, freeReq := FreeHandle(hClient, hClient, s.clientFree);
    assert Free(freeReq, s.clientFree) == Epilogue(hClient, s.clientFree)[0];
    log := log + Epilogue(hClient, s.clientFree);

    if deviceCount == 0 && ret == 0 {
      if c.nvidia0Present {
        if ret == 0 {
          ret := 1;
        }
      } else {
        if ret == 0 {
          ret := 1;
        }
      }
    }
  }

  // ---------------------------------------------------------------------
  // Properties of one iteration

  /** The handles an iteration's successful allocations return, in order. */
  function CreatedHandles(u: RopMulti.UnitScript): seq<Handle>
  {
    if !Succeeded(u.device) then []
    else [u.device.out] + if Succeeded(u.subdevice) then [u.subdevice.out] else []
  }

  lemma RequestsCreate(hClient: Handle, i: nat, u: RopMulti.UnitScript)
    ensures CreatedIn(RopMulti.UnitRequests(hClient, i, u)) == CreatedHandles(u)
  {
    var reqs := RopMulti.UnitRequests(hClient, i, u);
    if Succeeded(u.device) {
      if Succeeded(u.subdevice) {
        assert reqs[1..][1..] == [Query(RopInfoRequest(hClient, u.subdevice.out), u.query)];
        assert CreatedIn(reqs[1..][1..]) == [];
      } else {
        assert reqs[1..][1..] == [];
      }
    } else {
      assert reqs[1..] == [];
    }
  }

  /** The cleanup frees what was created, innermost first, each object
      while it is the innermost one held. */
  lemma CleanupHandles(hClient: Handle, i: nat, u: RopMulti.UnitScript, x: UnitExtras, held: seq<HeldObject>)
    requires Holds(held, hClient, ClientClass)
    ensures HandleReplay(held + RopMulti.NewObjects(u), Cleanup(hClient, i, u, x)) == Some(held)
  {
    CleanupCases(hClient, i, u, x, held);
  }

  /** The cleanup closes the unit channel, and frees only while the control
      channel is open. */
  lemma CleanupChannels(hClient: Handle, i: nat, u: RopMulti.UnitScript, x: UnitExtras)
    ensures ChannelReplay({Control, Unit(i)}, Cleanup(hClient, i, u, x)) == Some({Control})
  {
    var cleanup := Cleanup(hClient, i, u, x);
    var both: set<Channel> := {Control, Unit(i)};
    assert both - {Unit(i)} == {Control};
    var close := [Close(Unit(i))];
    assert ChannelReplay(both, close) == Some({Control});
    if Succeeded(u.device) {
      var freeDevice := [Free(FreeRequest(hClient, u.device.out), x.freeDevice)];
      assert ChannelReplay({Control}, freeDevice) == Some({Control});
      if !Succeeded(u.subdevice) {
        assert cleanup[1..] == freeDevice;
      } else if !Succeeded(u.query) {
        assert cleanup[1..][1..] == freeDevice;
        assert ChannelReplay({Control}, cleanup[1..]) == Some({Control});
      } else {
        assert cleanup[1..][1..] == close;
        assert ChannelReplay(both, cleanup[1..]) == Some({Control});
      }
    }
  }

  /** The cleanup frees the created handles in reverse order of creation,
      and opens and creates nothing. */
  lemma CleanupFrees(hClient: Handle, i: nat, u: RopMulti.UnitScript, x: UnitExtras)
    ensures FreedIn(Cleanup(hClient, i, u, x)) == Reverse(CreatedHandles(u))
    ensures ProbeOrder(Cleanup(hClient, i, u, x)) == [] && CreatedIn(Cleanup(hClient, i, u, x)) == []
  {
    CleanupCases(hClient, i, u, x, [HeldObject(hClient, ClientClass)]);
  }

  /** The handle and filter facts of the cleanup, one case of the script at
      a time. */
  lemma CleanupCases(hClient: Handle, i: nat, u: RopMulti.UnitScript, x: UnitExtras, held: seq<HeldObject>)
    requires Holds(held, hClient, ClientClass)
    ensures HandleReplay(held + RopMulti.NewObjects(u), Cleanup(hClient, i, u, x)) == Some(held)
    ensures FreedIn(Cleanup(hClient, i, u, x)) == Reverse(CreatedHandles(u))
    ensures ProbeOrder(Cleanup(hClient, i, u, x)) == [] && CreatedIn(Cleanup(hClient, i, u, x)) == []
  {
    if !Succeeded(u.device) {
      CleanupNoDevice(hClient, i, u, x, held);
    } else if !Succeeded(u.subdevice) {
      CleanupNoSubdevice(hClient, i, u, x, held);
    } else if !Succeeded(u.query) {
      CleanupNoQuery(hClient, i, u, x, held);
    } else {
      CleanupAfterQuery(hClient, i, u, x, held);
    }
  }

  lemma CleanupNoDevice(hClient: Handle, i: nat, u: RopMulti.UnitScript, x: UnitExtras, held: seq<HeldObject>)
    requires !Succeeded(u.device)
    ensures HandleReplay(held + RopMulti.NewObjects(u), Cleanup(hClient, i, u, x)) == Some(held)
    ensures FreedIn(Cleanup(hClient, i, u, x)) == Reverse(CreatedHandles(u))
    ensures ProbeOrder(Cleanup(hClient, i, u, x)) == [] && CreatedIn(Cleanup(hClient, i, u, x)) == []
  {
    var c := Cleanup(hClient, i, u, x);
    assert c == [Close(Unit(i))];
    assert c[1..] == [];
    assert held + RopMulti.NewObjects(u) == held;
  }

  lemma CleanupNoSubdevice(hClient: Handle, i: nat, u: RopMulti.UnitScript, x: UnitExtras, held: seq<HeldObject>)
    requires Succeeded(u.device) && !Succeeded(u.subdevice)
    requires Holds(held, hClient, ClientClass)
    ensures HandleReplay(held + RopMulti.NewObjects(u), Cleanup(hClient, i, u, x)) == Some(held)
    ensures FreedIn(Cleanup(hClient, i, u, x)) == Reverse(CreatedHandles(u))
    ensures ProbeOrder(Cleanup(hClient, i, u, x)) == [] && CreatedIn(Cleanup(hClient, i, u, x)) == []
  {
    var d := HeldObject(u.device.out, DeviceClass);
    var fd := Free(FreeRequest(hClient, u.device.out), x.freeDevice);
    var cl := Close(Unit(i));
    assert Cleanup(hClient, i, u, x) == [cl, fd];
    FiltersOfTwo(cl, fd);
    assert RopMulti.NewObjects(u) == [d];
    assert (held + [d])[..|held|] == held;
    HandleReplayTwo(held + [d], held + [d], held, cl, fd);
    ReverseOne(u.device.out);
  }

  lemma CleanupNoQuery(hClient: Handle, i: nat, u: RopMulti.UnitScript, x: UnitExtras, held: seq<HeldObject>)
    requires Succeeded(u.device) && Succeeded(u.subdevice) && !Succeeded(u.query)
    requires Holds(held, hClient, ClientClass)
    ensures HandleReplay(held + RopMulti.NewObjects(u), Cleanup(hClient, i, u, x)) == Some(held)
    ensures FreedIn(Cleanup(hClient, i, u, x)) == Reverse(CreatedHandles(u))
    ensures ProbeOrder(Cleanup(hClient, i, u, x)) == [] && CreatedIn(Cleanup(hClient, i, u, x)) == []
  {
    var d := HeldObject(u.device.out, DeviceClass);
    var sub := HeldObject(u.subdevice.out, SubdeviceClass);
    var fs := Free(FreeRequest(hClient, u.subdevice.out), x.freeSubdevice);
    var fd := Free(FreeRequest(hClient, u.device.out), x.freeDevice);
    var cl := Close(Unit(i));
    assert Cleanup(hClient, i, u, x) == [cl, fs, fd];
    FiltersOfThree(cl, fs, fd);
    assert RopMulti.NewObjects(u) == [d, sub];
    FreeTwo(hClient, d, sub, x.freeSubdevice, x.freeDevice, held);
    HandleReplayThree(held + [d, sub], held + [d, sub], held + [d], held, cl, fs, fd);
    ReverseTwo(u.device.out, u.subdevice.out);
  }

  lemma CleanupAfterQuery(hClient: Handle, i: nat, u: RopMulti.UnitScript, x: UnitExtras, held: seq<HeldObject>)
    requires Succeeded(u.device) && Succeeded(u.subdevice) && Succeeded(u.query)
    requires Holds(held, hClient, ClientClass)
    ensures HandleReplay(held + RopMulti.NewObjects(u), Cleanup(hClient, i, u, x)) == Some(held)
    ensures FreedIn(Cleanup(hClient, i, u, x)) == Reverse(CreatedHandles(u))
    ensures ProbeOrder(Cleanup(hClient, i, u, x)) == [] && CreatedIn(Cleanup(hClient, i, u, x)) == []
  {
    var d := HeldObject(u.device.out, DeviceClass);
    var sub := HeldObject(u.subdevice.out, SubdeviceClass);
    var fs := Free(FreeRequest(hClient, u.subdevice.out), x.freeSubdevice);
    var fd := Free(FreeRequest(hClient, u.device.out), x.freeDevice);
    var cl := Close(Unit(i));
    assert Cleanup(hClient, i, u, x) == [fs, fd, cl];
    FiltersOfThree(fs, fd, cl);
    assert RopMulti.NewObjects(u) == [d, sub];
    FreeTwo(hClient, d, sub, x.freeSubdevice, x.freeDevice, held);
    HandleReplayThree(held + [d, sub], held + [d], held, held, fs, fd, cl);
    ReverseTwo(u.device.out, u.subdevice.out);
  }

  lemma ReverseOne(a: Handle)
    ensures Reverse([a]) == [a]
  {
    assert [a][1..] == [];
  }

  lemma ReverseTwo(a: Handle, b: Handle)
    ensures Reverse([a, b]) == [b, a]
  {
    assert [a, b][1..] == [b];
    ReverseOne(b);
  }

  /** Freeing the subdevice and then the device releases both. */
  lemma FreeTwo(hClient: Handle, d: HeldObject, sub: HeldObject, rs: Reply<()>, rd: Reply<()>, held: seq<HeldObject>)
    requires Holds(held, hClient, ClientClass)
    ensures HandleStep(held + [d, sub], Free(FreeRequest(hClient, sub.handle), rs)) == Some(held + [d])
    ensures HandleStep(held + [d], Free(FreeRequest(hClient, d.handle), rd)) == Some(held)
  {
    assert (held + [d, sub])[..|held| + 1] == held + [d];
    assert (held + [d])[..|held|] == held;
    assert Holds(held + [d, sub], hClient, ClientClass);
    assert Holds(held + [d], hClient, ClientClass);
  }

  /** On a failure the unit channel is closed before anything is freed; on
      success both objects are freed while the channel is still open. */
  lemma CleanupCloseFirst(hClient: Handle, i: nat, u: RopMulti.UnitScript, x: UnitExtras)
    ensures |Cleanup(hClient, i, u, x)| > 0
    ensures Cleanup(hClient, i, u, x)[0] == Close(Unit(i)) <==> !RopMulti.UnitOk(u)
    ensures RopMulti.UnitOk(u) ==> Cleanup(hClient, i, u, x)[|Cleanup(hClient, i, u, x)| - 1] == Close(Unit(i))
  {
  }

  /** One iteration probes unit `i` only. */
  lemma {:induction false} UnitProbes(hClient: Handle, i: nat, u: RopMulti.UnitScript, x: UnitExtras)
    ensures ProbeOrder(RunUnit(hClient, i, u, x).events) == [i]
  {
    var probe := ProbeEvents(i, u.openResult, u.registerResult);
    ProbeFacts(i, u.openResult, u.registerResult, []);
    if RopMulti.Probed(u) {
      var reqs := RopMulti.UnitRequests(hClient, i, u);
      var cleanup := Cleanup(hClient, i, u, x);
      RopMulti.UnitRequestsHandles(hClient, i, u, [HeldObject(hClient, ClientClass)]);
      RequestsOnlyFacts({Control}, reqs);
      CleanupFrees(hClient, i, u, x);
      ProbeOrderAppend(probe, reqs + cleanup);
      ProbeOrderAppend(reqs, cleanup);
    } else {
      assert RunUnit(hClient, i, u, x).events == probe;
    }
  }

  /** One iteration frees exactly the handles it created, in reverse order
      of creation. */
  lemma {:induction false} UnitFrees(hClient: Handle, i: nat, u: RopMulti.UnitScript, x: UnitExtras)
    ensures FreedIn(RunUnit(hClient, i, u, x).events) == Reverse(CreatedIn(RunUnit(hClient, i, u, x).events))
  {
    var probe := ProbeEvents(i, u.openResult, u.registerResult);
    ProbeFacts(i, u.openResult, u.registerResult, []);
    if RopMulti.Probed(u) {
      var reqs := RopMulti.UnitRequests(hClient, i, u);
      var cleanup := Cleanup(hClient, i, u, x);
      RopMulti.UnitRequestsHandles(hClient, i, u, [HeldObject(hClient, ClientClass)]);
      RequestsOnlyFacts({Control}, reqs);
      RequestsCreate(hClient, i, u);
      CleanupFrees(hClient, i, u, x);
      FreedInAppend(probe, reqs + cleanup);
      FreedInAppend(reqs, cleanup);
      CreatedInAppend(probe, reqs + cleanup);
      CreatedInAppend(reqs, cleanup);
      var events := RunUnit(hClient, i, u, x).events;
      assert events == probe + (reqs + cleanup);
      assert CreatedIn(events) == [] + (CreatedHandles(u) + []);
      assert FreedIn(events) == [] + ([] + Reverse(CreatedHandles(u)));
      assert [] + (CreatedHandles(u) + []) == CreatedHandles(u);
      assert [] + ([] + Reverse(CreatedHandles(u))) == Reverse(CreatedHandles(u));
    } else {
      assert RunUnit(hClient, i, u, x).events == probe;
    }
  }

  /** One iteration leaves only the control channel open and the held
      objects as they were. */
  lemma {:induction false} UnitReplays(hClient: Handle, i: nat, u: RopMulti.UnitScript, x: UnitExtras, held: seq<HeldObject>)
    requires Holds(held, hClient, ClientClass)
    ensures ChannelReplay({Control}, RunUnit(hClient, i, u, x).events) == Some({Control})
    ensures HandleReplay(held, RunUnit(hClient, i, u, x).events) == Some(held)
  {
    var probe := ProbeEvents(i, u.openResult, u.registerResult);
    ProbeFacts(i, u.openResult, u.registerResult, held);
    ProbeLeavesNoChannelOnFailure(i, u.openResult, u.registerResult);
    if RopMulti.Probed(u) {
      var reqs := RopMulti.UnitRequests(hClient, i, u);
      var cleanup := Cleanup(hClient, i, u, x);
      var withUnit: set<Channel> := {Control, Unit(i)};
      RopMulti.UnitRequestsHandles(hClient, i, u, held);
      RequestsOnlyFacts(withUnit, reqs);
      CleanupHandles(hClient, i, u, x, held);
      CleanupChannels(hClient, i, u, x);
      ChannelReplayAppend({Control}, probe, reqs + cleanup);
      ChannelReplayAppend(withUnit, reqs, cleanup);
      HandleReplayAppend(held, probe, reqs + cleanup);
      HandleReplayAppend(held, reqs, cleanup);
    } else {
      assert RunUnit(hClient, i, u, x).events == probe;
    }
  }

  // ---------------------------------------------------------------------
  // Properties of a whole run

  /** From unit `i` on, the loop probes exactly the units the plain
      multi-unit program probes, in order. */
  lemma {:induction false} EnumerateProbes(s: Script, hClient: Handle, i: nat, st: LoopState)
    ensures ProbeOrder(Enumerate(s, hClient, i, st).log) ==
            ProbeOrder(st.log) + Span(i, RopMulti.StopFrom(s.common, i) + 1)
    decreases |s.common.units| - i
  {
    var u := RopMulti.UnitAt(s.common, i);
    if RopMulti.Probed(u) {
      var nx := Next(st, i, RunUnit(hClient, i, u, ExtrasAt(s, i)));
      var k := RopMulti.StopFrom(s.common, i + 1);
      EnumerateProbes(s, hClient, i + 1, nx);
      assert ProbeOrder(Enumerate(s, hClient, i + 1, nx).log) == ProbeOrder(nx.log) + Span(i + 1, k + 1);
      ProbesContinue(s, hClient, i, st);
    } else {
      ProbesBreak(s, hClient, i, st);
    }
  }

  lemma ProbesContinue(s: Script, hClient: Handle, i: nat, st: LoopState)
    requires RopMulti.Probed(RopMulti.UnitAt(s.common, i))
    requires var nx := Next(st, i, RunUnit(hClient, i, RopMulti.UnitAt(s.common, i), ExtrasAt(s, i)));
      ProbeOrder(Enumerate(s, hClient, i + 1, nx).log) ==
      ProbeOrder(nx.log) + Span(i + 1, RopMulti.StopFrom(s.common, i + 1) + 1)
    ensures ProbeOrder(Enumerate(s, hClient, i, st).log) ==
            ProbeOrder(st.log) + Span(i, RopMulti.StopFrom(s.common, i) + 1)
  {
    var nx := Next(st, i, RunUnit(hClient, i, RopMulti.UnitAt(s.common, i), ExtrasAt(s, i)));
    var k := RopMulti.StopFrom(s.common, i + 1);
    StepProbes(st, hClient, i, RopMulti.UnitAt(s.common, i), ExtrasAt(s, i));
    EnumerateStep(s, hClient, i, st);
    assert RopMulti.StopFrom(s.common, i) == k;
    SpanStep(ProbeOrder(st.log), ProbeOrder(Enumerate(s, hClient, i + 1, nx).log), i, k);
  }

  lemma ProbesBreak(s: Script, hClient: Handle, i: nat, st: LoopState)
    requires !RopMulti.Probed(RopMulti.UnitAt(s.common, i))
    ensures ProbeOrder(Enumerate(s, hClient, i, st).log) ==
            ProbeOrder(st.log) + Span(i, RopMulti.StopFrom(s.common, i) + 1)
  {
    StepProbes(st, hClient, i, RopMulti.UnitAt(s.common, i), ExtrasAt(s, i));
    EnumerateStop(s, hClient, i, st);
    assert Span(i, i + 1) == [i];
  }

  /** One iteration adds exactly unit `i` to the units probed. */
  lemma StepProbes(st: LoopState, hClient: Handle, i: nat, u: RopMulti.UnitScript, x: UnitExtras)
    ensures ProbeOrder(Next(st, i, RunUnit(hClient, i, u, x)).log) == ProbeOrder(st.log) + [i]
  {
    UnitProbes(hClient, i, u, x);
    ProbeOrderAppend(st.log, RunUnit(hClient, i, u, x).events);
  }

  /** From unit `i` on, the loop keeps only the control channel open and
      exactly the client held between iterations. */
  lemma {:induction false} EnumerateReplays(s: Script, hClient: Handle, i: nat, st: LoopState, held: seq<HeldObject>)
    requires HandleReplay([], st.log) == Some(held) && Holds(held, hClient, ClientClass)
    requires ChannelReplay({}, st.log) == Some({Control})
    ensures ChannelReplay({}, Enumerate(s, hClient, i, st).log) == Some({Control})
    ensures HandleReplay([], Enumerate(s, hClient, i, st).log) == Some(held)
    decreases |s.common.units| - i
  {
    var u := RopMulti.UnitAt(s.common, i);
    ReplaysStep(st, hClient, i, u, ExtrasAt(s, i), held);
    if RopMulti.Probed(u) {
      EnumerateReplays(s, hClient, i + 1, Next(st, i, RunUnit(hClient, i, u, ExtrasAt(s, i))), held);
      EnumerateStep(s, hClient, i, st);
    } else {
      EnumerateStop(s, hClient, i, st);
    }
  }

  lemma ReplaysStep(st: LoopState, hClient: Handle, i: nat, u: RopMulti.UnitScript, x: UnitExtras, held: seq<HeldObject>)
    requires HandleReplay([], st.log) == Some(held) && Holds(held, hClient, ClientClass)
    requires ChannelReplay({}, st.log) == Some({Control})
    ensures ChannelReplay({}, Next(st, i, RunUnit(hClient, i, u, x)).log) == Some({Control})
    ensures HandleReplay([], Next(st, i, RunUnit(hClient, i, u, x)).log) == Some(held)
  {
    var r := RunUnit(hClient, i, u, x);
    UnitReplays(hClient, i, u, x, held);
    ChannelReplayAppend({}, st.log, r.events);
    HandleReplayAppend([], st.log, r.events);
  }

  /** The plain multi-unit program's reports, each with the name this
      program prints for its unit. */
  function Named(s: Script, reports: seq<RopMulti.Report>): seq<Report>
    decreases |reports|
  {
    if reports == [] then []
    else
      var r := reports[0];
      [Report(r.index, DisplayName(ExtrasAt(s, r.index).name), r.info)] + Named(s, reports[1..])
  }

  lemma {:induction false} NamedAppend(s: Script, a: seq<RopMulti.Report>, b: seq<RopMulti.Report>)
    ensures Named(s, a + b) == Named(s, a) + Named(s, b)
    decreases |a|
  {
    if a == [] {
      assert a + b == b;
    } else {
      assert (a + b)[0] == a[0];
      assert (a + b)[1..] == a[1..] + b;
      NamedAppend(s, a[1..], b);
      AppendAssoc(Named(s, [a[0]]), Named(s, a[1..]), Named(s, b));
    }
  }

  /** A state of this program's loop and one of the plain multi-unit
      program's loop that have the same exit code, the same count and the
      same reports up to the names. */
  predicate Agree(s: Script, st: LoopState, mt: RopMulti.LoopState)
  {
    st.ret == mt.ret && st.deviceCount == mt.deviceCount && st.reports == Named(s, mt.reports)
  }

  /** One iteration keeps the two loops in agreement. */
  lemma AgreeStep(s: Script, hClient: Handle, i: nat, st: LoopState, mt: RopMulti.LoopState)
    requires Agree(s, st, mt)
    ensures Agree(s, Next(st, i, RunUnit(hClient, i, RopMulti.UnitAt(s.common, i), ExtrasAt(s, i))),
                  RopMulti.Next(mt, i, RopMulti.RunUnit(hClient, i, RopMulti.UnitAt(s.common, i))))
  {
    var u := RopMulti.UnitAt(s.common, i);
    var x := ExtrasAt(s, i);
    if RopMulti.Probed(u) && RopMulti.UnitOk(u) {
      var one := [RopMulti.Report(i, u.query.out)];
      NamedAppend(s, mt.reports, one);
      assert one[1..] == [];
      assert Named(s, one) == [Report(i, DisplayName(x.name), u.query.out)];
    }
  }

  /** From unit `i` on, the two loops stay in agreement. */
  lemma {:induction false} EnumerateAgrees(s: Script, hClient: Handle, i: nat, st: LoopState, mt: RopMulti.LoopState)
    requires Agree(s, st, mt)
    ensures Agree(s, Enumerate(s, hClient, i, st), RopMulti.Enumerate(s.common, hClient, i, mt))
    decreases |s.common.units| - i
  {
    var u := RopMulti.UnitAt(s.common, i);
    AgreeStep(s, hClient, i, st, mt);
    if RopMulti.Probed(u) {
      EnumerateAgrees(s, hClient, i + 1, Next(st, i, RunUnit(hClient, i, u, ExtrasAt(s, i))),
                      RopMulti.Next(mt, i, RopMulti.RunUnit(hClient, i, u)));
      EnumerateStep(s, hClient, i, st);
      RopMulti.EnumerateStep(s.common, hClient, i, mt);
    } else {
      EnumerateStop(s, hClient, i, st);
      RopMulti.EnumerateStop(s.common, hClient, i, mt);
    }
  }

  /** The exit code and the count are those of the plain multi-unit program
      on the same driver answers, and the reports are its reports, each
      carrying its unit's name: the names and the replies to the frees
      never change the outcome. */
  lemma SessionAgrees(s: Script)
    ensures Session(s).exit == RopMulti.Session(s.common).exit
    ensures Session(s).deviceCount == RopMulti.Session(s.common).deviceCount
    ensures Session(s).reports == Named(s, RopMulti.Session(s.common).reports)
  {
    if RopMulti.Reached(s.common) {
      var start := RopMulti.Prologue(s.common);
      EnumerateAgrees(s, s.common.client.out, 0, LoopState(0, 0, start, []), RopMulti.LoopState(0, 0, start, []));
    }
  }

  /** Units are probed in order 0, 1, ..., up to and including the stopping
      one, exactly as in the plain multi-unit program. */
  lemma SessionProbes(s: Script)
    ensures ProbeOrder(Session(s).log) == ProbeOrder(RopMulti.Session(s.common).log)
  {
    var c := s.common;
    RopMulti.SessionProbes(c);
    if c.control.SysFailed? {
      assert Session(s).log == RopMulti.Session(c).log;
    } else if !Succeeded(c.client) {
      assert Session(s).log == RopMulti.Session(c).log;
    } else {
      ProbesReached(s);
    }
  }

  lemma ProbesReached(s: Script)
    requires RopMulti.Reached(s.common)
    ensures ProbeOrder(Session(s).log) == Span(0, RopMulti.Stop(s.common) + 1)
  {
    var c := s.common;
    var hClient := c.client.out;
    var tail := Epilogue(hClient, s.clientFree);
    RopMulti.PrologueFacts(c);
    EnumerateProbes(s, hClient, 0, LoopState(0, 0, RopMulti.Prologue(c), []));
    ProbeOrderAppend(LoopEnd(s).log, tail);
    FiltersOfTwo(tail[0], tail[1]);
    assert ProbeOrder(LoopEnd(s).log) == Span(0, RopMulti.Stop(s.common) + 1);
  }

  /** Every call goes over an open channel, at most one unit channel is
      open at a time, and every channel is closed at the end. */
  lemma SessionChannels(s: Script)
    ensures ChannelReplay({}, Session(s).log) == Some({})
  {
    var c := s.common;
    if c.control.SysFailed? {
      assert Session(s).log == RopMulti.Session(c).log;
      RopMulti.SessionChannels(c);
    } else if !Succeeded(c.client) {
      assert Session(s).log == RopMulti.Session(c).log;
      RopMulti.SessionChannels(c);
    } else {
      ChannelsReached(s);
    }
  }

  lemma ChannelsReached(s: Script)
    requires RopMulti.Reached(s.common)
    ensures ChannelReplay({}, Session(s).log) == Some({})
  {
    var c := s.common;
    var hClient := c.client.out;
    var tail := Epilogue(hClient, s.clientFree);
    RopMulti.PrologueFacts(c);
    EnumerateReplays(s, hClient, 0, LoopState(0, 0, RopMulti.Prologue(c), []), [HeldObject(hClient, ClientClass)]);
    ChannelReplayAppend({}, LoopEnd(s).log, tail);
    assert tail[1..] == [Close(Control)];
    assert {Control} - {Control} == {};
    assert ChannelReplay({Control}, tail[1..]) == Some({});
    assert ChannelReplay({Control}, tail) == Some({});
  }

  /** Every handle is named only while held with the right class, every
      free releases the innermost held object, and nothing is held at the
      end: each object allocated is freed exactly once, the client last. */
  lemma SessionHandles(s: Script)
    ensures HandleReplay([], Session(s).log) == Some([])
  {
    var c := s.common;
    if c.control.SysFailed? {
      assert Session(s).log == [Open(Control, c.control)];
      assert Session(s).log[1..] == [];
    } else if !Succeeded(c.client) {
      HandlesWithoutClient(s);
    } else {
      HandlesReached(s);
    }
  }

  lemma HandlesWithoutClient(s: Script)
    requires s.common.control.SysOk? && !Succeeded(s.common.client)
    ensures HandleReplay([], Session(s).log) == Some([])
  {
    var c := s.common;
    RopMulti.PrologueFacts(c);
    HandleReplayAppend([], RopMulti.Prologue(c), [Close(Control)]);
    assert [Close(Control)][1..] == [];
  }

  lemma HandlesReached(s: Script)
    requires RopMulti.Reached(s.common)
    ensures HandleReplay([], Session(s).log) == Some([])
  {
    var c := s.common;
    var hClient := c.client.out;
    var held := [HeldObject(hClient, ClientClass)];
    var tail := Epilogue(hClient, s.clientFree);
    RopMulti.PrologueFacts(c);
    EnumerateReplays(s, hClient, 0, LoopState(0, 0, RopMulti.Prologue(c), []), held);
    HandleReplayAppend([], LoopEnd(s).log, tail);
    assert held[..|held| - 1] == [];
    HandleReplayTwo(held, [], [], tail[0], tail[1]);
  }
}
