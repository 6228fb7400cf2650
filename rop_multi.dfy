/** The multi-unit program (src/ropmulti.c): open the control channel,
    allocate one client, then probe units 0, 1, 2, ... and for each unit
    that opens allocate a device, a subdevice and query it. No handle is
    ever freed; every unit channel is closed within its iteration. */
module RopMulti {
  import opened Protocol
  import opened Requests
  import opened Discipline
  import opened RmCalls

  /** The driver's answers to the calls made for one unit. */
  datatype UnitScript = UnitScript(
    openResult: SysResult,
    registerResult: SysResult,
    device: Reply<Handle>,
    subdevice: Reply<Handle>,
    query: Reply<RopInfo>)

  /** The driver's answers for one run: the control-channel open, the client
      allocation, one entry per unit (units past the end have no device
      node), and whether /dev/nvidia0 exists at the final check. */
  datatype Script = Script(
    control: SysResult,
    client: Reply<Handle>,
    units: seq<UnitScript>,
    nvidia0Present: bool)

  const Absent: UnitScript :=
    UnitScript(SysFailed(NoEntry), SysFailed(NoEntry), TransportFailed(NoEntry),
               TransportFailed(NoEntry), TransportFailed(NoEntry))

  function UnitAt(s: Script, i: nat): UnitScript
  {
    if i < |s.units| then s.units[i] else Absent
  }

  predicate Probed(u: UnitScript)
  {
    ProbeOk(u.openResult, u.registerResult)
  }

  /** A unit whose three driver calls all succeed. */
  predicate UnitOk(u: UnitScript)
  {
    Succeeded(u.device) && Succeeded(u.subdevice) && Succeeded(u.query)
  }

  datatype Report = Report(index: nat, info: RopInfo)

  datatype UnitOutcome = Stopped(notFound: bool) | Skipped | Processed(info: RopInfo)

  datatype UnitRun = UnitRun(events: seq<Event>, outcome: UnitOutcome)

  /** The allocations and query made for a unit whose probe succeeded: each
      one only after the previous succeeded, naming the handle it returned. */
  function UnitRequests(hClient: Handle, i: nat, u: UnitScript): seq<Event>
  {
    [Alloc(DeviceRequest(hClient, i), u.device)] +
    if !Succeeded(u.device) then []
    else
      [Alloc(SubdeviceRequest(hClient, u.device.out), u.subdevice)] +
      if !Succeeded(u.subdevice) then []
      else [Query(RopInfoRequest(hClient, u.subdevice.out), u.query)]
  }

  /** How the iteration for a unit ends: the loop stops when the probe
      fails (telling whether the unit was not found), the unit is skipped
      when one of its three calls fails, and processed otherwise. */
  function Outcome(u: UnitScript): UnitOutcome
  {
    if !Probed(u) then Stopped(ProbeErrno(u.openResult, u.registerResult) == NoEntry)
    else if UnitOk(u) then Processed(u.query.out)
    else Skipped
  }

  /** One iteration of the loop in `main` for unit `i`: the probe, then, if
      it succeeded, the requests and the close of the unit channel, whatever
      the requests answered. */
  function RunUnit(hClient: Handle, i: nat, u: UnitScript): UnitRun
  {
    var probe := ProbeEvents(i, u.openResult, u.registerResult);
    UnitRun(probe + (if Probed(u) then UnitRequests(hClient, i, u) + [Close(Unit(i))] else []), Outcome(u))
  }

  /** The variables `main` updates across iterations. */
  datatype LoopState = LoopState(ret: int, deviceCount: nat, log: seq<Event>, reports: seq<Report>)

  /** The exit code after an iteration: a unit not found at a later index
      than 0 leaves it alone, a processed unit too; anything else sets 1. */
  function NextRet(ret: int, i: nat, outcome: UnitOutcome): int
  {
    match outcome
    case Stopped(notFound) => if notFound && i != 0 then ret else 1
    case Skipped => 1
    case Processed(_) => ret
  }

  /** The state after an iteration: its calls are appended to the log, a
      unit that opened is counted, a processed unit is reported. */
  function Next(st: LoopState, i: nat, r: UnitRun): LoopState
  {
    LoopState(
      NextRet(st.ret, i, r.outcome),
      if r.outcome.Stopped? then st.deviceCount else st.deviceCount + 1,
      st.log + r.events,
      if r.outcome.Processed? then st.reports + [Report(i, r.outcome.info)] else st.reports)
  }

  /** The loop of `main` from unit `i` on, returning the state at `break`. */
  function Enumerate(s: Script, hClient: Handle, i: nat, st: LoopState): LoopState
    decreases |s.units| - i
  {
    var r := RunUnit(hClient, i, UnitAt(s, i));
    if !Probed(UnitAt(s, i)) then Next(st, i, r)
    else Enumerate(s, hClient, i + 1, Next(st, i, r))
  }

  lemma EnumerateStep(s: Script, hClient: Handle, i: nat, st: LoopState)
    requires Probed(UnitAt(s, i))
    ensures Enumerate(s, hClient, i, st) == Enumerate(s, hClient, i + 1, Next(st, i, RunUnit(hClient, i, UnitAt(s, i))))
  {
  }

  /** The check after the loop: with no unit counted and no error recorded,
      the exit code becomes 1 whether or not /dev/nvidia0 exists. */
  function FinalExit(ret: int, deviceCount: nat, nvidia0Present: bool): int
  {
    if deviceCount == 0 && ret == 0 then
      (if nvidia0Present then (if ret == 0 then 1 else ret) else (if ret == 0 then 1 else ret))
    else ret
  }

  lemma EnumerateStop(s: Script, hClient: Handle, i: nat, st: LoopState)
    requires !Probed(UnitAt(s, i))
    ensures Enumerate(s, hClient, i, st) == Next(st, i, RunUnit(hClient, i, UnitAt(s, i)))
  {
  }

  datatype SessionResult = SessionResult(exit: int, log: seq<Event>, deviceCount: nat, reports: seq<Report>)

  /** The control channel opened and the client was allocated. */
  predicate Reached(s: Script)
  {
    s.control.SysOk? && Succeeded(s.client)
  }

  /** The calls before the loop: open the control channel, allocate the client. */
  function Prologue(s: Script): seq<Event>
  {
    [Open(Control, s.control), Alloc(ClientRequest(), s.client)]
  }

  /** The state of `main` at `break`, for a run that reaches the loop. */
  function LoopEnd(s: Script): LoopState
    requires Reached(s)
  {
    Enumerate(s, s.client.out, 0, LoopState(0, 0, Prologue(s), []))
  }

  /** What `main` does, as a function of the driver's answers. */
  function Session(s: Script): SessionResult
  {
    if s.control.SysFailed? then SessionResult(1, [Open(Control, s.control)], 0, [])
    else if !Succeeded(s.client) then SessionResult(1, Prologue(s) + [Close(Control)], 0, [])
    else
      var st := LoopEnd(s);
      SessionResult(FinalExit(st.ret, st.deviceCount, s.nvidia0Present), st.log + [Close(Control)], st.deviceCount, st.reports)
  }

  /** The body of the loop in `main` after unit `deviceIndex` was opened:
      allocate the device, then the subdevice, then query, stopping at the
      first failure; the unit channel is closed on every path.
      `processed` tells whether the unit's figures are printed. */
  method ProcessUnit(hClient: Handle, deviceIndex: nat, u: UnitScript)
    returns (processed: bool, info: RopInfo, ghost events: seq<Event>)
    requires Probed(u)
    ensures processed <==> UnitOk(u)
    ensures processed ==> info == u.query.out
    ensures events == UnitRequests(hClient, deviceIndex, u) + [Close(Unit(deviceIndex))]
  {
    var hDevice: Handle := 0;
    var hSubDevice: Handle := 0;
    var ok, req;
    info := RopInfo(0, 0, 0);

    ok, hDevice, req := AllocDevice(hClient, deviceIndex, hDevice, u.device);
    assert req == DeviceRequest(hClient, deviceIndex);
    events := [Alloc(req, u.device)];
    if !ok {
      events := events + [Close(Unit(deviceIndex))];
      return false, info, events;
    }

    ok, hSubDevice, req := AllocSubdevice(hClient, hDevice, hSubDevice, u.subdevice);
    assert req == SubdeviceRequest(hClient, hDevice);
    events := events + [Alloc(req, u.subdevice)];
    if !ok {
      events := events + [Close(Unit(deviceIndex))];
      return false, info, events;
    }

    var qreq;
    ok, info, qreq := GetRopCount(hClient, hSubDevice, u.query);
    events := events + [Query(qreq, u.query)];
    events := events + [Close(Unit(deviceIndex))];
    processed := ok;
  }

  /** The loop of `main`, from unit 0 until the first unit that does not
      open, starting from the calls in `start`. */
  method EnumerateUnits(s: Script, hClient: Handle, ghost start: seq<Event>)
    returns (ret: int, deviceCount: nat, ghost log: seq<Event>, reports: seq<Report>)
    ensures ret == Enumerate(s, hClient, 0, LoopState(0, 0, start, [])).ret
    ensures deviceCount == Enumerate(s, hClient, 0, LoopState(0, 0, start, [])).deviceCount
    ensures reports == Enumerate(s, hClient, 0, LoopState(0, 0, start, [])).reports
    ensures log == Enumerate(s, hClient, 0, LoopState(0, 0, start, [])).log
  {
    ret, deviceCount, log, reports := 0, 0, start, [];
    ghost var final := Enumerate(s, hClient, 0, LoopState(0, 0, start, []));
    for deviceIndex := 0 to *
      invariant Enumerate(s, hClient, deviceIndex, LoopState(ret, deviceCount, log, reports)) == final
      decreases |s.units| - deviceIndex
    {
      var u := UnitAt(s, deviceIndex);
      ghost var before := LoopState(ret, deviceCount, log, reports);

      var probeOk, errno, probe := OpenNvidiaDevice(deviceIndex, u.openResult, u.registerResult);
      if !probeOk {
        if errno == NoEntry {
          if deviceIndex == 0 {
            ret := 1;
          }
        } else {
          ret := 1;
        }
        ghost var run := UnitRun(probe, Stopped(errno == NoEntry));
        assert RunUnit(hClient, deviceIndex, u) == run;
        log := log + probe;
        assert LoopState(ret, deviceCount, log, reports) == Next(before, deviceIndex, run);
        EnumerateStop(s, hClient, deviceIndex, before);
        break;
      }

      deviceCount := deviceCount + 1;

      var processed, info, rest := ProcessUnit(hClient, deviceIndex, u);
      ghost var run := UnitRun(probe + rest, if processed then Processed(info) else Skipped);
      assert RunUnit(hClient, deviceIndex, u) == run;
      log := log + (probe + rest);
      if processed {
        reports := reports + [Report(deviceIndex, info)];
      } else {
        ret := 1;
      }
      assert LoopState(ret, deviceCount, log, reports) == Next(before, deviceIndex, run);
      EnumerateStep(s, hClient, deviceIndex, before);
    }
  }

  /** `main`: returns the exit code and the reports printed; `log` records
      every call made. */
  method Run(s: Script) returns (ret: int, ghost log: seq<Event>, reports: seq<Report>)
    ensures ret == Session(s).exit
    ensures log == Session(s).log
    ensures reports == Session(s).reports
  {
    ret := 0;
    var hClient: Handle := 0;
    reports := [];

    log := [Open(Control, s.control)];
    if s.control.SysFailed? {
      ret := 1;
      return;
    }

    var ok, req;
    ok, hClient, req := AllocClient(hClient, s.client);
    log := log + [Alloc(req, s.client)];
    assert log == Prologue(s);
    if !ok {
      log := log + [Close(Control)];
      ret := 1;
      return;
    }

    var deviceCount;
    ret, deviceCount, log, reports := EnumerateUnits(s, hClient, log);
    log := log + [Close(Control)];

    if deviceCount == 0 && ret == 0 {
      if s.nvidia0Present {
        if ret == 0 {
          ret := 1;
        }
      } else {
        if ret == 0 {
          ret := 1;
        }
      }
    }
  }

  // ---------------------------------------------------------------------
  // Properties of a whole run

  /** The first unit from `i` on whose probe fails: the unit at which the
      loop breaks. Every unit before it, from `i` on, opens. */
  function StopFrom(s: Script, i: nat): (k: nat)
    ensures i <= k
    ensures !Probed(UnitAt(s, k))
    ensures forall j :: i <= j < k ==> Probed(UnitAt(s, j))
    decreases |s.units| - i
  {
    if !Probed(UnitAt(s, i)) then i else StopFrom(s, i + 1)
  }

  /** The unit at which the loop of a run breaks. */
  function Stop(s: Script): nat
  {
    StopFrom(s, 0)
  }

  /** The reports of the units in [i, k) whose three calls succeed, in order. */
  function ReportsBetween(s: Script, i: nat, k: nat): seq<Report>
    decreases k - i
  {
    if i >= k then []
    else
      var u := UnitAt(s, i);
      (if UnitOk(u) then [Report(i, u.query.out)] else []) + ReportsBetween(s, i + 1, k)
  }

  /** The loop counts exactly the units before the stopping one and reports
      exactly those whose three calls succeeded. */
  lemma {:induction false} EnumerateCounts(s: Script, hClient: Handle, i: nat, st: LoopState)
    ensures Enumerate(s, hClient, i, st).deviceCount == st.deviceCount + (StopFrom(s, i) - i)
    ensures Enumerate(s, hClient, i, st).reports == st.reports + ReportsBetween(s, i, StopFrom(s, i))
    decreases |s.units| - i
  {
    if Probed(UnitAt(s, i)) {
      EnumerateCounts(s, hClient, i + 1, Next(st, i, RunUnit(hClient, i, UnitAt(s, i))));
      CountsContinue(s, hClient, i, st);
    } else {
      CountsBreak(s, hClient, i, st);
    }
  }

  /** The inductive step of `EnumerateCounts`, for a unit that opened. */
  lemma CountsContinue(s: Script, hClient: Handle, i: nat, st: LoopState)
    requires Probed(UnitAt(s, i))
    requires var nx := Next(st, i, RunUnit(hClient, i, UnitAt(s, i)));
      var k := StopFrom(s, i + 1);
      Enumerate(s, hClient, i + 1, nx).deviceCount == nx.deviceCount + (k - (i + 1)) &&
      Enumerate(s, hClient, i + 1, nx).reports == nx.reports + ReportsBetween(s, i + 1, k)
    ensures Enumerate(s, hClient, i, st).deviceCount == st.deviceCount + (StopFrom(s, i) - i)
    ensures Enumerate(s, hClient, i, st).reports == st.reports + ReportsBetween(s, i, StopFrom(s, i))
  {
    var u := UnitAt(s, i);
    var nx := Next(st, i, RunUnit(hClient, i, u));
    var k := StopFrom(s, i + 1);
    var mine := if UnitOk(u) then [Report(i, u.query.out)] else [];
    EnumerateStep(s, hClient, i, st);
    assert StopFrom(s, i) == k;
    assert nx.deviceCount == st.deviceCount + 1;
    assert nx.reports == st.reports + mine;
    assert ReportsBetween(s, i, k) == mine + ReportsBetween(s, i + 1, k);
    AppendAssoc(st.reports, mine, ReportsBetween(s, i + 1, k));
  }

  /** The base case of `EnumerateCounts`: the unit that breaks the loop. */
  lemma CountsBreak(s: Script, hClient: Handle, i: nat, st: LoopState)
    requires !Probed(UnitAt(s, i))
    ensures Enumerate(s, hClient, i, st).deviceCount == st.deviceCount + (StopFrom(s, i) - i)
    ensures Enumerate(s, hClient, i, st).reports == st.reports + ReportsBetween(s, i, StopFrom(s, i))
  {
    EnumerateStop(s, hClient, i, st);
    assert StopFrom(s, i) == i;
    assert st.reports + [] == st.reports;
  }

  /** The unit at `k` breaks the loop on "not found" at a later index than 0. */
  predicate StopsCleanly(s: Script, k: nat)
  {
    var u := UnitAt(s, k);
    k > 0 && !Probed(u) && ProbeErrno(u.openResult, u.registerResult) == NoEntry
  }

  predicate AllOkBetween(s: Script, i: nat, k: nat)
  {
    forall j :: i <= j < k ==> UnitOk(UnitAt(s, j))
  }

  /** The loop leaves `ret` at 0 iff it was 0, every unit it counted
      succeeded, and it broke cleanly. */
  lemma {:induction false} EnumerateExit(s: Script, hClient: Handle, i: nat, st: LoopState)
    requires st.ret == 0 || st.ret == 1
    ensures Enumerate(s, hClient, i, st).ret ==
            if st.ret == 0 && AllOkBetween(s, i, StopFrom(s, i)) && StopsCleanly(s, StopFrom(s, i)) then 0 else 1
    decreases |s.units| - i
  {
    if Probed(UnitAt(s, i)) {
      EnumerateExit(s, hClient, i + 1, Next(st, i, RunUnit(hClient, i, UnitAt(s, i))));
      ExitContinue(s, hClient, i, st);
    } else {
      ExitBreak(s, hClient, i, st);
    }
  }

  /** The inductive step of `EnumerateExit`, for a unit that opened. */
  lemma ExitContinue(s: Script, hClient: Handle, i: nat, st: LoopState)
    requires Probed(UnitAt(s, i))
    requires st.ret == 0 || st.ret == 1
    requires var nx := Next(st, i, RunUnit(hClient, i, UnitAt(s, i)));
      var k := StopFrom(s, i + 1);
      Enumerate(s, hClient, i + 1, nx).ret ==
      if nx.ret == 0 && AllOkBetween(s, i + 1, k) && StopsCleanly(s, k) then 0 else 1
    ensures Enumerate(s, hClient, i, st).ret ==
            if st.ret == 0 && AllOkBetween(s, i, StopFrom(s, i)) && StopsCleanly(s, StopFrom(s, i)) then 0 else 1
  {
    var u := UnitAt(s, i);
    var nx := Next(st, i, RunUnit(hClient, i, u));
    var k := StopFrom(s, i + 1);
    EnumerateStep(s, hClient, i, st);
    assert StopFrom(s, i) == k;
    assert nx.ret == if UnitOk(u) then st.ret else 1;
    assert AllOkBetween(s, i, k) <==> UnitOk(u) && AllOkBetween(s, i + 1, k);
  }

  /** The base case of `EnumerateExit`: the unit that breaks the loop. */
  lemma ExitBreak(s: Script, hClient: Handle, i: nat, st: LoopState)
    requires !Probed(UnitAt(s, i))
    requires st.ret == 0 || st.ret == 1
    ensures Enumerate(s, hClient, i, st).ret ==
            if st.ret == 0 && AllOkBetween(s, i, StopFrom(s, i)) && StopsCleanly(s, StopFrom(s, i)) then 0 else 1
  {
    EnumerateStop(s, hClient, i, st);
    assert StopFrom(s, i) == i;
    assert AllOkBetween(s, i, i);
  }

  /** The objects those requests create. */
  function NewObjects(u: UnitScript): seq<HeldObject>
  {
    if !Succeeded(u.device) then []
    else
      [HeldObject(u.device.out, DeviceClass)] +
      if Succeeded(u.subdevice) then [HeldObject(u.subdevice.out, SubdeviceClass)] else []
  }

  /** Each request names a held client and the innermost object just created. */
  lemma UnitRequestsHandles(hClient: Handle, i: nat, u: UnitScript, held: seq<HeldObject>)
    requires Holds(held, hClient, ClientClass)
    ensures RequestsOnly(UnitRequests(hClient, i, u))
    ensures HandleReplay(held, UnitRequests(hClient, i, u)) == Some(held + NewObjects(u))
  {
    var reqs := UnitRequests(hClient, i, u);
    if Succeeded(u.device) {
      var withDevice := held + [HeldObject(u.device.out, DeviceClass)];
      assert Holds(withDevice, hClient, ClientClass);
      assert HandleStep(held, reqs[0]) == Some(withDevice);
      var rest := reqs[1..];
      if Succeeded(u.subdevice) {
        var withSub := withDevice + [HeldObject(u.subdevice.out, SubdeviceClass)];
        assert Holds(withSub, hClient, ClientClass);
        assert HandleStep(withDevice, rest[0]) == Some(withSub);
        assert rest[1..] == [Query(RopInfoRequest(hClient, u.subdevice.out), u.query)];
        assert HandleReplay(withSub, rest[1..]) == Some(withSub);
        assert held + NewObjects(u) == withSub;
      } else {
        assert rest == [Alloc(SubdeviceRequest(hClient, u.device.out), u.subdevice)];
        assert HandleStep(withDevice, rest[0]) == Some(withDevice);
        assert HandleReplay(withDevice, rest) == Some(withDevice);
        assert held + NewObjects(u) == withDevice;
      }
    } else {
      assert HandleStep(held, reqs[0]) == Some(held);
      assert held + NewObjects(u) == held;
    }
  }

  /** One iteration probes unit `i` only. */
  lemma {:induction false} UnitProbes(hClient: Handle, i: nat, u: UnitScript)
    ensures ProbeOrder(RunUnit(hClient, i, u).events) == [i]
  {
    var probe := ProbeEvents(i, u.openResult, u.registerResult);
    ProbeFacts(i, u.openResult, u.registerResult, []);
    if Probed(u) {
      var reqs := UnitRequests(hClient, i, u);
      var close := [Close(Unit(i))];
      UnitRequestsHandles(hClient, i, u, [HeldObject(hClient, ClientClass)]);
      RequestsOnlyFacts({Control}, reqs);
      CloseFacts([], {}, Unit(i));
      ProbeOrderAppend(probe, reqs + close);
      ProbeOrderAppend(reqs, close);
    } else {
      assert RunUnit(hClient, i, u).events == probe;
    }
  }

  /** One iteration frees nothing. */
  lemma {:induction false} UnitFreesNothing(hClient: Handle, i: nat, u: UnitScript)
    ensures FreedIn(RunUnit(hClient, i, u).events) == []
  {
    var probe := ProbeEvents(i, u.openResult, u.registerResult);
    ProbeFacts(i, u.openResult, u.registerResult, []);
    if Probed(u) {
      var reqs := UnitRequests(hClient, i, u);
      var close := [Close(Unit(i))];
      UnitRequestsHandles(hClient, i, u, [HeldObject(hClient, ClientClass)]);
      RequestsOnlyFacts({Control}, reqs);
      CloseFacts([], {}, Unit(i));
      FreedInAppend(probe, reqs + close);
      FreedInAppend(reqs, close);
    } else {
      assert RunUnit(hClient, i, u).events == probe;
    }
  }

  /** One iteration leaves only the control channel open. */
  lemma {:induction false} UnitChannels(hClient: Handle, i: nat, u: UnitScript)
    ensures ChannelReplay({Control}, RunUnit(hClient, i, u).events) == Some({Control})
  {
    var probe := ProbeEvents(i, u.openResult, u.registerResult);
    ProbeLeavesNoChannelOnFailure(i, u.openResult, u.registerResult);
    if Probed(u) {
      var reqs := UnitRequests(hClient, i, u);
      var close := [Close(Unit(i))];
      var withUnit: set<Channel> := {Control, Unit(i)};
      UnitRequestsHandles(hClient, i, u, [HeldObject(hClient, ClientClass)]);
      RequestsOnlyFacts(withUnit, reqs);
      CloseFacts([], withUnit, Unit(i));
      assert withUnit - {Unit(i)} == {Control};
      ChannelReplayAppend({Control}, probe, reqs + close);
      ChannelReplayAppend(withUnit, reqs, close);
    } else {
      assert RunUnit(hClient, i, u).events == probe;
    }
  }

  /** One iteration adds to the held objects what it created. */
  lemma {:induction false} UnitHandles(hClient: Handle, i: nat, u: UnitScript, held: seq<HeldObject>)
    requires Holds(held, hClient, ClientClass)
    ensures HandleReplay(held, RunUnit(hClient, i, u).events) == Some(held + if Probed(u) then NewObjects(u) else [])
  {
    var probe := ProbeEvents(i, u.openResult, u.registerResult);
    ProbeFacts(i, u.openResult, u.registerResult, held);
    if Probed(u) {
      var reqs := UnitRequests(hClient, i, u);
      var close := [Close(Unit(i))];
      UnitRequestsHandles(hClient, i, u, held);
      CloseFacts(held + NewObjects(u), {}, Unit(i));
      HandleReplayAppend(held, probe, reqs + close);
      HandleReplayAppend(held, reqs, close);
    } else {
      assert RunUnit(hClient, i, u).events == probe;
      assert held + [] == held;
    }
  }

  /** From unit `i` on, the loop probes exactly units i..StopFrom(s, i), in
      order. */
  lemma {:induction false} EnumerateProbes(s: Script, hClient: Handle, i: nat, st: LoopState)
    ensures ProbeOrder(Enumerate(s, hClient, i, st).log) == ProbeOrder(st.log) + Span(i, StopFrom(s, i) + 1)
    decreases |s.units| - i
  {
    if Probed(UnitAt(s, i)) {
      var nx := Next(st, i, RunUnit(hClient, i, UnitAt(s, i)));
      var k := StopFrom(s, i + 1);
      EnumerateProbes(s, hClient, i + 1, nx);
      assert ProbeOrder(Enumerate(s, hClient, i + 1, nx).log) == ProbeOrder(nx.log) + Span(i + 1, k + 1);
      ProbesContinue(s, hClient, i, st);
    } else {
      ProbesBreak(s, hClient, i, st);
    }
  }

  /** The inductive step of `EnumerateProbes`, for a unit that opened. */
  lemma ProbesContinue(s: Script, hClient: Handle, i: nat, st: LoopState)
    requires Probed(UnitAt(s, i))
    requires var nx := Next(st, i, RunUnit(hClient, i, UnitAt(s, i)));
      ProbeOrder(Enumerate(s, hClient, i + 1, nx).log) == ProbeOrder(nx.log) + Span(i + 1, StopFrom(s, i + 1) + 1)
    ensures ProbeOrder(Enumerate(s, hClient, i, st).log) == ProbeOrder(st.log) + Span(i, StopFrom(s, i) + 1)
  {
    var nx := Next(st, i, RunUnit(hClient, i, UnitAt(s, i)));
    var k := StopFrom(s, i + 1);
    var later := Enumerate(s, hClient, i + 1, nx);
    StepProbes(st, hClient, i, UnitAt(s, i));
    assert ProbeOrder(later.log) == (ProbeOrder(st.log) + [i]) + Span(i + 1, k + 1);
    SpanStep(ProbeOrder(st.log), ProbeOrder(later.log), i, k);
    EnumerateStep(s, hClient, i, st);
    assert StopFrom(s, i) == k;
  }

  /** The base case of `EnumerateProbes`: the unit that breaks the loop. */
  lemma ProbesBreak(s: Script, hClient: Handle, i: nat, st: LoopState)
    requires !Probed(UnitAt(s, i))
    ensures ProbeOrder(Enumerate(s, hClient, i, st).log) == ProbeOrder(st.log) + Span(i, StopFrom(s, i) + 1)
  {
    StepProbes(st, hClient, i, UnitAt(s, i));
    EnumerateStop(s, hClient, i, st);
    assert Span(i, i + 1) == [i];
  }

  /** One iteration adds exactly unit `i` to the units probed. */
  lemma StepProbes(st: LoopState, hClient: Handle, i: nat, u: UnitScript)
    ensures ProbeOrder(Next(st, i, RunUnit(hClient, i, u)).log) == ProbeOrder(st.log) + [i]
  {
    UnitProbes(hClient, i, u);
    ProbeOrderAppend(st.log, RunUnit(hClient, i, u).events);
  }

  /** From unit `i` on, the loop frees nothing. */
  lemma {:induction false} EnumerateFrees(s: Script, hClient: Handle, i: nat, st: LoopState)
    ensures FreedIn(Enumerate(s, hClient, i, st).log) == FreedIn(st.log)
    decreases |s.units| - i
  {
    FreesStep(st, hClient, i, UnitAt(s, i));
    if Probed(UnitAt(s, i)) {
      EnumerateFrees(s, hClient, i + 1, Next(st, i, RunUnit(hClient, i, UnitAt(s, i))));
      EnumerateStep(s, hClient, i, st);
    } else {
      EnumerateStop(s, hClient, i, st);
    }
  }

  /** One iteration adds no free request to the log. */
  lemma FreesStep(st: LoopState, hClient: Handle, i: nat, u: UnitScript)
    ensures FreedIn(Next(st, i, RunUnit(hClient, i, u)).log) == FreedIn(st.log)
  {
    var r := RunUnit(hClient, i, u);
    UnitFreesNothing(hClient, i, u);
    FreedInAppend(st.log, r.events);
    assert FreedIn(st.log) + [] == FreedIn(st.log);
  }

  /** From unit `i` on, the loop keeps only the control channel open between
      iterations and names only held handles. */
  lemma {:induction false} EnumerateReplays(s: Script, hClient: Handle, i: nat, st: LoopState, held: seq<HeldObject>)
    requires HandleReplay([], st.log) == Some(held) && Holds(held, hClient, ClientClass)
    requires ChannelReplay({}, st.log) == Some({Control})
    ensures ChannelReplay({}, Enumerate(s, hClient, i, st).log) == Some({Control})
    ensures HandleReplay([], Enumerate(s, hClient, i, st).log).Some?
    decreases |s.units| - i
  {
    var u := UnitAt(s, i);
    ReplaysStep(st, hClient, i, u, held);
    if Probed(u) {
      var held' := held + NewObjects(u);
      assert Holds(held', hClient, ClientClass);
      EnumerateReplays(s, hClient, i + 1, Next(st, i, RunUnit(hClient, i, u)), held');
      EnumerateStep(s, hClient, i, st);
    } else {
      EnumerateStop(s, hClient, i, st);
    }
  }

  /** One iteration, replayed after the log so far. */
  lemma ReplaysStep(st: LoopState, hClient: Handle, i: nat, u: UnitScript, held: seq<HeldObject>)
    requires HandleReplay([], st.log) == Some(held) && Holds(held, hClient, ClientClass)
    requires ChannelReplay({}, st.log) == Some({Control})
    ensures ChannelReplay({}, Next(st, i, RunUnit(hClient, i, u)).log) == Some({Control})
    ensures HandleReplay([], Next(st, i, RunUnit(hClient, i, u)).log) ==
            Some(held + if Probed(u) then NewObjects(u) else [])
  {
    var r := RunUnit(hClient, i, u);
    UnitChannels(hClient, i, u);
    UnitHandles(hClient, i, u, held);
    ChannelReplayAppend({}, st.log, r.events);
    HandleReplayAppend([], st.log, r.events);
  }

  /** The runs that exit with 0: every unit before the first missing one
      answered all three calls, and at least one unit was found. */
  predicate Works(s: Script)
  {
    Reached(s) && AllOkBetween(s, 0, Stop(s)) && StopsCleanly(s, Stop(s))
  }

  /** The exit code is 0 or 1, and 0 exactly for the runs that work. */
  lemma SessionExit(s: Script)
    ensures Session(s).exit == if Works(s) then 0 else 1
  {
    if Reached(s) {
      EnumerateExit(s, s.client.out, 0, LoopState(0, 0, Prologue(s), []));
      EnumerateCounts(s, s.client.out, 0, LoopState(0, 0, Prologue(s), []));
    }
  }

  /** The units counted are those before the stopping one, and the reports
      are those of the units whose three calls succeeded, in index order. */
  lemma SessionCounts(s: Script)
    ensures Session(s).deviceCount == if Reached(s) then Stop(s) else 0
    ensures Session(s).reports == if Reached(s) then ReportsBetween(s, 0, Stop(s)) else []
  {
    if Reached(s) {
      EnumerateCounts(s, s.client.out, 0, LoopState(0, 0, Prologue(s), []));
    }
  }

  lemma {:induction false} SameUnitsSameStop(s: Script, t: Script, i: nat)
    requires s.units == t.units
    ensures StopFrom(s, i) == StopFrom(t, i)
    decreases |s.units| - i
  {
    if Probed(UnitAt(s, i)) {
      SameUnitsSameStop(s, t, i + 1);
    }
  }

  /** With no unit counted the exit code is 1, and the final /dev/nvidia0
      check never changes the exit code. */
  lemma NoUnitMeansFailure(s: Script)
    ensures Session(s).deviceCount == 0 ==> Session(s).exit == 1
    ensures Session(s).exit == Session(s.(nvidia0Present := !s.nvidia0Present)).exit
  {
    SessionExit(s);
    SessionExit(s.(nvidia0Present := !s.nvidia0Present));
    SessionCounts(s);
    var t := s.(nvidia0Present := !s.nvidia0Present);
    SameUnitsSameStop(s, t, 0);
    assert Reached(s) == Reached(t);
    assert forall j :: UnitAt(s, j) == UnitAt(t, j);
    assert StopsCleanly(s, Stop(s)) == StopsCleanly(t, Stop(t));
    assert Works(s) == Works(t);
  }

  /** The calls before the loop probe, free and create nothing but the
      client, and leave the control channel open. */
  lemma PrologueFacts(s: Script)
    requires s.control.SysOk?
    ensures ProbeOrder(Prologue(s)) == [] && FreedIn(Prologue(s)) == []
    ensures ChannelReplay({}, Prologue(s)) == Some({Control})
    ensures HandleReplay([], Prologue(s)) ==
            Some(if Succeeded(s.client) then [HeldObject(s.client.out, ClientClass)] else [])
  {
    var log := Prologue(s);
    var rest := [Alloc(ClientRequest(), s.client)];
    assert log[1..] == rest;
    assert {} + {Control} == {Control};
    assert ChannelReplay({Control}, rest) == Some({Control});
    FiltersOfOne(rest[0]);
    if Succeeded(s.client) {
      var held := [HeldObject(s.client.out, ClientClass)];
      assert HandleStep([], rest[0]) == Some([] + held);
      assert [] + held == held;
      assert HandleReplay([], rest) == Some(held);
    } else {
      assert HandleReplay([], rest) == Some([]);
    }
  }

  /** Units are probed in order 0, 1, ..., up to and including the stopping
      one. */
  lemma SessionProbes(s: Script)
    ensures Reached(s) ==> ProbeOrder(Session(s).log) == Span(0, Stop(s) + 1)
    ensures !Reached(s) ==> ProbeOrder(Session(s).log) == []
  {
    if s.control.SysFailed? {
      assert Session(s).log == [Open(Control, s.control)];
    } else if !Succeeded(s.client) {
      ProbesWithoutClient(s);
    } else {
      ProbesReached(s);
    }
  }

  lemma ProbesWithoutClient(s: Script)
    requires s.control.SysOk? && !Succeeded(s.client)
    ensures ProbeOrder(Session(s).log) == []
  {
    PrologueFacts(s);
    ProbeOrderAppend(Prologue(s), [Close(Control)]);
  }

  lemma ProbesReached(s: Script)
    requires Reached(s)
    ensures ProbeOrder(Session(s).log) == Span(0, Stop(s) + 1)
  {
    PrologueFacts(s);
    EnumerateProbes(s, s.client.out, 0, LoopState(0, 0, Prologue(s), []));
    ProbeOrderAppend(LoopEnd(s).log, [Close(Control)]);
  }

  /** No free request is ever issued. */
  lemma SessionFrees(s: Script)
    ensures FreedIn(Session(s).log) == []
  {
    var close := [Close(Control)];
    if s.control.SysOk? {
      PrologueFacts(s);
      if Succeeded(s.client) {
        EnumerateFrees(s, s.client.out, 0, LoopState(0, 0, Prologue(s), []));
        FreedInAppend(LoopEnd(s).log, close);
      } else {
        FreedInAppend(Prologue(s), close);
      }
    }
  }

  /** Every call goes over an open channel, at most one unit channel is
      open at a time, and every channel is closed at the end. */
  lemma SessionChannels(s: Script)
    ensures ChannelReplay({}, Session(s).log) == Some({})
  {
    var close := [Close(Control)];
    assert {} + {Control} == {Control};
    assert {Control} - {Control} == {};
    if s.control.SysOk? {
      PrologueFacts(s);
      if Succeeded(s.client) {
        var held := [HeldObject(s.client.out, ClientClass)];
        EnumerateReplays(s, s.client.out, 0, LoopState(0, 0, Prologue(s), []), held);
        ChannelReplayAppend({}, LoopEnd(s).log, close);
      } else {
        ChannelReplayAppend({}, Prologue(s), close);
      }
    }
  }

  /** Every handle named by a request is held, with the right class, when it
      is named: the subdevice is requested only under the device just
      allocated, and the query only against the subdevice just allocated. */
  lemma SessionHandles(s: Script)
    ensures HandleReplay([], Session(s).log).Some?
  {
    var close := [Close(Control)];
    if s.control.SysOk? {
      PrologueFacts(s);
      if Succeeded(s.client) {
        var held := [HeldObject(s.client.out, ClientClass)];
        EnumerateReplays(s, s.client.out, 0, LoopState(0, 0, Prologue(s), []), held);
        HandleReplayAppend([], LoopEnd(s).log, close);
      } else {
        HandleReplayAppend([], Prologue(s), close);
      }
    }
  }
}
