/** The driver-call wrappers of the multi-unit programs. Each C wrapper
    fills a request record, sends it with one `ioctl` and writes its result
    through an output parameter. Here the driver's answer is an input (`reply`),
    the request sent is returned, and an output parameter is an in-out pair
    (`hDevice` in, `hDevice'` out): the new value equals the old one
    wherever the C code leaves it alone. */
module RmCalls {
  import opened Protocol
  import opened Requests
  import opened Discipline

  /** The calls `open_nvidia_device` makes for unit `index`: the open; the
      register request if the open worked; the close if registration failed. */
  function ProbeEvents(index: nat, openResult: SysResult, registerResult: SysResult): seq<Event>
  {
    [Open(Unit(index), openResult)] +
    if openResult.SysFailed? then []
    else [Register(index, registerResult)] + if registerResult.SysFailed? then [Close(Unit(index))] else []
  }

  /** Whether `open_nvidia_device` reports success. */
  predicate ProbeOk(openResult: SysResult, registerResult: SysResult)
  {
    openResult.SysOk? && registerResult.SysOk?
  }

  /** `errno` as `main` reads it after `open_nvidia_device` failed: set by the
      failing `openat`, or by the register `ioctl`. This assumes that the
      `fprintf`, `perror` and `close` calls the probe makes after the failure
      leave it unchanged. */
  function ProbeErrno(openResult: SysResult, registerResult: SysResult): Errno
    requires !ProbeOk(openResult, registerResult)
  {
    if openResult.SysFailed? then openResult.errno else registerResult.errno
  }

  /** open_nvidia_device: succeeds iff the open and the registration both
      succeed, and on failure leaves no unit channel open. */
  method OpenNvidiaDevice(index: nat, openResult: SysResult, registerResult: SysResult)
    returns (ok: bool, errno: Errno, ghost events: seq<Event>)
    ensures ok <==> openResult.SysOk? && registerResult.SysOk?
    ensures !ok ==> errno == (if openResult.SysFailed? then openResult.errno else registerResult.errno)
    ensures events == ProbeEvents(index, openResult, registerResult)
  {
    events := [Open(Unit(index), openResult)];
    if openResult.SysFailed? {
      return false, openResult.errno, events;
    }
    events := events + [Register(index, registerResult)];
    if registerResult.SysFailed? {
      events := events + [Close(Unit(index))];
      return false, registerResult.errno, events;
    }
    ok, errno := true, NoEntry;
  }

  /** open_nvidia_device never leaves the unit channel open when it fails,
      and leaves exactly that channel open when it succeeds. */
  lemma ProbeLeavesNoChannelOnFailure(index: nat, openResult: SysResult, registerResult: SysResult)
    ensures ChannelReplay({Control}, ProbeEvents(index, openResult, registerResult)) ==
            Some(if ProbeOk(openResult, registerResult) then {Control, Unit(index)} else {Control})
  {
    var events := ProbeEvents(index, openResult, registerResult);
    assert {Control} - {Control} == {};
    if openResult.SysOk? {
      assert Unit(index) !in {Control};
      assert {Control} + {Unit(index)} == {Control, Unit(index)};
      assert ChannelStep({Control}, events[0]) == Some({Control, Unit(index)});
      if registerResult.SysFailed? {
        assert {Control, Unit(index)} - {Unit(index)} == {Control};
        assert events[1..][1..] == [Close(Unit(index))];
        assert ChannelReplay({Control, Unit(index)}, [Close(Unit(index))]) == Some({Control});
        assert ChannelReplay({Control, Unit(index)}, events[1..]) == Some({Control});
      } else {
        assert ChannelReplay({Control, Unit(index)}, events[1..]) == Some({Control, Unit(index)});
      }
    }
  }

  /** The probe opens only unit `index`, frees and creates nothing, and
      names no handle. */
  lemma ProbeFacts(index: nat, openResult: SysResult, registerResult: SysResult, held: seq<HeldObject>)
    ensures ProbeOrder(ProbeEvents(index, openResult, registerResult)) == [index]
    ensures FreedIn(ProbeEvents(index, openResult, registerResult)) == []
    ensures CreatedIn(ProbeEvents(index, openResult, registerResult)) == []
    ensures HandleReplay(held, ProbeEvents(index, openResult, registerResult)) == Some(held)
  {
    var events := ProbeEvents(index, openResult, registerResult);
    if openResult.SysOk? {
      var rest := events[1..];
      var tail := rest[1..];
      if registerResult.SysFailed? {
        assert tail == [Close(Unit(index))];
        assert tail[1..] == [];
      } else {
        assert tail == [];
      }
      assert ProbeOrder(tail) == [] && FreedIn(tail) == [] && CreatedIn(tail) == [];
      assert HandleReplay(held, tail) == Some(held);
      assert ProbeOrder(rest) == [] && FreedIn(rest) == [] && CreatedIn(rest) == [];
      assert HandleReplay(held, rest) == Some(held);
    }
  }

  /** alloc_client: sends an all-zero request asking the driver to assign
      the handle; `*hClient` is written, with the assigned handle, only when
      the call succeeds. */
  method AllocClient(hClient: Handle, reply: Reply<Handle>) returns (ok: bool, hClient': Handle, req: ObjectRequest)
    ensures req == ObjectRequest(0, 0, 0, 0, NoParams, 0)
    ensures ok <==> reply.Completed? && reply.status == 0
    ensures hClient' == if ok then reply.out else hClient
  {
    req := ClientRequest();
    if reply.TransportFailed? {
      return false, hClient, req;
    }
    if reply.status != 0 {
      return false, hClient, req;
    }
    ok, hClient' := true, reply.out;
  }

  /** alloc_device: a device under the client (root = parent = client),
      driver-assigned handle, bound to unit `index` by a non-zero-sized
      parameter block; `*hDevice` is written only on success. */
  method AllocDevice(hClient: Handle, index: nat, hDevice: Handle, reply: Reply<Handle>)
    returns (ok: bool, hDevice': Handle, req: ObjectRequest)
    ensures req.hRoot == hClient && req.hObjectParent == hClient && req.hObjectNew == 0
    ensures req.hClass == 0x80 && req.params == DeviceParams(index)
    ensures req.paramsSize == DeviceParamsSize && req.paramsSize != 0
    ensures ok <==> reply.Completed? && reply.status == 0
    ensures hDevice' == if ok then reply.out else hDevice
  {
    req := DeviceRequest(hClient, index);
    if reply.TransportFailed? {
      return false, hDevice, req;
    }
    if reply.status != 0 {
      return false, hDevice, req;
    }
    ok, hDevice' := true, reply.out;
  }

  /** alloc_subdevice: subdevice 0 under `hParentDevice`, driver-assigned
      handle, non-zero parameter size; `*hSubDevice` is written only on
      success. */
  method AllocSubdevice(hClient: Handle, hParentDevice: Handle, hSubDevice: Handle, reply: Reply<Handle>)
    returns (ok: bool, hSubDevice': Handle, req: ObjectRequest)
    ensures req.hRoot == hClient && req.hObjectParent == hParentDevice && req.hObjectNew == 0
    ensures req.hClass == 0x2080 && req.params == SubdeviceParams(0)
    ensures req.paramsSize == SubdeviceParamsSize && req.paramsSize != 0
    ensures ok <==> reply.Completed? && reply.status == 0
    ensures hSubDevice' == if ok then reply.out else hSubDevice
  {
    req := SubdeviceRequest(hClient, hParentDevice);
    if reply.TransportFailed? {
      return false, hSubDevice, req;
    }
    if reply.status != 0 {
      return false, hSubDevice, req;
    }
    ok, hSubDevice' := true, reply.out;
  }

  /** get_rop_count (identical in all three programs): the query command
      against the subdevice with the size of the three-field result; the
      caller's zeroed buffer holds whatever the driver wrote back. */
  method GetRopCount(hClient: Handle, hSubdevice: Handle, reply: Reply<RopInfo>)
    returns (ok: bool, info: RopInfo, req: ControlRequest)
    ensures req == ControlRequest(hClient, hSubdevice, 0x20801213, RopInfoParamsSize)
    ensures ok <==> reply.Completed? && reply.status == 0
    ensures info == if reply.Completed? then reply.out else RopInfo(0, 0, 0)
  {
    req := RopInfoRequest(hClient, hSubdevice);
    info := RopInfo(0, 0, 0);
    if reply.TransportFailed? {
      return false, info, req;
    }
    info := reply.out;
    if reply.status != 0 {
      return false, info, req;
    }
    ok := true;
  }
}
