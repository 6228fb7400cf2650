/** The part of the GPU resource-manager interface that the three ROP-count
    programs use: 32-bit handles, the object classes and command they name,
    the records they send with `ioctl`, the two independent ways a call can
    fail, and the log of calls a session leaves behind. */
module Protocol {

  datatype Option<T> = None | Some(value: T)

  /** NvU32 / NvV32 / NvHandle: unsigned 32-bit. */
  type U32 = x: int | 0 <= x < 0x1_0000_0000
  type Handle = U32

  /** Object classes: a zeroed NVOS21 request carries class 0 (the client root). */
  const ClientClass: U32 := 0
  const DeviceClass: U32 := 0x80          // NV01_DEVICE_0
  const SubdeviceClass: U32 := 0x2080     // NV20_SUBDEVICE_0

  /** Control command selecting the render-output-unit information. */
  const GetRopInfoCmd: U32 := 0x20801213  // CMD_SUBDEVICE_CTRL_GR_GET_ROP_INFO

  /** sizeof of the parameter structs on an LP64 target; the model relies only
      on their being non-zero. */
  const DeviceParamsSize: U32 := 56       // NV0080_ALLOC_PARAMETERS
  const SubdeviceParamsSize: U32 := 4     // NV2080_ALLOC_PARAMETERS
  const RopInfoParamsSize: U32 := 12      // NV2080_CTRL_GR_GET_ROP_INFO_PARAMS

  /** The handles the single-unit program asks the driver to use. */
  const FixedDeviceHandle: Handle := 0xB1000000
  const FixedSubdeviceHandle: Handle := 0xB2000000

  /** What `pAllocParms` points to. `deviceId` is the unit index; the
      NvU32 cast of the C `int` index is not modelled. */
  datatype AllocParams =
    | NoParams
    | DeviceParams(deviceId: nat)
    | SubdeviceParams(subDeviceId: U32)

  /** The fields of an NVOS21/NVOS64 record that the programs set; `flags`
      and `pRightsRequested` are always zero/NULL and `status` is an output.
      Allocation and free requests share this record. */
  datatype ObjectRequest = ObjectRequest(
    hRoot: Handle,
    hObjectParent: Handle,
    hObjectNew: Handle,
    hClass: U32,
    params: AllocParams,
    paramsSize: U32)

  /** The input fields of an NVOS54 control record (`flags` is always 0). */
  datatype ControlRequest = ControlRequest(hClient: Handle, hObject: Handle, cmd: U32, paramsSize: U32)

  /** The three fields the query returns, reported as the driver wrote them. */
  datatype RopInfo = RopInfo(unitCount: U32, operationsFactor: U32, operationsCount: U32)

  /** The value of `errno` after a failed system call: only ENOENT is told apart. */
  datatype Errno = NoEntry | OtherErrno

  /** Outcome of `openat`, or of an `ioctl` that has no status field. */
  datatype SysResult = SysOk | SysFailed(errno: Errno)

  /** Outcome of a resource-manager `ioctl`: the transport either failed, or
      completed and the driver wrote a status code and its outputs. */
  datatype Reply<T> = TransportFailed(errno: Errno) | Completed(status: U32, out: T)

  /** A call succeeds iff the transport completed and the status is 0. */
  predicate Succeeded<T>(r: Reply<T>)
  {
    r.Completed? && r.status == 0
  }

  /** The control channel (/dev/nvidiactl) or the channel of one unit (/dev/nvidiaN). */
  datatype Channel = Control | Unit(index: nat)

  /** One call made by a program, with the driver's answer. */
  datatype Event =
    | Open(channel: Channel, openResult: SysResult)
    | Register(unit: nat, registerResult: SysResult)
    | Close(closed: Channel)
    | Alloc(allocReq: ObjectRequest, allocReply: Reply<Handle>)
    | Free(freeReq: ObjectRequest, freeReply: Reply<()>)
    | Query(queryReq: ControlRequest, queryReply: Reply<RopInfo>)
}

/** The request records as the programs fill them in. */
module Requests {
  import opened Protocol

  /** A zeroed NVOS21 record: no root, no parent, handle 0 (driver assigns). */
  function ClientRequest(): ObjectRequest
  {
    ObjectRequest(0, 0, 0, ClientClass, NoParams, 0)
  }

  /** A device under the client, bound to unit `index`, handle assigned by the driver. */
  function DeviceRequest(hClient: Handle, index: nat): ObjectRequest
  {
    ObjectRequest(hClient, hClient, 0, DeviceClass, DeviceParams(index), DeviceParamsSize)
  }

  /** The first subdevice of `hDevice`, handle assigned by the driver. */
  function SubdeviceRequest(hClient: Handle, hDevice: Handle): ObjectRequest
  {
    ObjectRequest(hClient, hDevice, 0, SubdeviceClass, SubdeviceParams(0), SubdeviceParamsSize)
  }

  /** The single-unit program's device request: a fixed handle and a zero
      parameter size, so the zeroed parameters are not read. */
  function FixedDeviceRequest(hClient: Handle): ObjectRequest
  {
    ObjectRequest(hClient, hClient, FixedDeviceHandle, DeviceClass, DeviceParams(0), 0)
  }

  /** The single-unit program's subdevice request: a fixed handle, zero size. */
  function FixedSubdeviceRequest(hClient: Handle, hDevice: Handle): ObjectRequest
  {
    ObjectRequest(hClient, hDevice, FixedSubdeviceHandle, SubdeviceClass, SubdeviceParams(0), 0)
  }

  /** The render-output-unit query against a subdevice. */
  function RopInfoRequest(hClient: Handle, hSubdevice: Handle): ControlRequest
  {
    ControlRequest(hClient, hSubdevice, GetRopInfoCmd, RopInfoParamsSize)
  }

  /** An NVOS21 record sent with the free escape: the object in `hObjectNew`,
      everything else but the root zero. */
  function FreeRequest(hClient: Handle, hObject: Handle): ObjectRequest
  {
    ObjectRequest(hClient, 0, hObject, 0, NoParams, 0)
  }
}
