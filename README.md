# Render-output-unit query: a model of the resource-session protocol

Three small C programs ask the NVIDIA kernel driver how many render output
units (ROPs) a GPU has. Each talks to the driver through file descriptors and
`ioctl` requests:

1. It opens the control channel `/dev/nvidiactl`.
2. It allocates a client handle.
3. It opens and registers a unit channel `/dev/nvidiaN`.
4. Under the client it allocates a device object, then a subdevice object.
5. It sends one control query to the subdevice.

The programs differ in scope:

- `src/rop.c` does this once, for unit 0, with fixed requested handles.
- `src/ropmulti.c` enumerates units 0, 1, 2, … until one does not open.
- `src/ropnvml.c` does the same and also frees every handle it allocated,
  innermost first, and prints each unit under a name from the NVML library.

The model treats the driver as an input. A `Script` gives, for every call a
program can make, the answer the driver would give:

- an open or registration result is a `SysResult`: success, or failure with
  an errno;
- an allocation, free or query result is a `Reply`: either the transport
  failed, or it completed with a status word and an output.

Each program's `main` is an imperative method (`Run`) over such a script. It
returns the exit code, the figures it would print, and a ghost log of the
calls it made (`Event`s). Each `Run` is proved equal to a pure function
`Session` of the script. The loops of the two multi-unit programs are the
methods `EnumerateUnits`, proved equal to a recursive function `Enumerate`.
The properties are lemmas about `Session`.

Two replays of the log, in module `Discipline`, state the resource
discipline:

- `HandleReplay` keeps a stack of held objects (handle and class):
  - an allocation needs its root to be a held client and its parent to be a
    held object of the expected class;
  - a query needs its target to be a held subdevice;
  - a free must name the innermost held object and pops it.

  A log that replays to `Some(...)` therefore names each handle only while it
  is held, and frees objects at most once and in reverse order of creation.
- `ChannelReplay` keeps the set of open channels:
  - a channel may be opened only when closed, and closed only when open;
  - a unit channel may be opened only while no other unit channel is open;
  - a registration needs its unit's channel and the control channel open;
  - every other request travels over the open control channel.

The filters `ProbeOrder`, `FreedIn`, `CreatedIn` and `ClosedIn` list the
units probed, the handles freed, the handles created and the channels
closed, in log order.

Modules:

| module | file | contents |
|---|---|---|
| `Protocol`, `Requests` | `protocol.dfy` | handles, class and command constants, request records, replies, events, and the functions that build each request |
| `Discipline` | `discipline.dfy` | the replays and filters, and their append lemmas |
| `RmCalls` | `rm_calls.dfy` | the wrappers shared by the two multi-unit programs: the unit probe, the client, device and subdevice allocations, and the query |
| `RopMulti` | `rop_multi.dfy` | `src/ropmulti.c` |
| `RopNvml` | `rop_nvml.dfy` | `src/ropnvml.c`, stated against `RopMulti` where it behaves the same |
| `RopSingle` | `rop_single.dfy` | `src/rop.c` |

The model assumes that the errno `main` tests after a failed unit probe is
the one set by the failing call: the `openat`, or the register `ioctl` when
the open worked. The C code does not guarantee this. Between the failing
call and the test, the probe may call `fprintf` with `strerror` (open
failure with an errno other than `ENOENT`), or `perror` and then `close`
(registration failure), and the model takes all three to leave errno alone.
Under that assumption a registration that fails with `ENOENT` ends the
enumeration as "not found".

## Model

| member | source | states |
|---|---|---|
| RmCalls.OpenNvidiaDevice | src/ropmulti.c:107-131 | The probe succeeds iff the open and the registration both succeed. On failure the errno reported is the failing call's. Registration is attempted only after a successful open, and a failed registration closes the unit channel. |
| RmCalls.ProbeLeavesNoChannelOnFailure | src/ropmulti.c:112-129 | From the control channel alone, the probe leaves unit `index` open iff it succeeded, and otherwise only the control channel. |
| RmCalls.ProbeFacts | src/ropmulti.c:107-131 | The probe touches only unit `index`. It creates and frees no handle, and leaves any set of held objects unchanged. |
| RmCalls.AllocClient | src/ropmulti.c:134-151 | Sends the all-zero request (requested handle 0). It succeeds iff the transport completed with status 0, and the client handle is written with the driver's handle only then. |
| RmCalls.AllocDevice | src/ropmulti.c:154-184 | Sends root = parent = client, requested handle 0, class 0x80, `deviceId` = the unit index, and a non-zero parameter size. Succeeds iff transport ok and status 0; the handle is written only on success. The same function serves src/ropnvml.c:155-186. |
| RmCalls.AllocSubdevice | src/ropmulti.c:187-217 | Sends parent = the given device, requested handle 0, class 0x2080, subdevice 0, and a non-zero parameter size. Succeeds iff transport ok and status 0; the handle is written only on success. |
| RmCalls.GetRopCount | src/ropmulti.c:220-240 | Sends client, target = subdevice, command 0x20801213, and the size of the three-field result. Succeeds iff transport ok and status 0. The figures are the driver's when the transport completed and zero otherwise. |
| RopMulti.ProcessUnit | src/ropmulti.c:286-327 | For an opened unit, the subdevice is requested only after the device succeeded and under the device handle just returned. The query is sent only after the subdevice succeeded and against the subdevice just returned. The unit channel is closed on every path. The unit is reported iff all three calls succeed, with the query's figures. |
| RopMulti.EnumerateUnits | src/ropmulti.c:261-328 | The `for(;;)` loop leaves exit code, count, log and reports equal to `Enumerate` from unit 0. |
| RopMulti.Run | src/ropmulti.c:242-353 | `main`'s exit code, log and reports equal `Session`: failing to open the control channel or to allocate the client ends the run with 1; otherwise the loop runs, then the control channel is closed and the final check is applied. |
| RopMulti.StopFrom | src/ropmulti.c:267-284 | The unit where the loop breaks is the first unit at or after `i` whose probe fails: it fails, and every unit from `i` up to it opens. |
| RopMulti.EnumerateCounts | src/ropmulti.c:261-328 | From unit `i` the loop counts exactly the units before the stopping one, and reports, in index order, exactly those of them whose three calls succeeded. |
| RopMulti.EnumerateExit | src/ropmulti.c:267-316 | From a state whose exit code is 0 or 1, the loop leaves 0 iff the code was 0, every unit it counted succeeded, and the stopping unit is "not found" at an index above 0. Otherwise it leaves 1. |
| RopMulti.UnitRequestsHandles | src/ropmulti.c:290-316 | A unit's requests are only allocations and queries. With the client held, they name only held objects, and they add the device and then the subdevice exactly when those allocations succeed. |
| RopMulti.UnitProbes | src/ropmulti.c:261-328 | One iteration probes unit `i` and no other. |
| RopMulti.UnitFreesNothing | src/ropmulti.c:290-327 | One iteration issues no free. |
| RopMulti.UnitChannels | src/ropmulti.c:262-327 | From the control channel alone, an iteration leaves only the control channel open, whichever call fails. |
| RopMulti.UnitHandles | src/ropmulti.c:290-316 | With the client held, an iteration leaves held what was held plus the objects it created. |
| RopMulti.EnumerateProbes | src/ropmulti.c:261-284 | From unit `i` the loop probes exactly units `i` up to and including the stopping unit, in increasing order. |
| RopMulti.EnumerateFrees | src/ropmulti.c:261-328 | The loop adds no free to the log. |
| RopMulti.EnumerateReplays | src/ropmulti.c:261-328 | Given a valid log holding the client with the control channel open, the loop keeps the handle replay valid and leaves only the control channel open. |
| RopMulti.SessionExit | src/ropmulti.c:244-349 | The exit code is always 0 or 1. It is 0 exactly when the client was allocated, every unit before the first missing one answered all three calls, and that missing unit is "not found" at an index above 0. |
| RopMulti.SessionCounts | src/ropmulti.c:247-321 | The count is the number of units before the stopping one, and the reports are the fully successful ones among them, in order. Both are empty when the loop is not reached. |
| RopMulti.NoUnitMeansFailure | src/ropmulti.c:337-349 | A count of 0 means exit code 1, and whether `/dev/nvidia0` exists never changes the exit code. |
| RopMulti.PrologueFacts | src/ropmulti.c:249-258 | Opening the control channel and allocating the client probe nothing and free nothing. They leave the control channel open, and the client held exactly when it was allocated. |
| RopMulti.SessionProbes | src/ropmulti.c:261-284 | Units are probed in order 0, 1, …, up to and including the stopping unit, and none at all if the loop is not reached. |
| RopMulti.SessionFrees | src/ropmulti.c:323-331 | No free request is ever issued. |
| RopMulti.SessionChannels | src/ropmulti.c:249-334 | Every channel is opened while closed and closed while open, and at most one unit channel is open at a time. Every request travels over the open control channel. Everything is closed at the end. |
| RopMulti.SessionHandles | src/ropmulti.c:290-316 | Every handle a request names is held, with the right class, when it is named. |
| RopNvml.FreeHandle | src/ropnvml.c:274-298 | Sends root = client, `hObjectNew` = the target, and zero parent, class and size. Succeeds iff the transport completed with status 0. |
| RopNvml.AllocSubdevice | src/ropnvml.c:189-218 | Sends the same request as the plain multi-unit program, with the same success rule; the unit index does not reach the request. |
| RopNvml.ProcessUnit | src/ropnvml.c:340-390 | Same requests and success rule as the plain program, followed by `Cleanup`. The name is the looked-up one or "Unknown", and processing goes on either way. |
| RopNvml.EnumerateUnits | src/ropnvml.c:317-391 | The loop equals `Enumerate` from unit 0. |
| RopNvml.Run | src/ropnvml.c:300-413 | `main` equals `Session`: the loop, then the client free, then the control-channel close, then the final check. |
| RopNvml.RequestsCreate | src/ropnvml.c:343-377 | A unit's requests create the device and then the subdevice, each exactly when its allocation succeeded. |
| RopNvml.CleanupHandles | src/ropnvml.c:360-390 | With the client and the unit's new objects held, the cleanup frees exactly the new objects. Each free names the innermost held object. |
| RopNvml.CleanupChannels | src/ropnvml.c:343-390 | The cleanup closes the unit channel once. Every free travels over the control channel. |
| RopNvml.CleanupFrees | src/ropnvml.c:343-390 | The cleanup frees exactly the handles the unit created, in reverse order of creation: nothing after a failed device allocation, the device alone after a failed subdevice, and the subdevice then the device otherwise. It probes and creates nothing. |
| RopNvml.CleanupCloseFirst | src/ropnvml.c:343-390 | On a failure the unit channel is closed before any free. On success it is closed after both frees. |
| RopNvml.UnitProbes | src/ropnvml.c:323-391 | One iteration probes unit `i` and no other. |
| RopNvml.UnitFrees | src/ropnvml.c:343-390 | What an iteration frees is the reverse of what it creates. |
| RopNvml.UnitReplays | src/ropnvml.c:323-391 | With the client held, an iteration leaves the held objects unchanged and only the control channel open. |
| RopNvml.EnumerateProbes | src/ropnvml.c:317-338 | From unit `i` the loop probes exactly the units the plain multi-unit loop probes. |
| RopNvml.EnumerateReplays | src/ropnvml.c:317-391 | From a valid log holding the client with the control channel open, the loop keeps both replays valid and holds exactly what it held before. |
| RopNvml.EnumerateAgrees | src/ropnvml.c:317-391 | The loop keeps the same exit code and count as the plain multi-unit loop. Its reports are that loop's reports, each with its unit's name. |
| RopNvml.SessionAgrees | src/ropnvml.c:300-413 | Exit code and count are those of the plain multi-unit program on the same answers, so the results of the frees never change the exit code. Each report carries the looked-up name or "Unknown". |
| RopNvml.SessionProbes | src/ropnvml.c:317-338 | Units are probed in the same order as in the plain multi-unit program. |
| RopNvml.SessionChannels | src/ropnvml.c:308-400 | Every channel is opened while closed and closed while open, and at most one unit channel is open at a time. Every request travels over the control channel. Everything is closed at the end. |
| RopNvml.SessionHandles | src/ropnvml.c:343-393 | Every handle is named only while held with the right class. Every free names the innermost held object, so nothing is freed twice and frees come in reverse order of creation. Nothing is held at the end, so the client is freed exactly once, after every per-unit free. |
| RopSingle.OpenNvidia0 | src/rop.c:97-103 | Succeeds iff the open and the registration both succeed. Registration follows only a successful open, and the channel is not closed on failure. |
| RopSingle.AllocClient | src/rop.c:105-113 | Sends the all-zero request. The client handle is written as soon as the transport completes, even with a non-zero status. Succeeds iff the status is 0. |
| RopSingle.AllocDevice | src/rop.c:115-136 | The device handle is 0xB1000000 whatever the driver answers. The request asks for that handle under root = parent = client, with class 0x80 and parameter size 0. Succeeds iff transport ok and status 0. |
| RopSingle.AllocSubdevice | src/rop.c:138-159 | The subdevice handle is 0xB2000000, requested under the given device, with class 0x2080 and parameter size 0. Succeeds iff transport ok and status 0. |
| RopSingle.Run | src/rop.c:177-226 | `main`'s exit code, log and printed figures equal `Session`. |
| RopSingle.FirstFailure | src/rop.c:180-220 | The position of the first failing step: every step before it succeeded, and the step at it failed. |
| RopSingle.SessionFollowsPlan | src/rop.c:177-226 | `main` makes the seven calls in order and stops right after the first that fails. It exits with 0, reporting the query's three fields as the driver returned them, exactly when none fails, and with 1 otherwise. |
| RopSingle.SessionHandles | src/rop.c:186-225 | Every handle is named only while held with the right class. Nothing is ever freed. At exit the program still holds the client, the device and the subdevice it allocated. |
| RopSingle.SessionChannels | src/rop.c:179-225 | Channels are opened while closed, and nothing is ever closed. At exit the control channel and unit 0's channel, once opened, are still open. |
| RopSingle.RequestsHandles | src/rop.c:200-220 | After registration, the subdevice is requested under the fixed device handle only once that device exists, and the query targets the fixed subdevice handle only once it exists. |

## Left out

- The kernel driver, `openat`, `ioctl`, `close` and `access` are inputs of the script, not modelled behaviour. A `close` is assumed to succeed, and `close`, `perror` and `fprintf` (with `strerror`) are assumed to leave `errno` unchanged between a failing probe call and the `errno == ENOENT` test in `main`. The driver's own relation between the three figures is not modelled.
- File descriptors are not modelled. A channel is identified by its name (control, or unit N), so resetting `nvidia_fd` to -1 after closing it has no counterpart.
- Struct layout, padding and concrete `sizeof` values are not modelled. Parameter sizes are named constants whose only modelled property is zero or non-zero. The difference between the two allocation record layouts is not modelled either.
- The request-number encoding of `ioctl` (`_IOC`) is a system header macro and is not modelled. The three escape codes appear only as the kinds of `Event`.
- Request flags, rights and parameter-block addresses are not modelled. Only the fields that identify objects, class, command and size are.
- `printf`, `fprintf` and `perror` text is not modelled. What is printed is modelled as the returned reports, which carry the three 32-bit fields as the driver returned them. The `%d` conversion that prints a field of 2^31 or more as a negative number is not modelled.
- The NVML library (`get_gpu_name_nvml`, its initialisation and `nvmlShutdown`) is a foreign library. Only the lookup's outcome survives: the name, or a failure. The 255-character truncation of the name buffer is not modelled.
- The cast of the unit index to a 32-bit driver field is not modelled: the index is a `nat`, and the loop ends long before any wrap-around.
- In `src/rop.c` the client handle variable is uninitialised before `alloc_client`. The model starts it at 0, which no path observes, because `main` returns as soon as the allocation fails.
- The bodies of the two multi-unit loops appear as the methods `ProcessUnit` and `EnumerateUnits`. They make the same calls in the same order as the inline code.
- A unit that does not exist (an index past the end of the script) answers the open with `ENOENT`, which makes the `for(;;)` loop terminate.
