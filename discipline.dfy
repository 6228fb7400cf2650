/** What it means for a log of calls to respect the resource-session
    protocol. Two replays give the rules:
    - the handle replay keeps the stack of objects the program holds
      (client, then device, then subdevice, innermost last): a handle may be
      named as root, parent or query target only while it is held, with the
      right class, and a free must name the innermost held object, which it
      then releases, so each allocation is freed at most once and in the
      reverse order of creation;
    - the channel replay keeps the set of open channels: requests go only
      over an open control channel, registration only on an open unit
      channel, at most one unit channel is open at a time, and only open
      channels are closed. */
module Discipline {
  import opened Protocol

  datatype HeldObject = HeldObject(handle: Handle, hClass: U32)

  /** The handle an allocation creates: the one requested, or the one the
      driver assigned when 0 was requested. */
  function Created(req: ObjectRequest, reply: Reply<Handle>): Handle
    requires reply.Completed?
  {
    if req.hObjectNew != 0 then req.hObjectNew else reply.out
  }

  predicate Holds(held: seq<HeldObject>, h: Handle, cls: U32)
  {
    HeldObject(h, cls) in held
  }

  predicate InnermostIs(held: seq<HeldObject>, h: Handle, cls: U32)
  {
    |held| > 0 && held[|held| - 1] == HeldObject(h, cls)
  }

  /** A client only as the first object; a device under a held client; a
      subdevice under the device just created. */
  predicate AllocAllowed(held: seq<HeldObject>, req: ObjectRequest)
  {
    if req.hClass == ClientClass then
      held == [] && req.hRoot == 0 && req.hObjectParent == 0
    else if req.hClass == DeviceClass then
      req.hObjectParent == req.hRoot && Holds(held, req.hRoot, ClientClass)
    else if req.hClass == SubdeviceClass then
      Holds(held, req.hRoot, ClientClass) && InnermostIs(held, req.hObjectParent, DeviceClass)
    else
      false
  }

  /** A query against the subdevice just created, on behalf of a held client. */
  predicate QueryAllowed(held: seq<HeldObject>, q: ControlRequest)
  {
    Holds(held, q.hClient, ClientClass) && InnermostIs(held, q.hObject, SubdeviceClass)
  }

  /** A free of the innermost held object, on behalf of a held client. */
  predicate FreeAllowed(held: seq<HeldObject>, req: ObjectRequest)
  {
    Holds(held, req.hRoot, ClientClass) && |held| > 0 && held[|held| - 1].handle == req.hObjectNew
  }

  function HandleStep(held: seq<HeldObject>, e: Event): Option<seq<HeldObject>>
  {
    match e
    case Alloc(req, reply) =>
      if !AllocAllowed(held, req) then None
      else if Succeeded(reply) then Some(held + [HeldObject(Created(req, reply), req.hClass)])
      else Some(held)
    case Query(q, _) =>
      if QueryAllowed(held, q) then Some(held) else None
    case Free(req, _) =>
      // the result of a free is not consulted: the object counts as released
      if FreeAllowed(held, req) then Some(held[..|held| - 1]) else None
    case _ => Some(held)
  }

  /** The objects held after `log`, starting from `held`; None if some call
      breaks the handle rules. */
  function HandleReplay(held: seq<HeldObject>, log: seq<Event>): Option<seq<HeldObject>>
    decreases |log|
  {
    if log == [] then Some(held)
    else
      match HandleStep(held, log[0])
      case None => None
      case Some(next) => HandleReplay(next, log[1..])
  }

  lemma {:induction false} HandleReplayAppend(held: seq<HeldObject>, a: seq<Event>, b: seq<Event>)
    ensures HandleReplay(held, a + b) ==
            (match HandleReplay(held, a)
             case None => None
             case Some(mid) => HandleReplay(mid, b))
    decreases |a|
  {
    if a == [] {
      assert a + b == b;
    } else {
      assert (a + b)[0] == a[0];
      assert (a + b)[1..] == a[1..] + b;
      match HandleStep(held, a[0])
      case None =>
      case Some(next) => HandleReplayAppend(next, a[1..], b);
    }
  }

  function ChannelStep(open: set<Channel>, e: Event): Option<set<Channel>>
  {
    match e
    case Open(ch, r) =>
      if ch in open || (ch.Unit? && open - {Control} != {}) then None
      else if r.SysOk? then Some(open + {ch})
      else Some(open)
    case Register(i, _) =>
      if Unit(i) in open && Control in open then Some(open) else None
    case Close(ch) =>
      if ch in open then Some(open - {ch}) else None
    case _ =>
      if Control in open then Some(open) else None
  }

  /** The channels open after `log`, starting from `open`; None if some call
      breaks the channel rules. */
  function ChannelReplay(open: set<Channel>, log: seq<Event>): Option<set<Channel>>
    decreases |log|
  {
    if log == [] then Some(open)
    else
      match ChannelStep(open, log[0])
      case None => None
      case Some(next) => ChannelReplay(next, log[1..])
  }

  lemma {:induction false} ChannelReplayAppend(open: set<Channel>, a: seq<Event>, b: seq<Event>)
    ensures ChannelReplay(open, a + b) ==
            (match ChannelReplay(open, a)
             case None => None
             case Some(mid) => ChannelReplay(mid, b))
    decreases |a|
  {
    if a == [] {
      assert a + b == b;
    } else {
      assert (a + b)[0] == a[0];
      assert (a + b)[1..] == a[1..] + b;
      match ChannelStep(open, a[0])
      case None =>
      case Some(next) => ChannelReplayAppend(next, a[1..], b);
    }
  }

  function FreedBy(e: Event): seq<Handle>
  {
    if e.Free? then [e.freeReq.hObjectNew] else []
  }

  function CreatedBy(e: Event): seq<Handle>
  {
    if e.Alloc? && Succeeded(e.allocReply) then [Created(e.allocReq, e.allocReply)] else []
  }

  function ProbedBy(e: Event): seq<nat>
  {
    if e.Open? && e.channel.Unit? then [e.channel.index] else []
  }

  function ClosedBy(e: Event): seq<Channel>
  {
    if e.Close? then [e.closed] else []
  }

  /** The handles named by the free requests of `log`, in order. */
  function FreedIn(log: seq<Event>): seq<Handle>
    decreases |log|
  {
    if log == [] then [] else FreedBy(log[0]) + FreedIn(log[1..])
  }

  /** The handles created by the successful allocations of `log`, in order. */
  function CreatedIn(log: seq<Event>): seq<Handle>
    decreases |log|
  {
    if log == [] then [] else CreatedBy(log[0]) + CreatedIn(log[1..])
  }

  /** The units whose channel `log` tries to open, in order. */
  function ProbeOrder(log: seq<Event>): seq<nat>
    decreases |log|
  {
    if log == [] then [] else ProbedBy(log[0]) + ProbeOrder(log[1..])
  }

  /** The channels `log` closes, in order. */
  function ClosedIn(log: seq<Event>): seq<Channel>
    decreases |log|
  {
    if log == [] then [] else ClosedBy(log[0]) + ClosedIn(log[1..])
  }

  lemma {:induction false} FreedInAppend(a: seq<Event>, b: seq<Event>)
    ensures FreedIn(a + b) == FreedIn(a) + FreedIn(b)
    decreases |a|
  {
    if a == [] {
      assert a + b == b;
    } else {
      assert (a + b)[0] == a[0];
      assert (a + b)[1..] == a[1..] + b;
      FreedInAppend(a[1..], b);
    }
  }

  lemma {:induction false} CreatedInAppend(a: seq<Event>, b: seq<Event>)
    ensures CreatedIn(a + b) == CreatedIn(a) + CreatedIn(b)
    decreases |a|
  {
    if a == [] {
      assert a + b == b;
    } else {
      assert (a + b)[0] == a[0];
      assert (a + b)[1..] == a[1..] + b;
      CreatedInAppend(a[1..], b);
    }
  }

  lemma {:induction false} ProbeOrderAppend(a: seq<Event>, b: seq<Event>)
    ensures ProbeOrder(a + b) == ProbeOrder(a) + ProbeOrder(b)
    decreases |a|
  {
    if a == [] {
      assert a + b == b;
    } else {
      assert (a + b)[0] == a[0];
      assert (a + b)[1..] == a[1..] + b;
      ProbeOrderAppend(a[1..], b);
    }
  }

  lemma {:induction false} ClosedInAppend(a: seq<Event>, b: seq<Event>)
    ensures ClosedIn(a + b) == ClosedIn(a) + ClosedIn(b)
    decreases |a|
  {
    if a == [] {
      assert a + b == b;
    } else {
      assert (a + b)[0] == a[0];
      assert (a + b)[1..] == a[1..] + b;
      ClosedInAppend(a[1..], b);
    }
  }

  lemma AppendAssoc<T>(a: seq<T>, b: seq<T>, c: seq<T>)
    ensures (a + b) + c == a + (b + c)
  {
    assert forall j :: 0 <= j < |a| + |b| + |c| ==> ((a + b) + c)[j] == (a + (b + c))[j];
  }

  /** The filters of a log of one, two or three events, event by event. */
  lemma FiltersOfOne(a: Event)
    ensures FreedIn([a]) == FreedBy(a)
    ensures CreatedIn([a]) == CreatedBy(a)
    ensures ProbeOrder([a]) == ProbedBy(a)
  {
    assert [a][1..] == [];
    assert FreedBy(a) + [] == FreedBy(a);
    assert CreatedBy(a) + [] == CreatedBy(a);
    assert ProbedBy(a) + [] == ProbedBy(a);
  }

  lemma FiltersOfTwo(a: Event, b: Event)
    ensures FreedIn([a, b]) == FreedBy(a) + FreedBy(b)
    ensures CreatedIn([a, b]) == CreatedBy(a) + CreatedBy(b)
    ensures ProbeOrder([a, b]) == ProbedBy(a) + ProbedBy(b)
  {
    assert [a, b][1..] == [b];
    FiltersOfOne(b);
  }

  lemma FiltersOfThree(a: Event, b: Event, c: Event)
    ensures FreedIn([a, b, c]) == FreedBy(a) + (FreedBy(b) + FreedBy(c))
    ensures CreatedIn([a, b, c]) == CreatedBy(a) + (CreatedBy(b) + CreatedBy(c))
    ensures ProbeOrder([a, b, c]) == ProbedBy(a) + (ProbedBy(b) + ProbedBy(c))
  {
    assert [a, b, c][1..] == [b, c];
    FiltersOfTwo(b, c);
  }

  /** Closing a channel: no handle is involved, and the channel must be open. */
  lemma CloseFacts(held: seq<HeldObject>, open: set<Channel>, ch: Channel)
    ensures HandleReplay(held, [Close(ch)]) == Some(held)
    ensures ch in open ==> ChannelReplay(open, [Close(ch)]) == Some(open - {ch})
    ensures FreedIn([Close(ch)]) == [] && CreatedIn([Close(ch)]) == [] && ProbeOrder([Close(ch)]) == []
  {
    assert [Close(ch)][1..] == [];
  }

  /** Replaying two or three events whose steps are known. */
  lemma HandleReplayTwo(h0: seq<HeldObject>, h1: seq<HeldObject>, h2: seq<HeldObject>, a: Event, b: Event)
    requires HandleStep(h0, a) == Some(h1) && HandleStep(h1, b) == Some(h2)
    ensures HandleReplay(h0, [a, b]) == Some(h2)
  {
    assert [a, b][1..] == [b];
    assert [b][1..] == [];
    assert HandleReplay(h1, [b]) == Some(h2);
  }

  lemma HandleReplayThree(h0: seq<HeldObject>, h1: seq<HeldObject>, h2: seq<HeldObject>, h3: seq<HeldObject>,
                          a: Event, b: Event, c: Event)
    requires HandleStep(h0, a) == Some(h1) && HandleStep(h1, b) == Some(h2) && HandleStep(h2, c) == Some(h3)
    ensures HandleReplay(h0, [a, b, c]) == Some(h3)
  {
    assert [a, b, c][1..] == [b, c];
    HandleReplayTwo(h1, h2, h3, b, c);
  }

  /** Probing unit i and then units i + 1..k is probing units i..k. */
  lemma SpanStep(before: seq<nat>, later: seq<nat>, i: nat, k: nat)
    requires i <= k && later == (before + [i]) + Span(i + 1, k + 1)
    ensures later == before + Span(i, k + 1)
  {
    AppendAssoc(before, [i], Span(i + 1, k + 1));
    assert Span(i, k + 1) == [i] + Span(i + 1, k + 1);
  }

  function Reverse<T>(s: seq<T>): seq<T>
    decreases |s|
  {
    if s == [] then [] else Reverse(s[1..]) + [s[0]]
  }

  /** lo, lo + 1, ..., hi - 1 */
  function Span(lo: nat, hi: nat): seq<nat>
    decreases hi - lo
  {
    if lo >= hi then [] else [lo] + Span(lo + 1, hi)
  }

  /** A log made only of allocations and queries. */
  predicate RequestsOnly(log: seq<Event>)
  {
    forall k :: 0 <= k < |log| ==> log[k].Alloc? || log[k].Query?
  }

  /** Allocations and queries open, close and free nothing, and need only
      the control channel. */
  lemma {:induction false} RequestsOnlyFacts(open: set<Channel>, log: seq<Event>)
    requires RequestsOnly(log) && Control in open
    ensures ProbeOrder(log) == [] && FreedIn(log) == [] && ClosedIn(log) == []
    ensures ChannelReplay(open, log) == Some(open)
    decreases |log|
  {
    if log != [] {
      assert RequestsOnly(log[1..]) by {
        forall k | 0 <= k < |log[1..]| ensures log[1..][k].Alloc? || log[1..][k].Query? {
          assert log[1..][k] == log[k + 1];
        }
      }
      RequestsOnlyFacts(open, log[1..]);
    }
  }
}
