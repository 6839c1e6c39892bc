/** The packet service's processor list: prioritised packet processors with
    per-processor timing counters, the dispatch of an inbound packet to them,
    and the pushing of packet-request rules to a device. */

module Packets {
  import opened Wrappers
  import opened ProvObjects
  import opened ProvRecorder
  import opened Hook
  import opened JavaNumbers

  /** A `PacketProcessor`, known by identity and by its class name. */
  class PacketProcessor {
    const className: string

    constructor(className: string)
      ensures this.className == className
    {
      this.className := className;
    }
  }

  /** `ProcessorEntry`: a processor, its priority and its timing counters. */
  class ProcessorEntry {
    const processor: PacketProcessor
    const priority: int
    var invocations: int
    var nanos: int

    constructor(processor: PacketProcessor, priority: int)
      ensures this.processor == processor && this.priority == priority
      ensures invocations == 0 && nanos == 0
    {
      this.processor := processor;
      this.priority := priority;
      invocations := 0;
      nanos := 0;
    }

    /** `addNanos`: both counters are Java longs. */
    method AddNanos(d: int)
      modifies this
      ensures nanos == Wrap64(old(nanos) + d)
      ensures invocations == Wrap64(old(invocations) + 1)
    {
      nanos := Wrap64(nanos + d);
      invocations := Wrap64(invocations + 1);
    }

    /** `averageNanos`: the truncated mean, 0 before the first invocation. */
    function AverageNanos(): (r: int)
      reads this
      ensures invocations <= 0 ==> r == 0
      ensures invocations > 0 && nanos >= 0 ==> 0 <= r * invocations <= nanos < r * invocations + invocations
      ensures invocations > 0 && nanos < 0 ==> r * invocations - invocations < nanos <= r * invocations <= 0
    {
      if invocations > 0 then JavaDiv(nanos, invocations) else 0
    }
  }

  predicate SortedByPriority(ps: seq<ProcessorEntry>)
  {
    forall i, j :: 0 <= i < j < |ps| ==> ps[i].priority <= ps[j].priority
  }

  predicate Distinct(ps: seq<ProcessorEntry>)
  {
    forall i, j :: 0 <= i < j < |ps| ==> ps[i] != ps[j]
  }

  /** Where `addProcessor` inserts a processor of priority `p`: before the
      first entry of strictly greater priority. */
  function InsertionIndex(ps: seq<ProcessorEntry>, p: int): (r: nat)
    ensures r <= |ps|
    ensures forall j :: 0 <= j < r ==> ps[j].priority <= p
    ensures r < |ps| ==> p < ps[r].priority
  {
    if ps == [] || p < ps[0].priority then 0 else 1 + InsertionIndex(ps[1..], p)
  }

  lemma InsertionIndexUnique(ps: seq<ProcessorEntry>, p: int, i: nat)
    requires i <= |ps|
    requires forall j :: 0 <= j < i ==> ps[j].priority <= p
    requires i < |ps| ==> p < ps[i].priority
    ensures i == InsertionIndex(ps, p)
  {
  }

  lemma PutAt(ps: seq<ProcessorEntry>, i: nat, e: ProcessorEntry, j: nat)
    requires i <= |ps| && j < |ps| + 1
    ensures (ps[..i] + [e] + ps[i..])[j] == if j < i then ps[j] else if j == i then e else ps[j - 1]
  {
  }

  function Inserted(ps: seq<ProcessorEntry>, e: ProcessorEntry): seq<ProcessorEntry>
  {
    var i := InsertionIndex(ps, e.priority);
    ps[..i] + [e] + ps[i..]
  }

  /** The first entry whose processor is `proc`, or `|ps|`. */
  function FirstIndexOf(ps: seq<ProcessorEntry>, proc: PacketProcessor): (r: nat)
    ensures r <= |ps|
    ensures forall j :: 0 <= j < r ==> ps[j].processor != proc
    ensures r < |ps| ==> ps[r].processor == proc
  {
    if ps == [] then 0
    else if ps[0].processor == proc then 0
    else 1 + FirstIndexOf(ps[1..], proc)
  }

  lemma FirstIndexOfUnique(ps: seq<ProcessorEntry>, proc: PacketProcessor, i: nat)
    requires i <= |ps|
    requires forall j :: 0 <= j < i ==> ps[j].processor != proc
    requires i < |ps| ==> ps[i].processor == proc
    ensures i == FirstIndexOf(ps, proc)
  {
  }

  /** `removeProcessor` on a list: drop the first entry of `proc`, if any. */
  function Removed(ps: seq<ProcessorEntry>, proc: PacketProcessor): seq<ProcessorEntry>
  {
    var k := FirstIndexOf(ps, proc);
    if k == |ps| then ps else ps[..k] + ps[k + 1..]
  }

  /** Element-wise view of `Inserted`: the entries before the insertion
      point, the new entry, then the rest shifted by one. */
  lemma InsertedAt(ps: seq<ProcessorEntry>, e: ProcessorEntry)
    ensures |Inserted(ps, e)| == |ps| + 1
    ensures forall j :: 0 <= j < InsertionIndex(ps, e.priority) ==> Inserted(ps, e)[j] == ps[j]
    ensures Inserted(ps, e)[InsertionIndex(ps, e.priority)] == e
    ensures forall j :: InsertionIndex(ps, e.priority) <= j < |ps| ==> Inserted(ps, e)[j + 1] == ps[j]
    ensures multiset(Inserted(ps, e)) == multiset(ps) + multiset{e}
  {
    var i := InsertionIndex(ps, e.priority);
    var r := ps[..i] + [e] + ps[i..];
    assert Inserted(ps, e) == r;
    forall j | 0 <= j < i
      ensures r[j] == ps[j]
    {
      PutAt(ps, i, e, j);
    }
    forall j | i <= j < |ps|
      ensures r[j + 1] == ps[j]
    {
      PutAt(ps, i, e, j + 1);
    }
    PutMultiset(ps, i, e);
  }

  lemma PutMultiset(ps: seq<ProcessorEntry>, i: nat, e: ProcessorEntry)
    requires i <= |ps|
    ensures multiset(ps[..i] + [e] + ps[i..]) == multiset(ps) + multiset{e}
  {
    assert ps == ps[..i] + ps[i..];
  }

  /** The inserted list keeps the order by priority, and the new entry
      comes after every entry of equal priority. */
  lemma InsertedSorted(ps: seq<ProcessorEntry>, e: ProcessorEntry)
    requires SortedByPriority(ps)
    ensures SortedByPriority(Inserted(ps, e))
    ensures forall j :: 0 <= j < |ps| && ps[j].priority == e.priority ==> Inserted(ps, e)[j] == ps[j]
  {
    var i := InsertionIndex(ps, e.priority);
    var r := ps[..i] + [e] + ps[i..];
    assert Inserted(ps, e) == r;
    forall a, b | 0 <= a < b < |r|
      ensures r[a].priority <= r[b].priority
    {
      PutAt(ps, i, e, a);
      PutAt(ps, i, e, b);
      if b > i && a == i {
        assert ps[i].priority <= ps[b - 1].priority;
      }
    }
    forall j | 0 <= j < |ps| && ps[j].priority == e.priority
      ensures r[j] == ps[j]
    {
      PutAt(ps, i, e, j);
    }
  }

  /** An entry not yet listed keeps the list free of repeats. */
  lemma InsertedDistinct(ps: seq<ProcessorEntry>, e: ProcessorEntry)
    requires Distinct(ps) && e !in ps
    ensures Distinct(Inserted(ps, e))
  {
    var i := InsertionIndex(ps, e.priority);
    var r := ps[..i] + [e] + ps[i..];
    assert Inserted(ps, e) == r;
    forall a, b | 0 <= a < b < |r|
      ensures r[a] != r[b]
    {
      PutAt(ps, i, e, a);
      PutAt(ps, i, e, b);
    }
  }

  lemma DropAt(ps: seq<ProcessorEntry>, k: nat, a: nat)
    requires k < |ps| && a < |ps| - 1
    ensures (ps[..k] + ps[k + 1..])[a] == if a < k then ps[a] else ps[a + 1]
  {
  }

  /** Element-wise view of `Removed` when an entry was found at `k`. */
  lemma RemovedAt(ps: seq<ProcessorEntry>, proc: PacketProcessor, k: nat)
    requires k == FirstIndexOf(ps, proc) && k < |ps|
    ensures |Removed(ps, proc)| == |ps| - 1
    ensures forall j :: 0 <= j < |ps| - 1 ==> Removed(ps, proc)[j] == (if j < k then ps[j] else ps[j + 1])
    ensures multiset(Removed(ps, proc)) == multiset(ps) - multiset{ps[k]}
  {
    var r := ps[..k] + ps[k + 1..];
    assert Removed(ps, proc) == r;
    forall j | 0 <= j < |ps| - 1
      ensures r[j] == (if j < k then ps[j] else ps[j + 1])
    {
      DropAt(ps, k, j);
    }
    assert ps == ps[..k] + [ps[k]] + ps[k + 1..];
  }

  lemma RemovedSorted(ps: seq<ProcessorEntry>, proc: PacketProcessor)
    requires SortedByPriority(ps)
    ensures SortedByPriority(Removed(ps, proc))
  {
    var k := FirstIndexOf(ps, proc);
    if k < |ps| {
      var r := ps[..k] + ps[k + 1..];
      assert Removed(ps, proc) == r;
      forall a, b | 0 <= a < b < |r|
        ensures r[a].priority <= r[b].priority
      {
        DropAt(ps, k, a);
        DropAt(ps, k, b);
      }
    }
  }

  lemma RemovedDistinct(ps: seq<ProcessorEntry>, proc: PacketProcessor)
    requires Distinct(ps)
    ensures Distinct(Removed(ps, proc))
  {
    var k := FirstIndexOf(ps, proc);
    if k < |ps| {
      var r := ps[..k] + ps[k + 1..];
      assert Removed(ps, proc) == r;
      forall a, b | 0 <= a < b < |r|
        ensures r[a] != r[b]
      {
        DropAt(ps, k, a);
        DropAt(ps, k, b);
      }
    }
  }

  /** Removing takes away exactly the first entry of the processor, and
      nothing when the processor is not listed. */
  lemma RemovedOne(ps: seq<ProcessorEntry>, proc: PacketProcessor)
    ensures FirstIndexOf(ps, proc) == |ps| ==> Removed(ps, proc) == ps
    ensures FirstIndexOf(ps, proc) < |ps| ==>
              multiset(Removed(ps, proc)) == multiset(ps) - multiset{ps[FirstIndexOf(ps, proc)]} &&
              |Removed(ps, proc)| == |ps| - 1
  {
    var k := FirstIndexOf(ps, proc);
    if k < |ps| {
      RemovedAt(ps, proc, k);
    }
  }

  /** Adding a processor that is not listed and then removing it restores the list. */
  lemma AddThenRemove(ps: seq<ProcessorEntry>, e: ProcessorEntry)
    requires forall j :: 0 <= j < |ps| ==> ps[j].processor != e.processor
    ensures Removed(Inserted(ps, e), e.processor) == ps
  {
    var i := InsertionIndex(ps, e.priority);
    var r := Inserted(ps, e);
    assert r[i] == e;
    forall j | 0 <= j < i
      ensures r[j].processor != e.processor
    {
      assert r[j] == ps[j];
    }
    FirstIndexOfUnique(r, e.processor, i);
    assert r[..i] + r[i + 1..] == ps[..i] + ps[i..];
    assert ps == ps[..i] + ps[i..];
  }

  /** The `recordListen` calls `processPacket` issues for the entries `ps`. */
  function ListensFor(context: ProvActivity, ps: seq<ProcessorEntry>): (r: seq<ServiceCall>)
    ensures |r| == |ps|
    ensures forall i :: 0 <= i < |ps| ==> r[i] == ListenCall(Some(context), Some(ps[i].processor.className))
  {
    if ps == [] then []
    else ListensFor(context, ps[..|ps| - 1]) + [ListenCall(Some(context), Some(ps[|ps| - 1].processor.className))]
  }

  lemma AppendAssoc(a: seq<ServiceCall>, b: seq<ServiceCall>, c: seq<ServiceCall>)
    ensures (a + b) + c == a + (b + c)
  {
  }

  /** An entry's timing counters `(nanos, invocations)`. */
  function Count(e: ProcessorEntry): (int, int)
    reads e
  {
    (e.nanos, e.invocations)
  }

  /** An entry's counters after one packet: `addNanos(d)` unless it threw. */
  function Timed(c: (int, int), d: int, threw: bool): (int, int)
  {
    if threw then c else (Wrap64(c.0 + d), Wrap64(c.1 + 1))
  }

  lemma ListensSnoc(context: ProvActivity, ps: seq<ProcessorEntry>, i: nat)
    requires i < |ps|
    ensures ListensFor(context, ps[..i + 1]) == ListensFor(context, ps[..i]) + [ListenCall(Some(context), Some(ps[i].processor.className))]
  {
    var a := ListensFor(context, ps[..i + 1]);
    var b := ListensFor(context, ps[..i]) + [ListenCall(Some(context), Some(ps[i].processor.className))];
    assert |a| == |b|;
    forall j | 0 <= j < |a|
      ensures a[j] == b[j]
    {
    }
  }

  function EntryObjects(ps: seq<ProcessorEntry>): set<ProcessorEntry>
  {
    set e | e in ps
  }

  /** What one `recordListen` through the hook may change: the running
      service and the entities the context names, or nothing without a service. */
  function HookFrame(hook: ProvHook, context: ProvActivity): set<object>
    reads hook
  {
    if hook.svc != null then {hook.svc} + KindEntities(context.kind) else {}
  }

  /** The kinds of device; only switches take packet-request rules. */
  datatype DeviceType = Switch | OtherDeviceType(name: string)

  datatype Device = Device(id: string, kind: DeviceType)

  /** A packet request: a selector at a priority, for one device or all. */
  datatype PacketRequest = PacketRequest(selector: string, priority: int, deviceId: Option<string>)

  /** The forwarding objective `createBuilder` makes for a request: the
      request's priority and selector, versatile, punting to the controller
      and permanent; `pushRule` sends it to one device. */
  datatype Objective = Objective(deviceId: string, priority: int, selector: string, permanent: bool)

  function ObjectiveFor(d: Device, r: PacketRequest): Objective
  {
    Objective(d.id, r.priority, r.selector, true)
  }

  /** Whether `pushRulesToDevice` pushes request `r` to device `d`. */
  predicate Targets(d: Device, r: PacketRequest)
  {
    r.deviceId.None? || r.deviceId.value == d.id
  }

  /** The objectives `pushRulesToDevice` sends, in request order. */
  function PushedTo(d: Device, rs: seq<PacketRequest>): seq<Objective>
  {
    if rs == [] then []
    else PushedTo(d, rs[..|rs| - 1]) +
         (if d.kind == Switch && Targets(d, rs[|rs| - 1]) then [ObjectiveFor(d, rs[|rs| - 1])] else [])
  }

  /** An objective is sent exactly for the requests aimed at the device
      (or at no device), and only when the device is a switch. */
  lemma {:induction false} PushedToSpec(d: Device, rs: seq<PacketRequest>)
    ensures forall o :: o in PushedTo(d, rs) <==>
              d.kind == Switch && exists r :: r in rs && Targets(d, r) && o == ObjectiveFor(d, r)
    ensures |PushedTo(d, rs)| <= |rs|
  {
    if rs != [] {
      var init := rs[..|rs| - 1];
      PushedToSpec(d, init);
      assert rs == init + [rs[|rs| - 1]];
      forall o | d.kind == Switch && (exists r :: r in rs && Targets(d, r) && o == ObjectiveFor(d, r))
        ensures o in PushedTo(d, rs)
      {
        var r :| r in rs && Targets(d, r) && o == ObjectiveFor(d, r);
        if r != rs[|rs| - 1] {
          assert r in init;
        }
      }
    }
  }

  /** `PacketManager`: the priority-ordered processor list. */
  class PacketManager {
    var processors: seq<ProcessorEntry>

    /** Entries are distinct objects in non-decreasing priority order. */
    ghost predicate Valid()
      reads this
    {
      Distinct(processors) && SortedByPriority(processors)
    }

    constructor()
      ensures Valid() && processors == []
    {
      processors := [];
    }

    /** `addProcessor`: a fresh entry, inserted before the first entry of strictly greater priority. */
    method AddProcessor(processor: PacketProcessor, priority: int) returns (ghost entry: ProcessorEntry)
      requires Valid()
      modifies this
      ensures Valid()
      ensures fresh(entry) && entry.processor == processor && entry.priority == priority
      ensures entry.invocations == 0 && entry.nanos == 0
      ensures processors == Inserted(old(processors), entry)
    {
      var e := new ProcessorEntry(processor, priority);
      var i := 0;
      while i < |processors|
        invariant 0 <= i <= |processors|
        invariant forall j :: 0 <= j < i ==> processors[j].priority <= priority
      {
        if priority < processors[i].priority {
          break;
        }
        i := i + 1;
      }
      InsertionIndexUnique(processors, priority, i);
      InsertedSorted(processors, e);
      InsertedDistinct(processors, e);
      processors := processors[..i] + [e] + processors[i..];
      entry := e;
    }

    /** `removeProcessor`: the first entry of this processor goes, if there is one. */
    method RemoveProcessor(processor: PacketProcessor)
      requires Valid()
      modifies this
      ensures Valid()
      ensures processors == Removed(old(processors), processor)
    {
      RemovedSorted(processors, processor);
      RemovedDistinct(processors, processor);
      var i := 0;
      while i < |processors|
        invariant 0 <= i <= |processors|
        invariant forall j :: 0 <= j < i ==> processors[j].processor != processor
      {
        if processors[i].processor == processor {
          FirstIndexOfUnique(processors, processor, i);
          processors := processors[..i] + processors[i + 1..];
          return;
        }
        i := i + 1;
      }
      FirstIndexOfUnique(processors, processor, i);
    }

    /** `getProcessors`: a copy of the list. */
    method GetProcessors() returns (r: seq<ProcessorEntry>)
      ensures r == processors
    {
      r := processors;
    }

    /** `processPacket`: one `recordDispatch`, then for every entry in list
        order a `recordListen` and the processor's `process`; a processor
        that throws (`throws[i]`) is skipped by the timing, and the later
        ones still run. `elapsed[i]` is the i-th processor's measured time.
        A throwing `recordDispatch` (`ok` false) aborts before any processor. */
    method ProcessPacket(context: ProvActivity, hook: ProvHook, elapsed: seq<int>, throws: seq<bool>, now: int)
      returns (ok: bool)
      requires Valid()
      requires |elapsed| == |processors| && |throws| == |processors|
      modifies (if hook.svc != null then {hook.svc, context} + KindEntities(context.kind) else {}),
               EntryObjects(processors)
      ensures ok <==> hook.svc == null || !DispatchThrows(Some(context))
      ensures hook.svc != null ==>
                hook.svc.received == old(hook.svc.received) + [DispatchCall(Some(context))] +
                                     (if ok then ListensFor(context, processors) else [])
      ensures forall j :: 0 <= j < |processors| ==>
                Count(processors[j]) == if ok then Timed(old(Count(processors[j])), elapsed[j], throws[j])
                                        else old(Count(processors[j]))
    {
      var ps := processors;
      ok := hook.RecordDispatch(Some(context), now);
      assert forall j :: 0 <= j < |ps| ==> Count(ps[j]) == old(Count(ps[j]));
      if ok {
        RunProcessors(ps, context, hook, elapsed, throws, now);
      }
    }

    /** The loop of `processPacket` over the entries. */
    static method RunProcessors(ps: seq<ProcessorEntry>, context: ProvActivity, hook: ProvHook, elapsed: seq<int>, throws: seq<bool>, now: int)
      requires Distinct(ps)
      requires |elapsed| == |ps| && |throws| == |ps|
      modifies HookFrame(hook, context), EntryObjects(ps)
      ensures hook.svc == old(hook.svc)
      ensures hook.svc != null ==> hook.svc.received == old(hook.svc.received) + ListensFor(context, ps)
      ensures forall j :: 0 <= j < |ps| ==> Count(ps[j]) == Timed(old(Count(ps[j])), elapsed[j], throws[j])
    {
      ghost var svc := hook.svc;
      ghost var log0 := if svc != null then svc.received else [];
      var i := 0;
      while i < |ps|
        invariant 0 <= i <= |ps|
        invariant hook.svc == svc
        invariant svc != null ==> svc.received == log0 + ListensFor(context, ps[..i])
        invariant forall j :: 0 <= j < |ps| ==>
                    Count(ps[j]) == if j < i then Timed(old(Count(ps[j])), elapsed[j], throws[j]) else old(Count(ps[j]))
      {
        ListensSnoc(context, ps, i);
        AppendAssoc(log0, ListensFor(context, ps[..i]), [ListenCall(Some(context), Some(ps[i].processor.className))]);
        RunEntry(ps, i, context, hook, elapsed[i], throws[i], now);
        i := i + 1;
      }
      assert ps[..i] == ps;
    }

    /** One entry of `processPacket`: its `recordListen`, then its timing
        unless the processor threw. */
    static method RunEntry(ps: seq<ProcessorEntry>, i: nat, context: ProvActivity, hook: ProvHook, d: int, threw: bool, now: int)
      requires Distinct(ps) && i < |ps|
      modifies HookFrame(hook, context), ps[i]
      ensures hook.svc == old(hook.svc)
      ensures hook.svc != null ==>
                hook.svc.received == old(hook.svc.received) + [ListenCall(Some(context), Some(ps[i].processor.className))]
      ensures forall j :: 0 <= j < |ps| ==>
                Count(ps[j]) == if j == i then Timed(old(Count(ps[i])), d, threw) else old(Count(ps[j]))
    {
      var entry := ps[i];
      hook.RecordListen(Some(context), Some(entry.processor.className), now);
      if !threw {
        entry.AddNanos(d);
      }
      forall j | 0 <= j < |ps|
        ensures Count(ps[j]) == if j == i then Timed(old(Count(ps[i])), d, threw) else old(Count(ps[j]))
      {
        if j != i {
          assert ps[j] != ps[i];
        }
      }
    }

    /** `pushRulesToDevice` over the stored requests, with `pushRule`'s
        guard: the objectives sent, in order. */
    method PushRulesToDevice(device: Device, requests: seq<PacketRequest>) returns (sent: seq<Objective>)
      ensures sent == PushedTo(device, requests)
    {
      sent := [];
      var i := 0;
      while i < |requests|
        invariant 0 <= i <= |requests|
        invariant sent == PushedTo(device, requests[..i])
      {
        assert requests[..i + 1][..i] == requests[..i];
        var request := requests[i];
        if request.deviceId.None? {
          var o := PushRule(device, request);
          sent := sent + o;
        } else if request.deviceId.value == device.id {
          var o := PushRule(device, request);
          sent := sent + o;
        }
        i := i + 1;
      }
      assert requests[..i] == requests;
    }

    /** `pushRule`: nothing for a device that is not a switch. */
    method PushRule(device: Device, request: PacketRequest) returns (sent: seq<Objective>)
      ensures device.kind != Switch ==> sent == []
      ensures device.kind == Switch ==> sent == [ObjectiveFor(device, request)]
    {
      if device.kind != Switch {
        return [];
      }
      sent := [ObjectiveFor(device, request)];
    }
  }
}
