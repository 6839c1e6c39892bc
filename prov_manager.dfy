/** The provenance recorder: it receives dispatches, listens, API calls and
    derivations from the control plane, keeps a registry of the PROV
    entities it has written, the activity currently running for each
    listener and the flow rules by cookie, and appends one JSON line per
    record to its output. Fresh UUIDs come from a counter and the clock is
    the `now` argument of each call. */
module ProvRecorder {
  import opened Wrappers
  import opened JavaStrings
  import opened ProvText
  import opened ProvObjects

  /** The API call kinds the recorder distinguishes. */
  datatype ApiCallType = Create | Read | Update | Delete

  /** A call the recorder received, as the provenance hook issued it. */
  datatype ServiceCall =
    | DispatchCall(activity: Option<ProvActivity>)
    | ListenCall(activity: Option<ProvActivity>, listener: Option<string>)
    | ApiCall(kind: ApiCallType, entity: Option<ProvEntity>, afterUpdate: Option<ProvEntity>, location: seq<string>)
    | DerivationCall(child: Option<ProvEntity>, parent: Option<ProvEntity>)

  /** The fresh identifier drawn when the counter reads `n`: distinct for
      distinct `n`, and plain enough for both text forms. */
  function UuidFor(n: nat): (u: string)
    ensures Plain(u) && ',' !in u
  {
    "uuid-" + NatToString(n)
  }

  lemma UuidForInjective(m: nat, n: nat)
    ensures UuidFor(m) == UuidFor(n) ==> m == n
  {
    if UuidFor(m) == UuidFor(n) {
      assert NatToString(m) == UuidFor(m)[5..];
      NatToStringInjective(m, n);
    }
  }

  lemma {:induction false} NatToStringInjective(m: nat, n: nat)
    requires NatToString(m) == NatToString(n)
    ensures m == n
    decreases m
  {
    var a, b := NatToString(m), NatToString(n);
    if m >= 10 && n >= 10 {
      assert a[..|a| - 1] == NatToString(m / 10) && b[..|b| - 1] == NatToString(n / 10);
      NatToStringInjective(m / 10, n / 10);
      assert a[|a| - 1] == b[|b| - 1];
    }
  }

  /** The recorder's state as values. */
  datatype Snapshot = Snapshot(registry: map<string, W3CProvEntity>,
                               listeners: map<string, W3CProvActivity>,
                               cookies: map<int, W3CProvEntity>,
                               output: seq<string>,
                               nextUuid: nat)

  function Emit(s: Snapshot, line: string): Snapshot
  {
    s.(output := s.output + [line])
  }

  /** The uuid a newly registered entity gets: its own if it has one, else a fresh one. */
  function SlotUuid(slot: Option<string>, next: nat): string
  {
    if slot.Some? then slot.value else UuidFor(next)
  }

  /** `getOrInitializeEntity` on values: nothing happens for an entity whose
      key is registered; otherwise `w` is registered under the key, filed
      under its flow-rule id when it is a flow rule, its record is written,
      and the counter advances when the entity had no uuid of its own. */
  function AfterRegister(s: Snapshot, e: ProvEntity, slot: Option<string>, w: W3CProvEntity, now: int): Snapshot
  {
    if e.key in s.registry then s
    else
      Snapshot(s.registry[e.key := w],
               s.listeners,
               if e.flowRuleId.Some? then s.cookies[e.flowRuleId.value := w] else s.cookies,
               s.output + [EntityJson(SlotUuid(slot, s.nextUuid), "", e.text, now)],
               if slot.None? then s.nextUuid + 1 else s.nextUuid)
  }

  /** `w` is the record `getOrInitializeEntity` hands back for `e` in state
      `s`: the one registered under its key, or else a record carrying the
      uuid the entity's line is written with. */
  ghost predicate RecordOf(s: Snapshot, e: ProvEntity, slot: Option<string>, w: W3CProvEntity)
    reads w
  {
    (e.key in s.registry ==> w == s.registry[e.key]) &&
    (e.key !in s.registry ==> w.uuid == SlotUuid(slot, s.nextUuid))
  }

  /** `w1` and `w2` are the records of two registrations in a row from `s`,
      the second one taken in the state the first one leaves. */
  ghost predicate RecordsOf(s: Snapshot, e1: ProvEntity, slot1: Option<string>, w1: W3CProvEntity,
                            e2: ProvEntity, slot2: Option<string>, w2: W3CProvEntity, now: int)
    reads w1, w2
  {
    RecordOf(s, e1, slot1, w1) && RecordOf(AfterRegister(s, e1, slot1, w1, now), e2, slot2, w2)
  }

  /** The record a registration hands back is the one the registry then
      holds under the key, and on a first registration the entity line just
      written carries that record's uuid. */
  lemma RecordOfRegistered(s: Snapshot, e: ProvEntity, slot: Option<string>, w: W3CProvEntity, now: int)
    requires RecordOf(s, e, slot, w)
    ensures var t := AfterRegister(s, e, slot, w, now);
      e.key in t.registry && t.registry[e.key] == w &&
      (e.key !in s.registry ==> t.output == s.output + [EntityJson(w.uuid, "", e.text, now)])
  {
  }

  /** Registering is memoised: a second registration of the same key changes nothing. */
  lemma AfterRegisterMemoised(s: Snapshot, e: ProvEntity, slot: Option<string>, w: W3CProvEntity,
                              e2: ProvEntity, slot2: Option<string>, w2: W3CProvEntity, now: int, now2: int)
    requires e2.key == e.key
    ensures AfterRegister(AfterRegister(s, e, slot, w, now), e2, slot2, w2, now2) == AfterRegister(s, e, slot, w, now)
  {
  }

  /** A first registration writes exactly one line, the entity's record, and
      files the record under its key. */
  lemma AfterRegisterWritesOnce(s: Snapshot, e: ProvEntity, slot: Option<string>, w: W3CProvEntity, now: int)
    requires e.key !in s.registry
    ensures var t := AfterRegister(s, e, slot, w, now);
      t.output == s.output + [EntityJson(SlotUuid(slot, s.nextUuid), "", e.text, now)] &&
      t.registry[e.key] == w && t.registry.Keys == s.registry.Keys + {e.key} &&
      t.listeners == s.listeners
  {
  }

  /** The frame scan: the running activity of the first frame whose class
      has one, if any frame has. */
  function FirstActive(listeners: map<string, W3CProvActivity>, stack: seq<string>): Option<W3CProvActivity>
  {
    if |stack| == 0 then None
    else if stack[0] in listeners then Some(listeners[stack[0]])
    else FirstActive(listeners, stack[1..])
  }

  /** The scan finds nothing exactly when no frame has an activity, and
      otherwise the activity of the first frame that has one. */
  lemma {:induction false} FirstActiveSpec(listeners: map<string, W3CProvActivity>, stack: seq<string>)
    ensures FirstActive(listeners, stack).None? <==> forall i :: 0 <= i < |stack| ==> stack[i] !in listeners
    ensures FirstActive(listeners, stack).Some? ==>
              exists i :: 0 <= i < |stack| && stack[i] in listeners &&
                          FirstActive(listeners, stack).value == listeners[stack[i]] &&
                          forall j :: 0 <= j < i ==> stack[j] !in listeners
    decreases |stack|
  {
    if |stack| > 0 && stack[0] !in listeners {
      FirstActiveSpec(listeners, stack[1..]);
      if FirstActive(listeners, stack[1..]).Some? {
        var i :| 0 <= i < |stack[1..]| && stack[1..][i] in listeners &&
                 FirstActive(listeners, stack[1..]).value == listeners[stack[1..][i]] &&
                 forall j :: 0 <= j < i ==> stack[1..][j] !in listeners;
        assert stack[i + 1] == stack[1..][i];
        forall j | 0 <= j < i + 1
          ensures stack[j] !in listeners
        {
          if j > 0 {
            assert stack[j] == stack[1..][j - 1];
          }
        }
      } else {
        forall i | 0 <= i < |stack|
          ensures stack[i] !in listeners
        {
          if i > 0 {
            assert stack[i] == stack[1..][i - 1];
          }
        }
      }
    }
  }

  /** `isStatsRelated`: the listener's class name mentions statistics. */
  predicate IsStatsRelated(listener: string)
  {
    Contains(listener, "Statistic")
  }

  /** `isResourceRelated`: an event whose type name starts with `RESOURCE`. */
  predicate IsResourceRelated(kind: ActivityKind)
  {
    kind.Event? && StartsWith(kind.eventType, "RESOURCE")
  }

  /** The entity a listener uses: an event's subject, or a packet context's packet. */
  function ListenedSubject(kind: ActivityKind): Option<ProvEntity>
  {
    match kind
    case Event(_, subject, _, _) => subject
    case PacketContext(p) => if p.Some? then Some(p.value.entity) else None
    case OtherActivity => None
  }

  /** `ProvManager`. */
  class ProvManager {
    var registry: map<string, W3CProvEntity>
    var activeListeners: map<string, W3CProvActivity>
    var cookieToFlowRule: map<int, W3CProvEntity>
    var output: seq<string>
    var nextUuid: nat
    ghost var received: seq<ServiceCall>

    function State(): Snapshot
      reads this
    {
      Snapshot(registry, activeListeners, cookieToFlowRule, output, nextUuid)
    }

    constructor()
      ensures State() == Snapshot(map[], map[], map[], [], 0) && received == []
    {
      registry := map[];
      activeListeners := map[];
      cookieToFlowRule := map[];
      output := [];
      nextUuid := 0;
      received := [];
    }

    /** `UUID.randomUUID()`. */
    method FreshUuid() returns (u: string)
      modifies this
      ensures u == UuidFor(old(nextUuid)) && State() == old(State()).(nextUuid := old(nextUuid) + 1)
      ensures received == old(received)
    {
      u := UuidFor(nextUuid);
      nextUuid := nextUuid + 1;
    }

    /** `writeOut`: the line is appended to the output. */
    method WriteOut(line: string)
      modifies this
      ensures State() == Emit(old(State()), line) && received == old(received)
    {
      output := output + [line];
    }

    /** `getOrInitializeEntity`: the registered record for the entity's key;
        on the first call for a key the entity gets a uuid if it had none,
        a record is created, registered, filed by flow-rule id for a flow
        rule, and written out once. */
    method GetOrInitializeEntity(e: ProvEntity, now: int) returns (w: W3CProvEntity)
      modifies this, e
      ensures State() == AfterRegister(old(State()), e, old(e.entityUuid), w, now)
      ensures e.key in old(registry) ==> w == old(registry)[e.key] && e.entityUuid == old(e.entityUuid)
      ensures e.key !in old(registry) ==>
                fresh(w) && w.uuid == SlotUuid(old(e.entityUuid), old(nextUuid)) && e.entityUuid == Some(w.uuid) &&
                w.entity == e && w.name == "" && w.value == e.text && w.ts == now
      ensures received == old(received)
    {
      if e.key in registry {
        return registry[e.key];
      }
      if e.entityUuid.None? {
        var u := FreshUuid();
        e.SetEntityUuid(u);
      }
      w := new W3CProvEntity(e.entityUuid.value, e, "", e.text, now);
      registry := registry[e.key := w];
      WriteOut(w.ToJson());
      if e.flowRuleId.Some? {
        cookieToFlowRule := cookieToFlowRule[e.flowRuleId.value := w];
      }
    }

    /** `updateActiveListener`: the listener's running activity becomes `w`. */
    method UpdateActiveListener(listener: string, w: W3CProvActivity)
      modifies this
      ensures State() == old(State()).(listeners := old(activeListeners)[listener := w])
      ensures received == old(received)
    {
      if listener in activeListeners {
        activeListeners := activeListeners - {listener};
      }
      activeListeners := activeListeners[listener := w];
    }

    /** The loop of `recordApiCall` over the stack frames. */
    method FindActivity(stack: seq<string>) returns (r: Option<W3CProvActivity>)
      ensures r == FirstActive(activeListeners, stack)
    {
      r := None;
      var i := 0;
      while i < |stack|
        invariant 0 <= i <= |stack|
        invariant FirstActive(activeListeners, stack) == FirstActive(activeListeners, stack[i..])
        decreases |stack| - i
      {
        if stack[i] in activeListeners {
          r := Some(activeListeners[stack[i]]);
          return;
        }
        assert stack[i..][1..] == stack[i + 1..];
        i := i + 1;
      }
    }

    /** `handleCreate`: nothing for a null entity; otherwise the entity is
        registered and, when an activity is running, `wasGeneratedBy(entity,
        activity)` is written. */
    method HandleCreate(entity: Option<ProvEntity>, act: Option<W3CProvActivity>, now: int)
      returns (ghost w: Option<W3CProvEntity>)
      modifies this, EntitySet(entity)
      ensures entity.None? ==> State() == old(State())
      ensures entity.Some? ==>
                w.Some? && RecordOf(old(State()), entity.value, old(entity.value.entityUuid), w.value) &&
                State() == Created(old(State()), entity.value, old(entity.value.entityUuid), w.value, act, now)
      ensures received == old(received)
    {
      w := None;
      if entity.None? {
        return;
      }
      var we := GetOrInitializeEntity(entity.value, now);
      w := Some(we);
      if act.None? {
        return;
      }
      var rel := new W3CProvRelation(EntityObject(we), ActivityObject(act.value), WasGeneratedBy, now);
      WriteOut(rel.ToJson());
    }

    /** `handleRead`: nothing for a null entity; otherwise the entity is
        registered and, when an activity is running, `used(activity,
        entity)` is written. */
    method HandleRead(entity: Option<ProvEntity>, act: Option<W3CProvActivity>, now: int)
      returns (ghost w: Option<W3CProvEntity>)
      modifies this, EntitySet(entity)
      ensures entity.None? ==> State() == old(State())
      ensures entity.Some? ==>
                w.Some? && RecordOf(old(State()), entity.value, old(entity.value.entityUuid), w.value) &&
                State() == ReadDone(old(State()), entity.value, old(entity.value.entityUuid), w.value, act, now)
      ensures received == old(received)
    {
      w := None;
      if entity.None? {
        return;
      }
      var we := GetOrInitializeEntity(entity.value, now);
      w := Some(we);
      if act.None? {
        return;
      }
      var rel := new W3CProvRelation(ActivityObject(act.value), EntityObject(we), Used, now);
      WriteOut(rel.ToJson());
    }

    /** `handleUpdate`: (null, x) is a creation of x; (x, null) and (null,
        null) write nothing; two entities always give `wasRevisionOf(new,
        old)`, then `wasGeneratedBy(new, activity)` when an activity is
        running. The same-value test compares a string with an entity, so
        its branch is never taken and is not modelled. */
    method HandleUpdate(entity: Option<ProvEntity>, after: Option<ProvEntity>, act: Option<W3CProvActivity>, now: int)
      returns (ghost wOld: Option<W3CProvEntity>, ghost wNew: Option<W3CProvEntity>)
      modifies this, EntitySet(entity), EntitySet(after)
      ensures after.None? ==> State() == old(State())
      ensures entity.None? && after.Some? ==>
                wNew.Some? && RecordOf(old(State()), after.value, old(after.value.entityUuid), wNew.value) &&
                State() == Created(old(State()), after.value, old(after.value.entityUuid), wNew.value, act, now)
      ensures entity.Some? && after.Some? ==>
                wOld.Some? && wNew.Some? &&
                RecordsOf(old(State()), entity.value, old(entity.value.entityUuid), wOld.value,
                          after.value, old(after.value.entityUuid), wNew.value, now) &&
                State() == Revised(old(State()), entity.value, old(entity.value.entityUuid), wOld.value,
                                   after.value, old(after.value.entityUuid), wNew.value, act, now)
      ensures received == old(received)
    {
      wOld, wNew := None, None;
      if entity.None? && after.Some? {
        wNew := HandleCreate(after, act, now);
        return;
      } else if entity.Some? && after.None? {
        return;
      } else if entity.None? && after.None? {
        return;
      }
      var o, n := HostRevision(entity.value, after.value, now);
      wOld, wNew := Some(o), Some(n);
      if act.None? {
        return;
      }
      var generation := new W3CProvRelation(EntityObject(n), ActivityObject(act.value), WasGeneratedBy, now);
      WriteOut(generation.ToJson());
    }

    /** `recordApiCall`: the running activity is the one of the first stack
        frame that has one; then the call is handled by its kind, a
        deletion writing nothing. */
    method RecordApiCall(kind: ApiCallType, entity: Option<ProvEntity>, after: Option<ProvEntity>,
                         location: seq<string>, now: int)
      returns (ghost w1: Option<W3CProvEntity>, ghost w2: Option<W3CProvEntity>)
      modifies this, EntitySet(entity), EntitySet(after)
      ensures received == old(received) + [ApiCall(kind, entity, after, location)]
      ensures var act := FirstActive(old(activeListeners), location);
        match kind
        case Create =>
          (entity.None? ==> State() == old(State())) &&
          (entity.Some? ==>
             w1.Some? && RecordOf(old(State()), entity.value, old(entity.value.entityUuid), w1.value) &&
             State() == Created(old(State()), entity.value, old(entity.value.entityUuid), w1.value, act, now))
        case Read =>
          (entity.None? ==> State() == old(State())) &&
          (entity.Some? ==>
             w1.Some? && RecordOf(old(State()), entity.value, old(entity.value.entityUuid), w1.value) &&
             State() == ReadDone(old(State()), entity.value, old(entity.value.entityUuid), w1.value, act, now))
        case Update =>
          (after.None? ==> State() == old(State())) &&
          (entity.None? && after.Some? ==>
             w2.Some? && RecordOf(old(State()), after.value, old(after.value.entityUuid), w2.value) &&
             State() == Created(old(State()), after.value, old(after.value.entityUuid), w2.value, act, now)) &&
          (entity.Some? && after.Some? ==>
             w1.Some? && w2.Some? &&
             RecordsOf(old(State()), entity.value, old(entity.value.entityUuid), w1.value,
                       after.value, old(after.value.entityUuid), w2.value, now) &&
             State() == Revised(old(State()), entity.value, old(entity.value.entityUuid), w1.value,
                                after.value, old(after.value.entityUuid), w2.value, act, now))
        case Delete => State() == old(State())
    {
      received := received + [ApiCall(kind, entity, after, location)];
      var act := FindActivity(location);
      w1, w2 := None, None;
      match kind
      case Create =>
        w1 := HandleCreate(entity, act, now);
      case Read =>
        w1 := HandleRead(entity, act, now);
      case Update =>
        w1, w2 := HandleUpdate(entity, after, act, now);
      case Delete =>
    }

    /** `recordDerivation`: for two entities, both are registered and
        `wasDerivedFrom(child, parent)` is written; otherwise nothing. */
    method RecordDerivation(child: Option<ProvEntity>, parent: Option<ProvEntity>, now: int)
      returns (ghost wc: Option<W3CProvEntity>, ghost wp: Option<W3CProvEntity>)
      modifies this, EntitySet(child), EntitySet(parent)
      ensures received == old(received) + [DerivationCall(child, parent)]
      ensures child.None? || parent.None? ==> State() == old(State())
      ensures child.Some? && parent.Some? ==>
                wc.Some? && wp.Some? &&
                RecordsOf(old(State()), child.value, old(child.value.entityUuid), wc.value,
                          parent.value, old(parent.value.entityUuid), wp.value, now) &&
                var s1 := AfterRegister(old(State()), child.value, old(child.value.entityUuid), wc.value, now);
                var s2 := AfterRegister(s1, parent.value, old(parent.value.entityUuid), wp.value, now);
                State() == Emit(s2, RelationJson(WasDerivedFrom, wc.value.uuid, wp.value.uuid, now))
    {
      received := received + [DerivationCall(child, parent)];
      wc, wp := None, None;
      if child.Some? && parent.Some? {
        var c, p := Derivation(child.value, parent.value, now);
        wc, wp := Some(c), Some(p);
      }
    }

    /** The two-entity half of `recordDerivation`: both are registered and
        `wasDerivedFrom(child, parent)` is written. */
    method Derivation(child: ProvEntity, parent: ProvEntity, now: int)
      returns (ghost wc: W3CProvEntity, ghost wp: W3CProvEntity)
      modifies this, child, parent
      ensures RecordsOf(old(State()), child, old(child.entityUuid), wc, parent, old(parent.entityUuid), wp, now)
      ensures var s1 := AfterRegister(old(State()), child, old(child.entityUuid), wc, now);
              var s2 := AfterRegister(s1, parent, old(parent.entityUuid), wp, now);
              State() == Emit(s2, RelationJson(WasDerivedFrom, wc.uuid, wp.uuid, now))
      ensures received == old(received)
    {
      var c := GetOrInitializeEntity(child, now);
      var p := GetOrInitializeEntity(parent, now);
      wc, wp := c, p;
      var derivation := new W3CProvRelation(EntityObject(c), EntityObject(p), WasDerivedFrom, now);
      WriteOut(derivation.ToJson());
    }

    /** `recordDispatch`: the activity gets a fresh uuid; a host event with
        both host versions writes `wasRevisionOf(new host, old host)`; a
        packet context writes `wasDerivedFrom(packet, flow rule)` when the
        packet's cookie names a known flow rule. A packet without a cookie
        makes `Optional.get` throw after the uuid is set: `ok` is false. */
    method RecordDispatch(activity: Option<ProvActivity>, now: int)
      returns (ok: bool, ghost wa: Option<W3CProvEntity>, ghost wb: Option<W3CProvEntity>)
      modifies this, ActivitySet(activity), if activity.Some? then KindEntities(activity.value.kind) else {}
      ensures received == old(received) + [DispatchCall(activity)]
      ensures ok <==> !DispatchThrows(activity)
      ensures activity.None? ==> ok && State() == old(State())
      ensures activity.Some? ==>
        activity.value.activityUuid == Some(UuidFor(old(nextUuid))) &&
        var s0 := old(State()).(nextUuid := old(nextUuid) + 1);
        match activity.value.kind
        case Event(_, subject, isHost, prev) =>
          ok &&
          (isHost && prev.Some? && subject.Some? ==>
             wa.Some? && wb.Some? &&
             RecordsOf(s0, prev.value, old(prev.value.entityUuid), wa.value,
                       subject.value, old(subject.value.entityUuid), wb.value, now) &&
             var s1 := AfterRegister(s0, prev.value, old(prev.value.entityUuid), wa.value, now);
             var s2 := AfterRegister(s1, subject.value, old(subject.value.entityUuid), wb.value, now);
             State() == Emit(s2, RelationJson(WasRevisionOf, wb.value.uuid, wa.value.uuid, now))) &&
          (!(isHost && prev.Some? && subject.Some?) ==> State() == s0)
        case PacketContext(p) =>
          (p.None? ==> ok && State() == s0) &&
          (p.Some? && p.value.cookie.None? ==> !ok && State() == s0) &&
          (p.Some? && p.value.cookie.Some? && p.value.cookie.value !in old(cookieToFlowRule) ==> ok && State() == s0) &&
          (p.Some? && p.value.cookie.Some? && p.value.cookie.value in old(cookieToFlowRule) ==>
             ok && wa.Some? && RecordOf(s0, p.value.entity, old(p.value.entity.entityUuid), wa.value) &&
             var s1 := AfterRegister(s0, p.value.entity, old(p.value.entity.entityUuid), wa.value, now);
             p.value.cookie.value in s1.cookies &&
             State() == Emit(s1, RelationJson(WasDerivedFrom, wa.value.uuid, s1.cookies[p.value.cookie.value].uuid, now)))
        case OtherActivity => ok && State() == s0
    {
      received := received + [DispatchCall(activity)];
      ok, wa, wb := true, None, None;
      if activity.None? {
        return;
      }
      var a := activity.value;
      var u := FreshUuid();
      a.SetActivityUuid(u);
      match a.kind
      case Event(_, subject, isHost, prev) =>
        if isHost && prev.Some? && subject.Some? {
          var o, n := HostRevision(prev.value, subject.value, now);
          wa, wb := Some(o), Some(n);
        }
      case PacketContext(p) =>
        if p.Some? {
          ok, wa := PacketDerivation(p.value, now);
        }
      case OtherActivity =>
    }

    /** The host-event half of `recordDispatch`: both host versions are
        registered and `wasRevisionOf(new host, old host)` is written;
        `handleUpdate` does the same for two entities. */
    method HostRevision(prev: ProvEntity, subject: ProvEntity, now: int)
      returns (wa: W3CProvEntity, wb: W3CProvEntity)
      modifies this, prev, subject
      ensures RecordsOf(old(State()), prev, old(prev.entityUuid), wa, subject, old(subject.entityUuid), wb, now)
      ensures var s1 := AfterRegister(old(State()), prev, old(prev.entityUuid), wa, now);
              var s2 := AfterRegister(s1, subject, old(subject.entityUuid), wb, now);
              State() == Emit(s2, RelationJson(WasRevisionOf, wb.uuid, wa.uuid, now))
      ensures received == old(received)
    {
      var o := GetOrInitializeEntity(prev, now);
      var n := GetOrInitializeEntity(subject, now);
      wa, wb := o, n;
      var revision := new W3CProvRelation(EntityObject(n), EntityObject(o), WasRevisionOf, now);
      WriteOut(revision.ToJson());
    }

    /** The packet-context half of `recordDispatch`: a missing cookie throws,
        an unknown one writes nothing, a known one registers the packet and
        writes `wasDerivedFrom(packet, flow rule)`. */
    method PacketDerivation(p: InboundPacket, now: int)
      returns (ok: bool, ghost wa: Option<W3CProvEntity>)
      modifies this, p.entity
      ensures p.cookie.None? ==> !ok && State() == old(State())
      ensures p.cookie.Some? && p.cookie.value !in old(cookieToFlowRule) ==> ok && State() == old(State())
      ensures p.cookie.Some? && p.cookie.value in old(cookieToFlowRule) ==>
                ok && wa.Some? && RecordOf(old(State()), p.entity, old(p.entity.entityUuid), wa.value) &&
                var s1 := AfterRegister(old(State()), p.entity, old(p.entity.entityUuid), wa.value, now);
                p.cookie.value in s1.cookies &&
                State() == Emit(s1, RelationJson(WasDerivedFrom, wa.value.uuid, s1.cookies[p.cookie.value].uuid, now))
      ensures received == old(received)
    {
      wa := None;
      if p.cookie.None? {
        return false, wa;
      }
      ok := true;
      var cookie := p.cookie.value;
      if cookie in cookieToFlowRule {
        var pkt := GetOrInitializeEntity(p.entity, now);
        wa := Some(pkt);
        var rule := cookieToFlowRule[cookie];
        var derivation := new W3CProvRelation(EntityObject(pkt), EntityObject(rule), WasDerivedFrom, now);
        WriteOut(derivation.ToJson());
      }
    }

    /** `recordListen`: skipped without an activity, a listener or an
        activity uuid, for statistics listeners and for resource events;
        otherwise see `ListenRecorded`. */
    method RecordListen(activity: Option<ProvActivity>, listener: Option<string>, now: int)
      returns (ghost wa: Option<W3CProvActivity>, ghost we: Option<W3CProvEntity>)
      modifies this, if activity.Some? then EntitySet(ListenedSubject(activity.value.kind)) else {}
      ensures received == old(received) + [ListenCall(activity, listener)]
      ensures ListenSkipped(activity, listener) ==> State() == old(State())
      ensures !ListenSkipped(activity, listener) ==>
        wa.Some? && fresh(wa.value) &&
        wa.value.uuid == UuidFor(old(nextUuid)) && wa.value.activity == activity.value &&
        wa.value.name == listener.value && wa.value.value == "" && wa.value.ts == now &&
        ListenEffect(old(State()), activity.value, listener.value, wa.value, we, old(EntityUuidOf(ListenedSubject(activity.value.kind))), State(), now)
    {
      received := received + [ListenCall(activity, listener)];
      wa, we := None, None;
      if activity.None? || listener.None? {
        return;
      } else if activity.value.activityUuid.None? {
        return;
      }
      if IsStatsRelated(listener.value) {
        return;
      }
      if IsResourceRelated(activity.value.kind) {
        return;
      }
      var a, e := ListenRecorded(activity.value, listener.value, now);
      wa, we := Some(a), e;
    }

    /** The recording half of `recordListen`: a fresh activity record is
        written and made the listener's running activity, and `used(activity,
        subject)` is written when the activity has an entity subject. */
    method ListenRecorded(activity: ProvActivity, listener: string, now: int)
      returns (wa: W3CProvActivity, ghost we: Option<W3CProvEntity>)
      modifies this, EntitySet(ListenedSubject(activity.kind))
      ensures fresh(wa) && wa.uuid == UuidFor(old(nextUuid)) && wa.activity == activity &&
              wa.name == listener && wa.value == "" && wa.ts == now
      ensures ListenEffect(old(State()), activity, listener, wa, we, old(EntityUuidOf(ListenedSubject(activity.kind))), State(), now)
      ensures received == old(received)
    {
      var u := FreshUuid();
      wa := new W3CProvActivity(u, activity, listener, "", now);
      WriteOut(wa.ToJson());
      UpdateActiveListener(listener, wa);
      we := None;
      var subject := ListenedSubject(activity.kind);
      if subject.Some? {
        var w := ListenUse(wa, subject.value, now);
        we := Some(w);
      }
    }

    /** The subject half of `recordListen`: the subject is registered and
        `used(activity, subject)` is written. */
    method ListenUse(wa: W3CProvActivity, subject: ProvEntity, now: int) returns (w: W3CProvEntity)
      modifies this, subject
      ensures RecordOf(old(State()), subject, old(subject.entityUuid), w)
      ensures State() == Emit(AfterRegister(old(State()), subject, old(subject.entityUuid), w, now),
                              RelationJson(Used, wa.uuid, w.uuid, now))
      ensures received == old(received)
    {
      w := GetOrInitializeEntity(subject, now);
      var used := new W3CProvRelation(ActivityObject(wa), EntityObject(w), Used, now);
      WriteOut(used.ToJson());
    }
  }

  /** The state change of a recorded `recordListen` from `s` to `t`; `slot` is
      the subject's uuid slot before the call. */
  ghost predicate ListenEffect(s: Snapshot, activity: ProvActivity, listener: string, wa: W3CProvActivity,
                               we: Option<W3CProvEntity>, slot: Option<string>, t: Snapshot, now: int)
    reads wa, if we.Some? then {we.value} else {}
  {
    var s1 := Emit(s.(nextUuid := s.nextUuid + 1), ActivityJson(UuidFor(s.nextUuid), listener, "", now))
              .(listeners := s.listeners[listener := wa]);
    var subject := ListenedSubject(activity.kind);
    (subject.None? ==> t == s1) &&
    (subject.Some? ==>
       we.Some? && RecordOf(s1, subject.value, slot, we.value) &&
       t == Emit(AfterRegister(s1, subject.value, slot, we.value, now),
                 RelationJson(Used, wa.uuid, we.value.uuid, now)))
  }

  function EntityUuidOf(e: Option<ProvEntity>): Option<string>
    reads EntitySet(e)
  {
    if e.Some? then e.value.entityUuid else None
  }

  function EntitySet(e: Option<ProvEntity>): set<ProvEntity>
  {
    if e.Some? then {e.value} else {}
  }

  function ActivitySet(a: Option<ProvActivity>): set<ProvActivity>
  {
    if a.Some? then {a.value} else {}
  }

  /** The entities a dispatch may register: a host event's two hosts, a packet context's packet. */
  function KindEntities(k: ActivityKind): set<ProvEntity>
  {
    match k
    case Event(_, subject, _, prev) => EntitySet(subject) + EntitySet(prev)
    case PacketContext(p) => if p.Some? then {p.value.entity} else {}
    case OtherActivity => {}
  }

  /** When `recordDispatch` throws: a packet context whose packet has no cookie. */
  predicate DispatchThrows(activity: Option<ProvActivity>)
  {
    activity.Some? && activity.value.kind.PacketContext? &&
    activity.value.kind.inPacket.Some? && activity.value.kind.inPacket.value.cookie.None?
  }

  /** When `recordListen` records nothing. */
  predicate ListenSkipped(activity: Option<ProvActivity>, listener: Option<string>)
    reads ActivitySet(activity)
  {
    activity.None? || listener.None? || activity.value.activityUuid.None? ||
    IsStatsRelated(listener.value) || IsResourceRelated(activity.value.kind)
  }

  function ActivityUuids(act: Option<W3CProvActivity>): set<object>
  {
    if act.Some? then {act.value} else {}
  }

  /** The effect of `handleCreate` on an entity `e` whose record is `w`. */
  function Created(s: Snapshot, e: ProvEntity, slot: Option<string>, w: W3CProvEntity,
                   act: Option<W3CProvActivity>, now: int): Snapshot
    reads w, ActivityUuids(act)
  {
    var s1 := AfterRegister(s, e, slot, w, now);
    if act.Some? then Emit(s1, RelationJson(WasGeneratedBy, w.uuid, act.value.uuid, now)) else s1
  }

  /** The effect of `handleRead` on an entity `e` whose record is `w`. */
  function ReadDone(s: Snapshot, e: ProvEntity, slot: Option<string>, w: W3CProvEntity,
                    act: Option<W3CProvActivity>, now: int): Snapshot
    reads w, ActivityUuids(act)
  {
    var s1 := AfterRegister(s, e, slot, w, now);
    if act.Some? then Emit(s1, RelationJson(Used, act.value.uuid, w.uuid, now)) else s1
  }

  /** The effect of `handleUpdate` on two entities whose records are `wOld` and `wNew`. */
  function Revised(s: Snapshot, eOld: ProvEntity, slotOld: Option<string>, wOld: W3CProvEntity,
                   eNew: ProvEntity, slotNew: Option<string>, wNew: W3CProvEntity,
                   act: Option<W3CProvActivity>, now: int): Snapshot
    reads wOld, wNew, ActivityUuids(act)
  {
    var s1 := AfterRegister(s, eOld, slotOld, wOld, now);
    var s2 := AfterRegister(s1, eNew, slotNew, wNew, now);
    var s3 := Emit(s2, RelationJson(WasRevisionOf, wNew.uuid, wOld.uuid, now));
    if act.Some? then Emit(s3, RelationJson(WasGeneratedBy, wNew.uuid, act.value.uuid, now)) else s3
  }
}
