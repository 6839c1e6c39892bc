/** The provenance hook the controller core calls: it forwards each record
    request to the provenance service when one is running, and drops it
    otherwise. The service is the recorder of module ProvRecorder; its
    `received` log is the sequence of calls it was given. */

module Hook {
  import opened Wrappers
  import opened ProvObjects
  import opened ProvRecorder

  /** The objects a sequence of (possibly null) entities names. */
  function EntitiesOf(es: seq<Option<ProvEntity>>): set<object>
  {
    set i | 0 <= i < |es| && es[i].Some? :: es[i].value as object
  }

  /** The calls the iterable `recordApiCall` issues: one per entity, in
      order, all with the same location and no after-update entity. */
  function ApiCallsFor(kind: ApiCallType, es: seq<Option<ProvEntity>>, location: seq<string>): (r: seq<ServiceCall>)
    ensures |r| == |es|
    ensures forall i :: 0 <= i < |es| ==> r[i] == ApiCall(kind, es[i], None, location)
  {
    if es == [] then []
    else ApiCallsFor(kind, es[..|es| - 1], location) + [ApiCall(kind, es[|es| - 1], None, location)]
  }

  /** The calls the iterable `recordDerivation` issues: one per child, in
      order, all with the same parent. */
  function DerivationsFor(children: seq<Option<ProvEntity>>, parent: Option<ProvEntity>): (r: seq<ServiceCall>)
    ensures |r| == |children|
    ensures forall i :: 0 <= i < |children| ==> r[i] == DerivationCall(children[i], parent)
  {
    if children == [] then []
    else DerivationsFor(children[..|children| - 1], parent) + [DerivationCall(children[|children| - 1], parent)]
  }

  class ProvHook {
    /** The running provenance service, or null. */
    var svc: ProvManager?

    constructor()
      ensures svc == null
    {
      svc := null;
    }

    /** `start`: the service directory's lookup; a failed lookup leaves no service. */
    method Start(lookup: Option<ProvManager>)
      modifies this
      ensures svc == (if lookup.Some? then lookup.value else null)
    {
      if lookup.Some? {
        svc := lookup.value;
      } else {
        svc := null;
      }
    }

    /** `stop`. */
    method Stop()
      modifies this
      ensures svc == null
    {
      svc := null;
    }

    /** `recordDispatch`; `ok` is false when the service threw. */
    method RecordDispatch(activity: Option<ProvActivity>, now: int) returns (ok: bool)
      modifies if svc != null
               then {svc} + ActivitySet(activity) + (if activity.Some? then KindEntities(activity.value.kind) else {})
               else {}
      ensures svc == old(svc)
      ensures ok <==> svc == null || !DispatchThrows(activity)
      ensures svc != null ==> svc.received == old(svc.received) + [DispatchCall(activity)]
    {
      if svc == null {
        return true;
      }
      var r, _, _ := svc.RecordDispatch(activity, now);
      ok := r;
    }

    method RecordListen(activity: Option<ProvActivity>, listener: Option<string>, now: int)
      modifies if svc != null
               then {svc} + (if activity.Some? then EntitySet(ListenedSubject(activity.value.kind)) else {})
               else {}
      ensures svc == old(svc)
      ensures svc != null ==> svc.received == old(svc.received) + [ListenCall(activity, listener)]
    {
      if svc == null {
        return;
      }
      var _, _ := svc.RecordListen(activity, listener, now);
    }

    /** `recordApiCall(type)`: no entity. `location` is the hook caller's stack. */
    method RecordApiCallPlain(kind: ApiCallType, location: seq<string>, now: int)
      modifies if svc != null then {svc} else {}
      ensures svc != null ==> svc.received == old(svc.received) + [ApiCall(kind, None, None, location)]
    {
      if svc == null {
        return;
      }
      var _, _ := svc.RecordApiCall(kind, None, None, location, now);
    }

    /** `recordApiCall(type, entity)`. */
    method RecordApiCall(kind: ApiCallType, entity: Option<ProvEntity>, location: seq<string>, now: int)
      modifies if svc != null then {svc} + EntitySet(entity) else {}
      ensures svc != null ==> svc.received == old(svc.received) + [ApiCall(kind, entity, None, location)]
    {
      if svc == null {
        return;
      }
      var _, _ := svc.RecordApiCall(kind, entity, None, location, now);
    }

    /** `recordApiCall(type, entity, afterUpdateEntity)`. */
    method RecordApiCallUpdate(kind: ApiCallType, entity: Option<ProvEntity>, after: Option<ProvEntity>,
                               location: seq<string>, now: int)
      modifies if svc != null then {svc} + EntitySet(entity) + EntitySet(after) else {}
      ensures svc != null ==> svc.received == old(svc.received) + [ApiCall(kind, entity, after, location)]
    {
      if svc == null {
        return;
      }
      var _, _ := svc.RecordApiCall(kind, entity, after, location, now);
    }

    /** `recordApiCall(type, entities)`: one call per entity, sharing one location. */
    method RecordApiCallEach(kind: ApiCallType, entities: seq<Option<ProvEntity>>, location: seq<string>, now: int)
      modifies if svc != null then {svc} + EntitiesOf(entities) else {}
      ensures svc == old(svc)
      ensures svc != null ==> svc.received == old(svc.received) + ApiCallsFor(kind, entities, location)
    {
      if svc == null {
        return;
      }
      var s := svc;
      var i := 0;
      while i < |entities|
        invariant 0 <= i <= |entities|
        invariant svc == s
        invariant s.received == old(s.received) + ApiCallsFor(kind, entities[..i], location)
      {
        assert entities[..i + 1][..i] == entities[..i];
        var _, _ := s.RecordApiCall(kind, entities[i], None, location, now);
        i := i + 1;
      }
      assert entities[..i] == entities;
    }

    /** `recordDerivation(child, parent)`. */
    method RecordDerivation(child: Option<ProvEntity>, parent: Option<ProvEntity>, now: int)
      modifies if svc != null then {svc} + EntitySet(child) + EntitySet(parent) else {}
      ensures svc != null ==> svc.received == old(svc.received) + [DerivationCall(child, parent)]
    {
      if svc == null {
        return;
      }
      var _, _ := svc.RecordDerivation(child, parent, now);
    }

    /** `recordDerivation(children, parent)`: one call per child. */
    method RecordDerivationEach(children: seq<Option<ProvEntity>>, parent: Option<ProvEntity>, now: int)
      modifies if svc != null then {svc} + EntitiesOf(children) + EntitySet(parent) else {}
      ensures svc == old(svc)
      ensures svc != null ==> svc.received == old(svc.received) + DerivationsFor(children, parent)
    {
      if svc == null {
        return;
      }
      var s := svc;
      var i := 0;
      while i < |children|
        invariant 0 <= i <= |children|
        invariant svc == s
        invariant s.received == old(s.received) + DerivationsFor(children[..i], parent)
      {
        assert children[..i + 1][..i] == children[..i];
        var _, _ := s.RecordDerivation(children[i], parent, now);
        i := i + 1;
      }
      assert children[..i] == children;
    }
  }
}
