/** The PROV objects the recorder writes out: the entities and activities
    of the control plane, the relations between them, and their text forms.
    `ProvEntity` and `ProvActivity` stand for the control-plane objects that
    carry a provenance identifier (flow rules, hosts, events, packet
    contexts); only what the recorder asks of them is kept. */
module ProvObjects {
  import opened Wrappers
  import opened JavaStrings
  import opened ProvText

  /** A control-plane object that can be the subject of provenance. `key`
      is what its `equals` compares (the recorder's registry is keyed by
      it), `text` its `toString`, and `flowRuleId` the `id().id()` of a
      flow rule (absent for every other kind of object). */
  class ProvEntity {
    const key: string
    const text: string
    const flowRuleId: Option<int>
    var entityUuid: Option<string>

    constructor(key: string, text: string, flowRuleId: Option<int>)
      ensures this.key == key && this.text == text && this.flowRuleId == flowRuleId
      ensures entityUuid == None
    {
      this.key := key;
      this.text := text;
      this.flowRuleId := flowRuleId;
      entityUuid := None;
    }

    method SetEntityUuid(u: string)
      modifies this
      ensures entityUuid == Some(u)
    {
      entityUuid := Some(u);
    }
  }

  /** An inbound packet seen by a packet context; `cookie` is the optional
      cookie of the flow rule that sent it to the controller. */
  datatype InboundPacket = InboundPacket(entity: ProvEntity, cookie: Option<int>)

  /** What the recorder distinguishes about an activity. An absent subject
      or packet stands for a null one as well as for one that is not a
      `ProvEntity`. A host event's subject is the new host and
      `prevSubject` the old one. */
  datatype ActivityKind =
    | Event(eventType: string, subject: Option<ProvEntity>, isHostEvent: bool, prevSubject: Option<ProvEntity>)
    | PacketContext(inPacket: Option<InboundPacket>)
    | OtherActivity

  /** An event being dispatched or a packet being processed. */
  class ProvActivity {
    const kind: ActivityKind
    var activityUuid: Option<string>

    constructor(kind: ActivityKind)
      ensures this.kind == kind && activityUuid == None
    {
      this.kind := kind;
      activityUuid := None;
    }

    method SetActivityUuid(u: string)
      modifies this
      ensures activityUuid == Some(u)
    {
      activityUuid := Some(u);
    }
  }

  /** The relation types of section 5 of the W3C PROV-DM recommendation that
      the recorder uses. */
  datatype RelationType =
    | Used | ActedOnBehalfOf | WasAssociatedWith | WasDerivedFrom
    | WasGeneratedBy | WasInformedBy | WasRevisionOf | Invalidates

  /** `getTypeString`: the PROV-N name of a relation type. */
  function TypeString(t: RelationType): string
  {
    match t
    case Used => "used"
    case ActedOnBehalfOf => "actedOnBehalfOf"
    case WasAssociatedWith => "wasAssociatedWith"
    case WasDerivedFrom => "wasDerivedFrom"
    case WasGeneratedBy => "wasGeneratedBy"
    case WasInformedBy => "wasInformedBy"
    case WasRevisionOf => "wasRevisionOf"
    case Invalidates => "invalidates"
  }

  /** The relation type a PROV-N name stands for, if any. */
  function ParseRelationType(s: string): (r: Option<RelationType>)
  {
    if s == "used" then Some(Used)
    else if s == "actedOnBehalfOf" then Some(ActedOnBehalfOf)
    else if s == "wasAssociatedWith" then Some(WasAssociatedWith)
    else if s == "wasDerivedFrom" then Some(WasDerivedFrom)
    else if s == "wasGeneratedBy" then Some(WasGeneratedBy)
    else if s == "wasInformedBy" then Some(WasInformedBy)
    else if s == "wasRevisionOf" then Some(WasRevisionOf)
    else if s == "invalidates" then Some(Invalidates)
    else None
  }

  /** Every type's name reads back as that type, and a name that reads as a
      type is that type's name: the eight names are distinct. */
  lemma TypeStringRoundTrip(t: RelationType, s: string)
    ensures ParseRelationType(TypeString(t)) == Some(t)
    ensures ParseRelationType(s) == Some(t) ==> TypeString(t) == s
  {
  }

  lemma TypeStringInjective(t1: RelationType, t2: RelationType)
    ensures TypeString(t1) == TypeString(t2) ==> t1 == t2
  {
    TypeStringRoundTrip(t1, TypeString(t2));
    TypeStringRoundTrip(t2, TypeString(t1));
  }

  /** Every name is non-empty, plain and free of `(`, so it can head a PROV-N
      relation and sit in a JSON string. */
  lemma TypeStringReadable(t: RelationType)
    ensures TypeString(t) != "" && Plain(TypeString(t)) && '(' !in TypeString(t)
  {
    match t
    case Used =>
    case ActedOnBehalfOf =>
    case WasAssociatedWith =>
    case WasDerivedFrom =>
    case WasGeneratedBy =>
    case WasInformedBy =>
    case WasRevisionOf =>
    case Invalidates =>
  }

  // ------------------------------------------------------- the text forms

  function EntityAttrs(name: string, value: string, ts: int): seq<Field>
  {
    [("name", name), ("value", value), ("ts", IntToString(ts))]
  }

  function EntityFields(uuid: string, name: string, value: string, ts: int): seq<Field>
  {
    [("w3cProvType", "entity"), ("uuid", uuid), ("name", name), ("value", value), ("ts", IntToString(ts))]
  }

  function ActivityAttrs(name: string, ts: int): seq<Field>
  {
    [("name", name), ("ts", IntToString(ts))]
  }

  function ActivityFields(uuid: string, name: string, value: string, ts: int): seq<Field>
  {
    [("w3cProvType", "activity"), ("uuid", uuid), ("name", name), ("value", value), ("ts", IntToString(ts))]
  }

  function RelationFields(t: RelationType, from: string, to: string, ts: int): seq<Field>
  {
    [("w3cProvType", TypeString(t)), ("from", from), ("to", to), ("ts", IntToString(ts))]
  }

  /** The JSON line of an entity record. */
  function EntityJson(uuid: string, name: string, value: string, ts: int): string
  {
    JsonObject(EntityFields(uuid, name, value, ts))
  }

  /** The JSON line of an activity record. */
  function ActivityJson(uuid: string, name: string, value: string, ts: int): string
  {
    JsonObject(ActivityFields(uuid, name, value, ts))
  }

  /** The JSON line of a relation record. */
  function RelationJson(t: RelationType, from: string, to: string, ts: int): string
  {
    JsonObject(RelationFields(t, from, to, ts))
  }

  lemma IntToStringPlain(n: int)
    ensures Plain(IntToString(n)) && ',' !in IntToString(n)
  {
  }

  /** An entity record read back gives its uuid, name, value and timestamp
      under those keys and in that order, after the type `entity`, when the
      three strings carry no quote. */
  lemma EntityJsonReadable(uuid: string, name: string, value: string, ts: int)
    requires Plain(uuid) && Plain(name) && Plain(value)
    ensures ParseJson(EntityJson(uuid, name, value, ts)) == Some(EntityFields(uuid, name, value, ts))
  {
    IntToStringPlain(ts);
    var fs := EntityFields(uuid, name, value, ts);
    assert AllPlain(fs) by {
      forall i | 0 <= i < |fs|
        ensures Plain(fs[i].0) && Plain(fs[i].1)
      {
      }
    }
    JsonRoundTrip(fs);
  }

  /** An activity record read back gives its uuid, name, value and timestamp
      after the type `activity`. */
  lemma ActivityJsonReadable(uuid: string, name: string, value: string, ts: int)
    requires Plain(uuid) && Plain(name) && Plain(value)
    ensures ParseJson(ActivityJson(uuid, name, value, ts)) == Some(ActivityFields(uuid, name, value, ts))
  {
    IntToStringPlain(ts);
    var fs := ActivityFields(uuid, name, value, ts);
    assert AllPlain(fs) by {
      forall i | 0 <= i < |fs|
        ensures Plain(fs[i].0) && Plain(fs[i].1)
      {
      }
    }
    JsonRoundTrip(fs);
  }

  /** A relation record read back gives its type name, then the uuid it
      points from, the uuid it points to, and the timestamp. */
  lemma RelationJsonReadable(t: RelationType, from: string, to: string, ts: int)
    requires Plain(from) && Plain(to)
    ensures ParseJson(RelationJson(t, from, to, ts)) == Some(RelationFields(t, from, to, ts))
  {
    IntToStringPlain(ts);
    TypeStringReadable(t);
    var fs := RelationFields(t, from, to, ts);
    assert AllPlain(fs) by {
      forall i | 0 <= i < |fs|
        ensures Plain(fs[i].0) && Plain(fs[i].1)
      {
      }
    }
    JsonRoundTrip(fs);
  }

  // ------------------------------------------------------- the objects

  /** `W3CProvEntity`: the PROV entity standing for one `ProvEntity`. */
  class W3CProvEntity {
    var uuid: string
    var entity: ProvEntity
    var name: string
    var value: string
    const ts: int

    /** The timestamp is the clock reading `now` at construction. */
    constructor(uuid: string, entity: ProvEntity, name: string, value: string, now: int)
      ensures this.uuid == uuid && this.entity == entity && this.name == name && this.value == value
      ensures ts == now
    {
      this.uuid := uuid;
      this.entity := entity;
      this.name := name;
      this.value := value;
      ts := now;
    }

    method SetUuid(u: string)
      modifies this
      ensures uuid == u && entity == old(entity) && name == old(name) && value == old(value)
    {
      uuid := u;
    }

    method SetEntity(e: ProvEntity)
      modifies this
      ensures entity == e && uuid == old(uuid) && name == old(name) && value == old(value)
    {
      entity := e;
    }

    method SetName(n: string)
      modifies this
      ensures name == n && uuid == old(uuid) && entity == old(entity) && value == old(value)
    {
      name := n;
    }

    method SetValue(v: string)
      modifies this
      ensures value == v && uuid == old(uuid) && entity == old(entity) && name == old(name)
    {
      value := v;
    }

    /** `toProvN`: `entity(uuid, [name="…", value="…", ts="…"])`, which reads
        back as the uuid and the three attributes when the uuid has no comma
        and neither name nor value a quote. */
    function ToProvN(): (r: string)
      reads this
      ensures ',' !in uuid && Plain(name) && Plain(value) ==>
                ParseProvNElement(r) == Some(("entity", uuid, EntityAttrs(name, value, ts)))
    {
      var r := ProvNElement("entity", uuid, EntityAttrs(name, value, ts));
      if ',' !in uuid && Plain(name) && Plain(value) then EntityProvNReadable(uuid, name, value, ts); r else r
    }

    /** `toJson`: `{"w3cProvType":"entity","uuid":…,"name":…,"value":…,"ts":…}`,
        which reads back as those five members in that order when no string
        has a quote. */
    function ToJson(): (r: string)
      reads this
      ensures Plain(uuid) && Plain(name) && Plain(value) ==>
                ParseJson(r) == Some(EntityFields(uuid, name, value, ts))
    {
      var r := EntityJson(uuid, name, value, ts);
      if Plain(uuid) && Plain(name) && Plain(value) then EntityJsonReadable(uuid, name, value, ts); r else r
    }
  }

  /** `W3CProvActivity`: one execution of a listener or processor. */
  class W3CProvActivity {
    var uuid: string
    var activity: ProvActivity
    var name: string
    var value: string
    const ts: int

    constructor(uuid: string, activity: ProvActivity, name: string, value: string, now: int)
      ensures this.uuid == uuid && this.activity == activity && this.name == name && this.value == value
      ensures ts == now
    {
      this.uuid := uuid;
      this.activity := activity;
      this.name := name;
      this.value := value;
      ts := now;
    }

    method SetUuid(u: string)
      modifies this
      ensures uuid == u && activity == old(activity) && name == old(name) && value == old(value)
    {
      uuid := u;
    }

    method SetActivity(a: ProvActivity)
      modifies this
      ensures activity == a && uuid == old(uuid) && name == old(name) && value == old(value)
    {
      activity := a;
    }

    method SetName(n: string)
      modifies this
      ensures name == n && uuid == old(uuid) && activity == old(activity) && value == old(value)
    {
      name := n;
    }

    method SetValue(v: string)
      modifies this
      ensures value == v && uuid == old(uuid) && activity == old(activity) && name == old(name)
    {
      value := v;
    }

    /** `toProvN`: `activity(uuid, [name="…", ts="…"])`; unlike an entity's,
        it carries no value attribute. */
    function ToProvN(): (r: string)
      reads this
      ensures ',' !in uuid && Plain(name) ==>
                ParseProvNElement(r) == Some(("activity", uuid, ActivityAttrs(name, ts)))
    {
      var r := ProvNElement("activity", uuid, ActivityAttrs(name, ts));
      if ',' !in uuid && Plain(name) then ActivityProvNReadable(uuid, name, ts); r else r
    }

    /** `toJson`: `{"w3cProvType":"activity","uuid":…,"name":…,"value":…,"ts":…}`;
        the JSON form does carry the value. */
    function ToJson(): (r: string)
      reads this
      ensures Plain(uuid) && Plain(name) && Plain(value) ==>
                ParseJson(r) == Some(ActivityFields(uuid, name, value, ts))
    {
      var r := ActivityJson(uuid, name, value, ts);
      if Plain(uuid) && Plain(name) && Plain(value) then ActivityJsonReadable(uuid, name, value, ts); r else r
    }
  }

  /** Either end of a relation. */
  datatype ProvObject = EntityObject(entity: W3CProvEntity) | ActivityObject(activity: W3CProvActivity)

  function ObjectRef(o: ProvObject): object
  {
    match o
    case EntityObject(e) => e
    case ActivityObject(a) => a
  }

  /** The uuid an end has now: relations refer to their ends, not to copies. */
  function UuidOf(o: ProvObject): string
    reads ObjectRef(o)
  {
    match o
    case EntityObject(e) => e.uuid
    case ActivityObject(a) => a.uuid
  }

  /** `W3CProvRelation`: a typed relation between two PROV objects; its
      fields are set by the constructor and never changed. */
  class W3CProvRelation {
    const from: ProvObject
    const to: ProvObject
    const kind: RelationType
    const ts: int

    constructor(from: ProvObject, to: ProvObject, kind: RelationType, now: int)
      ensures this.from == from && this.to == to && this.kind == kind && ts == now
    {
      this.from := from;
      this.to := to;
      this.kind := kind;
      ts := now;
    }

    /** `toProvN`: `type(from, to)`, read back as the type name and the two
        ends' current uuids, the end it points from first. */
    function ToProvN(): (r: string)
      reads ObjectRef(from), ObjectRef(to)
      ensures ',' !in UuidOf(from) ==>
                ParseProvNRelation(r) == Some((TypeString(kind), UuidOf(from), UuidOf(to)))
    {
      var r := ProvNRelation(TypeString(kind), UuidOf(from), UuidOf(to));
      if ',' !in UuidOf(from) then RelationProvNReadable(kind, UuidOf(from), UuidOf(to)); r else r
    }

    /** `toJson`: `{"w3cProvType":type,"from":…,"to":…,"ts":…}`, read back as
        those four members in that order. */
    function ToJson(): (r: string)
      reads ObjectRef(from), ObjectRef(to)
      ensures Plain(UuidOf(from)) && Plain(UuidOf(to)) ==>
                ParseJson(r) == Some(RelationFields(kind, UuidOf(from), UuidOf(to), ts))
    {
      var r := RelationJson(kind, UuidOf(from), UuidOf(to), ts);
      if Plain(UuidOf(from)) && Plain(UuidOf(to)) then RelationJsonReadable(kind, UuidOf(from), UuidOf(to), ts); r else r
    }
  }

  /** A relation's PROV-N form reads back as its type name and its two ends
      in order, as long as the first end's uuid has no comma. */
  lemma RelationProvNReadable(t: RelationType, from: string, to: string)
    requires ',' !in from
    ensures ParseProvNRelation(ProvNRelation(TypeString(t), from, to)) == Some((TypeString(t), from, to))
  {
    TypeStringReadable(t);
    ProvNRelationRoundTrip(TypeString(t), from, to);
  }

  /** An entity's PROV-N form reads back as its uuid and its name, value and
      timestamp attributes. */
  lemma EntityProvNReadable(uuid: string, name: string, value: string, ts: int)
    requires ',' !in uuid && Plain(name) && Plain(value)
    ensures ParseProvNElement(ProvNElement("entity", uuid, EntityAttrs(name, value, ts))) ==
            Some(("entity", uuid, EntityAttrs(name, value, ts)))
  {
    IntToStringPlain(ts);
    ProvNElementRoundTrip("entity", uuid, EntityAttrs(name, value, ts));
  }

  /** An activity's PROV-N form reads back as its uuid and just its name and
      timestamp attributes. */
  lemma ActivityProvNReadable(uuid: string, name: string, ts: int)
    requires ',' !in uuid && Plain(name)
    ensures ParseProvNElement(ProvNElement("activity", uuid, ActivityAttrs(name, ts))) ==
            Some(("activity", uuid, ActivityAttrs(name, ts)))
  {
    IntToStringPlain(ts);
    ProvNElementRoundTrip("activity", uuid, ActivityAttrs(name, ts));
  }
}
