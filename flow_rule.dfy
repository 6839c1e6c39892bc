/** The controller's default flow rule: its 64-bit flow id layout, its
    builder with the validation `build` performs, and the equality it
    defines. Hashes (Guava's murmur3 and `Objects.hash`) are opaque and
    enter as parameters. */

module FlowRules {
  import opened Wrappers

  newtype int32 = x: int | -0x8000_0000 <= x < 0x8000_0000

  /** `FlowRule.MIN_PRIORITY` and `FlowRule.MAX_PRIORITY`. */
  const MIN_PRIORITY: int32 := 0
  const MAX_PRIORITY: int32 := 65535

  /** `computeFlowId`: `(long) appId << 48 | hash & 0xffffffffL`. The app
      id (a Java `short`) and the hash (an `int`) are carried as their
      two's-complement bits; the sign extension of the casts is cut away by
      the shift and the mask. */
  function ComputeFlowId(appId: bv16, hash: bv32): bv64
  {
    (appId as bv64 << 48) | (hash as bv64)
  }

  /** The deprecated constructors' id: `(long) appId << 48 | (long) groupId << 32
      | hash & 0xffffffffL`, the group id being the bits of a Java `int`. */
  function DeprecatedFlowId(appId: bv16, groupId: bv32, hash: bv32): bv64
  {
    (appId as bv64 << 48) | (groupId as bv64 << 32) | (hash as bv64)
  }

  /** `(short) (flowId >>> 48)`, the app id a flow rule reads back from its id. */
  function AppIdOf(id: bv64): bv16
  {
    (id >> 48) as bv16
  }

  /** A computed flow id carries the app id in bits 48-63, zeros in bits
      32-47 and the hash in bits 0-31, so it gives back the app id. */
  lemma ComputeFlowIdLayout(appId: bv16, hash: bv32)
    ensures AppIdOf(ComputeFlowId(appId, hash)) == appId
    ensures (ComputeFlowId(appId, hash) >> 32) & 0xFFFF == 0
    ensures (ComputeFlowId(appId, hash) & 0xFFFF_FFFF) as bv32 == hash
  {
  }

  /** With a group id in 0..0xFFFF every field of a deprecated id is
      recoverable from its bit range. */
  lemma DeprecatedFlowIdLayout(appId: bv16, groupId: bv32, hash: bv32)
    requires groupId <= 0xFFFF
    ensures AppIdOf(DeprecatedFlowId(appId, groupId, hash)) == appId
    ensures ((DeprecatedFlowId(appId, groupId, hash) >> 32) & 0xFFFF) as bv32 == groupId
    ensures (DeprecatedFlowId(appId, groupId, hash) & 0xFFFF_FFFF) as bv32 == hash
  {
  }

  /** A group id past 16 bits spills into the app id: group 0x10000 of app 0
      reads back as app 1. */
  lemma DeprecatedFlowIdOverlap()
    ensures AppIdOf(DeprecatedFlowId(0, 0x1_0000, 0)) == 1
  {
  }

  /** A table id: an index into the pipeline's tables, or a named table. */
  datatype TableId = IndexTable(index: int32) | NamedTable(name: string)

  const DEFAULT_TABLE: TableId := IndexTable(0)

  /** `FlowRemoveReason`: NO_REASON, or one of the other reasons by name. */
  datatype FlowRemoveReason = NoReason | Removed(name: string)

  /** A traffic selector (its criteria) and a treatment (its instructions). */
  datatype Selector = Selector(criteria: seq<string>)
  datatype Treatment = Treatment(instructions: seq<string>)

  /** `DefaultFlowRule`: immutable fields plus the provenance uuid slot. */
  class DefaultFlowRule {
    const deviceId: string
    const priority: int32
    const selector: Selector
    const treatment: Treatment
    const id: bv64
    const appId: bv16
    const groupId: bv32
    const timeout: int32
    const permanent: bool
    const hardTimeout: int32
    const reason: FlowRemoveReason
    const tableId: TableId
    const payLoad: Option<string>
    var entityUuid: Option<string>

    /** The builder's constructor: the app id is read back from the flow id,
        the group id is 0 and there is no payload. */
    constructor FromBuilder(deviceId: string, selector: Selector, treatment: Treatment, priority: int32,
                            flowId: bv64, permanent: bool, timeout: int32, hardTimeout: int32,
                            reason: FlowRemoveReason, tableId: TableId)
      ensures this.deviceId == deviceId && this.selector == selector && this.treatment == treatment
      ensures this.priority == priority && this.id == flowId && this.appId == AppIdOf(flowId)
      ensures this.permanent == permanent && this.timeout == timeout && this.hardTimeout == hardTimeout
      ensures this.reason == reason && this.tableId == tableId
      ensures this.groupId == 0 && this.payLoad == None && entityUuid == None
    {
      this.deviceId := deviceId;
      this.selector := selector;
      this.treatment := treatment;
      this.priority := priority;
      this.appId := AppIdOf(flowId);
      this.id := flowId;
      this.permanent := permanent;
      this.timeout := timeout;
      this.hardTimeout := hardTimeout;
      this.reason := reason;
      this.tableId := tableId;
      this.groupId := 0;
      this.payLoad := None;
      entityUuid := None;
    }

    /** The copy constructor: every field of `rule` but the uuid slot. */
    constructor Copy(rule: DefaultFlowRule)
      ensures Equals(rule) && ExactMatch(rule)
      ensures appId == rule.appId && groupId == rule.groupId && timeout == rule.timeout
      ensures permanent == rule.permanent && hardTimeout == rule.hardTimeout && reason == rule.reason
      ensures entityUuid == None
    {
      deviceId := rule.deviceId;
      priority := rule.priority;
      selector := rule.selector;
      treatment := rule.treatment;
      appId := rule.appId;
      groupId := rule.groupId;
      id := rule.id;
      timeout := rule.timeout;
      hardTimeout := rule.hardTimeout;
      reason := rule.reason;
      permanent := rule.permanent;
      tableId := rule.tableId;
      payLoad := rule.payLoad;
      entityUuid := None;
    }

    /** The deprecated constructors' field assignment; the priority check
        is in `NewDeprecated`. */
    constructor Deprecated(deviceId: string, selector: Selector, treatment: Treatment, priority: int32,
                           appId: bv16, groupId: bv32, timeout: int32, hardTimeout: int32,
                           permanent: bool, payLoad: Option<string>, hash: bv32)
      ensures this.deviceId == deviceId && this.selector == selector && this.treatment == treatment
      ensures this.priority == priority && this.appId == appId && this.groupId == groupId
      ensures this.timeout == timeout && this.hardTimeout == hardTimeout && this.permanent == permanent
      ensures this.reason == NoReason && this.tableId == DEFAULT_TABLE && this.payLoad == payLoad
      ensures this.id == DeprecatedFlowId(appId, groupId, hash) && entityUuid == None
    {
      this.deviceId := deviceId;
      this.priority := priority;
      this.selector := selector;
      this.treatment := treatment;
      this.appId := appId;
      this.groupId := groupId;
      this.timeout := timeout;
      this.reason := NoReason;
      this.hardTimeout := hardTimeout;
      this.permanent := permanent;
      this.tableId := DEFAULT_TABLE;
      this.payLoad := payLoad;
      this.id := DeprecatedFlowId(appId, groupId, hash);
      entityUuid := None;
    }

    /** `equals`: device, priority, selector, table and payload only; the
        id, the treatment and the timeouts do not take part. */
    predicate Equals(that: DefaultFlowRule)
    {
      this == that ||
      (deviceId == that.deviceId && priority == that.priority && selector == that.selector &&
       tableId == that.tableId && payLoad == that.payLoad)
    }

    /** `exactMatch`: `equals` plus the same id and treatment. */
    predicate ExactMatch(that: DefaultFlowRule)
    {
      Equals(that) && id == that.id && treatment == that.treatment
    }

    /** The fields `hashCode` and `hash` feed to `Objects.hash`. */
    function HashKey(): (string, Selector, TableId, Option<string>)
    {
      (deviceId, selector, tableId, payLoad)
    }

    /** `hashCode` under a given `Objects.hash`. */
    function HashCode(objectsHash: ((string, Selector, TableId, Option<string>)) -> int32): int32
    {
      objectsHash(HashKey())
    }

    method SetEntityUuid(u: string)
      modifies this
      ensures entityUuid == Some(u)
    {
      entityUuid := Some(u);
    }
  }

  /** `equals` is an equivalence relation. */
  lemma EqualsEquivalence(a: DefaultFlowRule, b: DefaultFlowRule, c: DefaultFlowRule)
    ensures a.Equals(a)
    ensures a.Equals(b) ==> b.Equals(a)
    ensures a.Equals(b) && b.Equals(c) ==> a.Equals(c)
  {
  }

  /** Equal rules have equal hash codes, whatever `Objects.hash` is, and an
      exact match is an equal rule. */
  lemma EqualsHashConsistent(a: DefaultFlowRule, b: DefaultFlowRule,
                             objectsHash: ((string, Selector, TableId, Option<string>)) -> int32)
    ensures a.Equals(b) ==> a.HashCode(objectsHash) == b.HashCode(objectsHash)
    ensures a.ExactMatch(b) ==> a.Equals(b) && a.id == b.id
  {
  }

  /** Two rules that differ only in id are equal without matching exactly. */
  lemma EqualsIgnoresId(a: DefaultFlowRule, b: DefaultFlowRule)
    requires a.deviceId == b.deviceId && a.priority == b.priority && a.selector == b.selector
    requires a.tableId == b.tableId && a.payLoad == b.payLoad && a.id != b.id
    ensures a.Equals(b) && !a.ExactMatch(b)
  {
  }

  datatype BuildError =
    | TableIdNull | NeitherOrBothCookieAndApp | SelectorNull | NoTimeout
    | DeviceNull | PriorityNull | PriorityTooLow | PriorityTooHigh

  /** The builder's fields; `None` is Java's null. */
  datatype BuilderState = BuilderState(
    flowId: Option<bv64>, appId: Option<bv16>, priority: Option<int32>, deviceId: Option<string>,
    tableId: Option<TableId>, selector: Option<Selector>, treatment: Treatment,
    timeout: Option<int32>, permanent: Option<bool>, hardTimeout: int32, reason: FlowRemoveReason)

  /** The first check of `build` that fails, in the order `build` makes them. */
  function BuildCheck(st: BuilderState): (r: Option<BuildError>)
    ensures r.None? <==>
              st.tableId.Some? && (st.flowId.Some? != st.appId.Some?) && st.selector.Some? &&
              (st.timeout.Some? || st.permanent.Some?) && st.deviceId.Some? && st.priority.Some? &&
              MIN_PRIORITY <= st.priority.value <= MAX_PRIORITY
  {
    if st.tableId.None? then Some(TableIdNull)
    else if st.flowId.Some? == st.appId.Some? then Some(NeitherOrBothCookieAndApp)
    else if st.selector.None? then Some(SelectorNull)
    else if st.timeout.None? && st.permanent.None? then Some(NoTimeout)
    else if st.deviceId.None? then Some(DeviceNull)
    else if st.priority.None? then Some(PriorityNull)
    else if st.priority.value < MIN_PRIORITY then Some(PriorityTooLow)
    else if st.priority.value > MAX_PRIORITY then Some(PriorityTooHigh)
    else None
  }

  /** Each error is reported only when every earlier check passed and its
      own check failed. */
  lemma BuildCheckOrder(st: BuilderState)
    ensures BuildCheck(st) == Some(TableIdNull) ==> st.tableId.None?
    ensures BuildCheck(st) == Some(NeitherOrBothCookieAndApp) ==>
              st.tableId.Some? && st.flowId.Some? == st.appId.Some?
    ensures BuildCheck(st) == Some(SelectorNull) ==>
              st.tableId.Some? && st.flowId.Some? != st.appId.Some? && st.selector.None?
    ensures BuildCheck(st) == Some(NoTimeout) ==>
              st.tableId.Some? && st.flowId.Some? != st.appId.Some? && st.selector.Some? &&
              st.timeout.None? && st.permanent.None?
    ensures BuildCheck(st) == Some(DeviceNull) ==>
              st.tableId.Some? && st.flowId.Some? != st.appId.Some? && st.selector.Some? &&
              (st.timeout.Some? || st.permanent.Some?) && st.deviceId.None?
    ensures BuildCheck(st) == Some(PriorityNull) ==>
              st.tableId.Some? && st.flowId.Some? != st.appId.Some? && st.selector.Some? &&
              (st.timeout.Some? || st.permanent.Some?) && st.deviceId.Some? && st.priority.None?
    ensures BuildCheck(st) == Some(PriorityTooLow) ==>
              st.tableId.Some? && st.flowId.Some? != st.appId.Some? && st.selector.Some? &&
              (st.timeout.Some? || st.permanent.Some?) && st.deviceId.Some? && st.priority.Some? &&
              st.priority.value < MIN_PRIORITY
    ensures BuildCheck(st) == Some(PriorityTooHigh) ==>
              st.tableId.Some? && st.flowId.Some? != st.appId.Some? && st.selector.Some? &&
              (st.timeout.Some? || st.permanent.Some?) && st.deviceId.Some? && st.priority.Some? &&
              MIN_PRIORITY <= st.priority.value && st.priority.value > MAX_PRIORITY
  {
  }

  /** The flow id `build` gives: computed from the app id when there is
      one, otherwise the cookie. */
  function BuiltFlowId(st: BuilderState, hash: bv32): bv64
    requires st.flowId.Some? || st.appId.Some?
  {
    if st.appId.Some? then ComputeFlowId(st.appId.value, hash) else st.flowId.value
  }

  /** A rule built from an app id reads that app id back; one built from a
      cookie reads the cookie's top 16 bits. */
  lemma BuiltAppId(st: BuilderState, hash: bv32)
    requires BuildCheck(st).None?
    ensures st.appId.Some? ==> AppIdOf(BuiltFlowId(st, hash)) == st.appId.value
    ensures st.flowId.Some? ==> BuiltFlowId(st, hash) == st.flowId.value
  {
    if st.appId.Some? {
      ComputeFlowIdLayout(st.appId.value, hash);
    }
  }

  /** `DefaultFlowRule.Builder`. */
  class FlowRuleBuilder {
    var flowId: Option<bv64>
    var appId: Option<bv16>
    var priority: Option<int32>
    var deviceId: Option<string>
    var tableId: Option<TableId>
    var selector: Option<Selector>
    var treatment: Treatment
    var timeout: Option<int32>
    var permanent: Option<bool>
    var hardTimeout: int32
    var reason: FlowRemoveReason

    function State(): BuilderState
      reads this
    {
      BuilderState(flowId, appId, priority, deviceId, tableId, selector, treatment,
                   timeout, permanent, hardTimeout, reason)
    }

    /** The setters always set `timeout` and `permanent` together. */
    ghost predicate Valid()
      reads this
    {
      timeout.Some? == permanent.Some?
    }

    /** `builder()`: the default table, empty selector and treatment, hard
        timeout 0, no removal reason, everything else null. */
    constructor()
      ensures Valid()
      ensures State() == BuilderState(None, None, None, None, Some(DEFAULT_TABLE), Some(Selector([])),
                                      Treatment([]), None, None, 0, NoReason)
    {
      flowId, appId, priority, deviceId := None, None, None, None;
      tableId := Some(DEFAULT_TABLE);
      selector := Some(Selector([]));
      treatment := Treatment([]);
      timeout, permanent := None, None;
      hardTimeout := 0;
      reason := NoReason;
    }

    method WithCookie(cookie: bv64)
      modifies this
      ensures State() == old(State()).(flowId := Some(cookie))
    {
      flowId := Some(cookie);
    }

    method FromApp(app: Option<bv16>)
      modifies this
      ensures State() == old(State()).(appId := app)
    {
      appId := app;
    }

    method WithPriority(p: int32)
      modifies this
      ensures State() == old(State()).(priority := Some(p))
    {
      priority := Some(p);
    }

    method ForDevice(d: Option<string>)
      modifies this
      ensures State() == old(State()).(deviceId := d)
    {
      deviceId := d;
    }

    /** `forTable(int)` and `forTable(TableId)`. */
    method ForTable(t: Option<TableId>)
      modifies this
      ensures State() == old(State()).(tableId := t)
    {
      tableId := t;
    }

    method WithSelector(s: Option<Selector>)
      modifies this
      ensures State() == old(State()).(selector := s)
    {
      selector := s;
    }

    /** `withTreatment`: a null treatment throws and changes nothing. */
    method WithTreatment(t: Option<Treatment>) returns (ok: bool)
      modifies this
      ensures ok <==> t.Some?
      ensures ok ==> State() == old(State()).(treatment := t.value)
      ensures !ok ==> State() == old(State())
    {
      if t.None? {
        return false;
      }
      treatment := t.value;
      ok := true;
    }

    method MakePermanent()
      requires Valid()
      modifies this
      ensures Valid()
      ensures State() == old(State()).(timeout := Some(0), permanent := Some(true))
    {
      timeout := Some(0);
      permanent := Some(true);
    }

    method MakeTemporary(t: int32)
      requires Valid()
      modifies this
      ensures Valid()
      ensures State() == old(State()).(permanent := Some(false), timeout := Some(t))
    {
      permanent := Some(false);
      timeout := Some(t);
    }

    method WithHardTimeout(t: int32)
      requires Valid()
      modifies this
      ensures Valid()
      ensures State() == old(State()).(permanent := Some(false), hardTimeout := t, timeout := Some(t))
    {
      permanent := Some(false);
      hardTimeout := t;
      timeout := Some(t);
    }

    method WithReason(r: FlowRemoveReason)
      modifies this
      ensures State() == old(State()).(reason := r)
    {
      reason := r;
    }

    /** `build`: the first failing check is the error; otherwise a rule with
        the builder's fields and the id `BuiltFlowId`. `hash` is the
        builder's murmur3 hash of device, selector, priority and table. */
    method Build(hash: bv32) returns (r: Result<DefaultFlowRule, BuildError>)
      requires Valid()
      ensures r.Err? <==> BuildCheck(State()).Some?
      ensures r.Err? ==> r.error == BuildCheck(State()).value
      ensures r.Ok? ==>
                fresh(r.value) && var rule := r.value;
                rule.deviceId == deviceId.value && rule.selector == selector.value &&
                rule.treatment == treatment && rule.priority == priority.value &&
                rule.id == BuiltFlowId(State(), hash) && rule.appId == AppIdOf(rule.id) &&
                rule.permanent == permanent.value && rule.timeout == timeout.value &&
                rule.hardTimeout == hardTimeout && rule.reason == reason && rule.tableId == tableId.value &&
                rule.groupId == 0 && rule.payLoad == None
    {
      var check := BuildCheck(State());
      if check.Some? {
        return Err(check.value);
      }
      var localFlowId: bv64;
      if appId.Some? {
        localFlowId := ComputeFlowId(appId.value, hash);
      } else {
        localFlowId := flowId.value;
      }
      var rule := new DefaultFlowRule.FromBuilder(deviceId.value, selector.value, treatment, priority.value,
                                                  localFlowId, permanent.value, timeout.value, hardTimeout,
                                                  reason, tableId.value);
      r := Ok(rule);
    }
  }

  /** The deprecated constructors: a priority outside the bounds throws.
      The shorter overloads pass a hard timeout of 0 and group 0. */
  method NewDeprecated(deviceId: string, selector: Selector, treatment: Treatment, priority: int32,
                       appId: bv16, groupId: bv32, timeout: int32, hardTimeout: int32,
                       permanent: bool, payLoad: Option<string>, hash: bv32)
    returns (r: Result<DefaultFlowRule, BuildError>)
    ensures priority < MIN_PRIORITY ==> r == Err(PriorityTooLow)
    ensures priority > MAX_PRIORITY ==> r == Err(PriorityTooHigh)
    ensures MIN_PRIORITY <= priority <= MAX_PRIORITY ==>
              r.Ok? && fresh(r.value) && r.value.appId == appId && r.value.groupId == groupId &&
              r.value.id == DeprecatedFlowId(appId, groupId, hash) && r.value.priority == priority &&
              r.value.tableId == DEFAULT_TABLE && r.value.reason == NoReason && r.value.payLoad == payLoad &&
              r.value.deviceId == deviceId && r.value.selector == selector && r.value.treatment == treatment &&
              r.value.timeout == timeout && r.value.hardTimeout == hardTimeout &&
              r.value.permanent == permanent && r.value.entityUuid == None
  {
    if priority < MIN_PRIORITY {
      return Err(PriorityTooLow);
    }
    if priority > MAX_PRIORITY {
      return Err(PriorityTooHigh);
    }
    var rule := new DefaultFlowRule.Deprecated(deviceId, selector, treatment, priority, appId, groupId,
                                               timeout, hardTimeout, permanent, payLoad, hash);
    r := Ok(rule);
  }
}
