/** The fabric pipeline's treatment interpreter: it maps a flow rule's
    traffic treatment to the P4 action of the filtering, forwarding, next or
    egress-next control block, or rejects it. */

module FabricTreatment {
  import opened Wrappers

  /** A port number (a Java `long`); `CONTROLLER` is the logical port 0xFFFFFFFD. */
  datatype PortNumber = PortNumber(value: int)

  const CONTROLLER: PortNumber := PortNumber(0xFFFF_FFFD)

  /** `(short) port.toLong()`: the low 16 bits of the port number. */
  function PortBits(p: PortNumber): bv16
  {
    (p.value % 0x1_0000) as bv16
  }

  /** The L2 modifications the interpreter tells apart; VLAN ids are the
      bits of `VlanId.toShort()`, MAC addresses their six bytes, MPLS labels
      the `int` of `MplsLabel.toInt()`. */
  datatype L2Instruction =
    | PushVlan | SetVlanId(vlan: bv16) | PopVlan
    | SetEthSrc(mac: seq<bv8>) | SetEthDst(mac: seq<bv8>)
    | SetMplsLabel(mplsLabel: int) | PushMpls | OtherL2(subtype: string)

  datatype L3Instruction = TtlOut | OtherL3(subtype: string)

  datatype Instruction =
    | NoAction
    | L2Modification(l2: L2Instruction)
    | L3Modification(l3: L3Instruction)
    | Output(port: PortNumber)
    | OtherInstruction(kind: string)

  /** A traffic treatment: its instructions (`allInstructions`) and whether
      it clears the deferred instructions. */
  datatype Treatment = Treatment(instructions: seq<Instruction>, clearedDeferred: bool)

  /** `DefaultTrafficTreatment.emptyTreatment()`. */
  const EMPTY_TREATMENT: Treatment := Treatment([], false)

  /** The fabric tables the interpreter distinguishes. */
  datatype PiTableId = ForwardingAcl | NextVlanMeta | NextSimple | NextHashed | OtherTable(name: string)

  /** The actions of `FabricConstants` the interpreter can return. */
  datatype PiActionId =
    | Nop
    | FilteringNopIngressPortVlan | FilteringPushInternalVlan | FilteringSetVlan
    | ForwardingNopAcl | ForwardingPuntToCpu | ForwardingCloneToCpu
    | NextSetVlan | NextSetVlanOutput | NextOutputSimple
    | NextMplsRoutingV4Simple | NextMplsRoutingV4Hashed
    | NextL3RoutingVlan | NextL3RoutingSimple | NextL3RoutingHashed
    | EgressNextPopVlan

  datatype PiActionParam =
    | NewVlanId(vlan: bv16) | PortNum(port: bv16) | Smac(mac: seq<bv8>) | Dmac(mac: seq<bv8>) | Label(value: bv32)

  datatype PiAction = PiAction(id: PiActionId, params: seq<PiActionParam>)

  /** A `PiInterpreterException` for one block ("filtering", "forwarding", "next"). */
  datatype InterpreterError = InvalidTreatment(block: string)

  const NOP: PiAction := PiAction(Nop, [])
  const NOP_INGRESS_PORT_VLAN: PiAction := PiAction(FilteringNopIngressPortVlan, [])
  const NOP_ACL: PiAction := PiAction(ForwardingNopAcl, [])
  const POP_VLAN: PiAction := PiAction(EgressNextPopVlan, [])

  // The instruction kinds the scans pick out.

  function VlanPushOf(i: Instruction): Option<()>
  {
    if i.L2Modification? && i.l2.PushVlan? then Some(()) else None
  }

  function VlanIdOf(i: Instruction): Option<bv16>
  {
    if i.L2Modification? && i.l2.SetVlanId? then Some(i.l2.vlan) else None
  }

  function EthSrcOf(i: Instruction): Option<seq<bv8>>
  {
    if i.L2Modification? && i.l2.SetEthSrc? then Some(i.l2.mac) else None
  }

  function EthDstOf(i: Instruction): Option<seq<bv8>>
  {
    if i.L2Modification? && i.l2.SetEthDst? then Some(i.l2.mac) else None
  }

  function MplsLabelOf(i: Instruction): Option<int>
  {
    if i.L2Modification? && i.l2.SetMplsLabel? then Some(i.l2.mplsLabel) else None
  }

  function OutputOf(i: Instruction): Option<PortNumber>
  {
    if i.Output? then Some(i.port) else None
  }

  /** What a scan that overwrites a local on every match ends with: the
      pick of the last matching instruction. */
  function Last<T>(insts: seq<Instruction>, pick: Instruction -> Option<T>): Option<T>
  {
    if insts == [] then None
    else if pick(insts[|insts| - 1]).Some? then pick(insts[|insts| - 1])
    else Last(insts[..|insts| - 1], pick)
  }

  /** `Last` is empty exactly when nothing matches, and otherwise is the
      pick of a matching instruction with no match after it. */
  lemma {:induction false} LastSpec<T>(insts: seq<Instruction>, pick: Instruction -> Option<T>)
    ensures Last(insts, pick).None? <==> forall i :: 0 <= i < |insts| ==> pick(insts[i]).None?
    ensures Last(insts, pick).Some? ==>
              exists i :: 0 <= i < |insts| && pick(insts[i]) == Last(insts, pick) &&
                          forall j :: i < j < |insts| ==> pick(insts[j]).None?
  {
    if insts != [] {
      var init := insts[..|insts| - 1];
      LastSpec(init, pick);
      assert forall i :: 0 <= i < |init| ==> init[i] == insts[i];
      if pick(insts[|insts| - 1]).None? {
        if Last(init, pick).Some? {
          var i :| 0 <= i < |init| && pick(init[i]) == Last(init, pick) &&
                   forall j :: i < j < |init| ==> pick(init[j]).None?;
          assert pick(insts[i]) == Last(insts, pick);
        }
      }
    }
  }

  lemma LastSnoc<T>(insts: seq<Instruction>, i: nat, pick: Instruction -> Option<T>)
    requires i < |insts|
    ensures Last(insts[..i + 1], pick) == if pick(insts[i]).Some? then pick(insts[i]) else Last(insts[..i], pick)
  {
    assert insts[..i + 1][..i] == insts[..i];
  }

  /** The reference for `mapFilteringTreatment`. */
  function FilteringAction(t: Treatment): Result<PiAction, InterpreterError>
  {
    if t.instructions == [] || NoAction in t.instructions then Ok(NOP_INGRESS_PORT_VLAN)
    else
      var vlan := Last(t.instructions, VlanIdOf);
      if vlan.None? then Err(InvalidTreatment("filtering"))
      else
        var id := if Last(t.instructions, VlanPushOf).Some? then FilteringPushInternalVlan else FilteringSetVlan;
        Ok(PiAction(id, [NewVlanId(vlan.value)]))
  }

  /** The filtering block: no-op for an empty treatment or one with NoAction;
      otherwise a treatment without a VLAN_ID is rejected, and the new VLAN
      is that of the last VLAN_ID, pushed when there is a VLAN_PUSH. */
  lemma FilteringActionSpec(t: Treatment)
    ensures t.instructions == [] || NoAction in t.instructions ==> FilteringAction(t) == Ok(NOP_INGRESS_PORT_VLAN)
    ensures t.instructions != [] && NoAction !in t.instructions ==>
              (FilteringAction(t).Err? <==>
                 forall i :: 0 <= i < |t.instructions| ==> !(t.instructions[i].L2Modification? && t.instructions[i].l2.SetVlanId?))
    ensures FilteringAction(t).Ok? && FilteringAction(t).value.id == FilteringPushInternalVlan ==>
              exists i :: 0 <= i < |t.instructions| && t.instructions[i] == L2Modification(PushVlan)
    ensures FilteringAction(t).Ok? && FilteringAction(t).value.id == FilteringSetVlan ==>
              forall i :: 0 <= i < |t.instructions| ==> t.instructions[i] != L2Modification(PushVlan)
  {
    LastSpec(t.instructions, VlanIdOf);
    LastSpec(t.instructions, VlanPushOf);
    if t.instructions != [] && NoAction !in t.instructions {
      var vlan := Last(t.instructions, VlanIdOf);
      if vlan.None? {
        assert forall i :: 0 <= i < |t.instructions| ==> VlanIdOf(t.instructions[i]).None?;
      }
      if Last(t.instructions, VlanPushOf).Some? {
        var i :| 0 <= i < |t.instructions| && VlanPushOf(t.instructions[i]) == Last(t.instructions, VlanPushOf) &&
                 forall j :: i < j < |t.instructions| ==> VlanPushOf(t.instructions[j]).None?;
        assert t.instructions[i] == L2Modification(PushVlan);
      } else {
        forall i | 0 <= i < |t.instructions|
          ensures t.instructions[i] != L2Modification(PushVlan)
        {
          assert VlanPushOf(t.instructions[i]).None?;
        }
      }
    }
  }

  /** `mapFilteringTreatment`: one scan that keeps the last VLAN_PUSH and
      the last VLAN_ID. */
  method MapFilteringTreatment(t: Treatment, table: PiTableId) returns (r: Result<PiAction, InterpreterError>)
    ensures r == FilteringAction(t)
  {
    var insts := t.instructions;
    if insts == [] || NoAction in insts {
      return Ok(NOP_INGRESS_PORT_VLAN);
    }
    var pushVlan: Option<()> := None;
    var setVlan: Option<bv16> := None;
    for i := 0 to |insts|
      invariant pushVlan == Last(insts[..i], VlanPushOf)
      invariant setVlan == Last(insts[..i], VlanIdOf)
    {
      LastSnoc(insts, i, VlanPushOf);
      LastSnoc(insts, i, VlanIdOf);
      var inst := insts[i];
      if inst.L2Modification? {
        if inst.l2.PushVlan? {
          pushVlan := Some(());
        } else if inst.l2.SetVlanId? {
          setVlan := Some(inst.l2.vlan);
        }
      }
    }
    assert insts[..|insts|] == insts;
    if setVlan.None? {
      return Err(InvalidTreatment("filtering"));
    }
    var actionId := if pushVlan.Some? then FilteringPushInternalVlan else FilteringSetVlan;
    r := Ok(PiAction(actionId, [NewVlanId(setVlan.value)]));
  }

  /** `mapForwardingTreatment`; `outputPort` is `FabricUtils.getOutputPort`. */
  function MapForwardingTreatment(t: Treatment, table: PiTableId, outputPort: Treatment -> Option<PortNumber>)
    : (r: Result<PiAction, InterpreterError>)
    ensures t == EMPTY_TREATMENT ==> r == Ok(if table == ForwardingAcl then NOP_ACL else NOP)
    ensures t != EMPTY_TREATMENT ==>
              (r.Ok? <==> outputPort(t) == Some(CONTROLLER) && |t.instructions| <= 1)
    ensures t != EMPTY_TREATMENT && r.Ok? ==>
              r.value == PiAction(if t.clearedDeferred then ForwardingPuntToCpu else ForwardingCloneToCpu, [])
    ensures r.Err? ==> r.error == InvalidTreatment("forwarding")
  {
    if t == EMPTY_TREATMENT then
      if table == ForwardingAcl then Ok(NOP_ACL) else Ok(NOP)
    else
      var outPort := outputPort(t);
      if outPort.None? || outPort.value != CONTROLLER || |t.instructions| > 1 then
        Err(InvalidTreatment("forwarding"))
      else
        Ok(PiAction(if t.clearedDeferred then ForwardingPuntToCpu else ForwardingCloneToCpu, []))
  }

  /** The instructions `mapNextTreatment`'s scan keeps: the last of each kind. */
  datatype NextScan = NextScan(output: Option<PortNumber>, ethSrc: Option<seq<bv8>>, ethDst: Option<seq<bv8>>,
                               vlanId: Option<bv16>, mpls: Option<int>)

  function ScanOf(insts: seq<Instruction>): NextScan
  {
    NextScan(Last(insts, OutputOf), Last(insts, EthSrcOf), Last(insts, EthDstOf),
             Last(insts, VlanIdOf), Last(insts, MplsLabelOf))
  }

  /** `ImmutableByteSequence.copyFrom(label).fit(20)`: the label's bits
      when the `int` fits in 20 bits. */
  function MplsValue(mplsLabel: int): Option<bv32>
  {
    if 0 <= mplsLabel < 0x10_0000 then Some(mplsLabel as bv32) else None
  }

  /** The reference for `mapNextTreatment`, given the scan's result. */
  function NextAction(s: NextScan, table: PiTableId): Result<PiAction, InterpreterError>
  {
    if table == NextVlanMeta && s.vlanId.Some? then Ok(PiAction(NextSetVlan, [NewVlanId(s.vlanId.value)]))
    else if s.output.None? then Err(InvalidTreatment("next"))
    else
      var port := PortNum(PortBits(s.output.value));
      if s.ethDst.None? && s.ethSrc.None? then
        if s.vlanId.Some? then Ok(PiAction(NextSetVlanOutput, [port, NewVlanId(s.vlanId.value)]))
        else Ok(PiAction(NextOutputSimple, [port]))
      else if s.ethDst.Some? && s.ethSrc.Some? then
        var smac, dmac := Smac(s.ethSrc.value), Dmac(s.ethDst.value);
        if s.mpls.Some? then
          var bits := MplsValue(s.mpls.value);
          if bits.None? then Err(InvalidTreatment("next"))
          else if table == NextSimple then Ok(PiAction(NextMplsRoutingV4Simple, [port, smac, dmac, Label(bits.value)]))
          else if table == NextHashed then Ok(PiAction(NextMplsRoutingV4Hashed, [port, smac, dmac, Label(bits.value)]))
          else Err(InvalidTreatment("next"))
        else if s.vlanId.Some? then Ok(PiAction(NextL3RoutingVlan, [smac, dmac, port, NewVlanId(s.vlanId.value)]))
        else if table == NextSimple then Ok(PiAction(NextL3RoutingSimple, [port, smac, dmac]))
        else if table == NextHashed then Ok(PiAction(NextL3RoutingHashed, [port, smac, dmac]))
        else Err(InvalidTreatment("next"))
      else Err(InvalidTreatment("next"))
  }

  /** The next block's cases: SET_VLAN on the VLAN-meta table whatever the
      output; otherwise an output is required; neither MAC rewrite gives a
      plain output (with a VLAN when there is one); exactly one MAC rewrite
      is rejected; both give MPLS or L3 routing, chosen by table unless a
      VLAN is set; the port parameter is the output's low 16 bits. */
  lemma NextActionCases(s: NextScan, table: PiTableId)
    ensures table == NextVlanMeta && s.vlanId.Some? ==> NextAction(s, table) == Ok(PiAction(NextSetVlan, [NewVlanId(s.vlanId.value)]))
    ensures !(table == NextVlanMeta && s.vlanId.Some?) && s.output.None? ==> NextAction(s, table).Err?
    ensures !(table == NextVlanMeta && s.vlanId.Some?) && s.output.Some? && (s.ethSrc.Some? != s.ethDst.Some?) ==>
              NextAction(s, table).Err?
    ensures !(table == NextVlanMeta && s.vlanId.Some?) && s.output.Some? && s.ethSrc.None? && s.ethDst.None? ==>
              NextAction(s, table) ==
                Ok(if s.vlanId.Some? then PiAction(NextSetVlanOutput, [PortNum(PortBits(s.output.value)), NewVlanId(s.vlanId.value)])
                   else PiAction(NextOutputSimple, [PortNum(PortBits(s.output.value))]))
    ensures s.ethSrc.Some? && s.ethDst.Some? && s.mpls.None? && s.vlanId.None? && NextAction(s, table).Ok? ==>
              table in {NextSimple, NextHashed}
    ensures NextAction(s, table).Ok? && NextAction(s, table).value.id in {NextMplsRoutingV4Simple, NextMplsRoutingV4Hashed} ==>
              s.mpls.Some? && 0 <= s.mpls.value < 0x10_0000 && table in {NextSimple, NextHashed}
  {
  }

  /** The scan of the whole list reflects each kind's last instruction. */
  lemma ScanOfSpec(insts: seq<Instruction>)
    ensures ScanOf(insts).output.None? <==> forall i :: 0 <= i < |insts| ==> !insts[i].Output?
    ensures ScanOf(insts).vlanId.None? <==> forall i :: 0 <= i < |insts| ==> VlanIdOf(insts[i]).None?
    ensures ScanOf(insts).output.Some? ==>
              exists i :: 0 <= i < |insts| && insts[i] == Output(ScanOf(insts).output.value) &&
                          forall j :: i < j < |insts| ==> !insts[j].Output?
  {
    LastSpec(insts, OutputOf);
    LastSpec(insts, VlanIdOf);
    if ScanOf(insts).output.None? {
      assert forall i :: 0 <= i < |insts| ==> OutputOf(insts[i]).None?;
    }
    if ScanOf(insts).output.Some? {
      var i :| 0 <= i < |insts| && OutputOf(insts[i]) == Last(insts, OutputOf) &&
               forall j :: i < j < |insts| ==> OutputOf(insts[j]).None?;
      assert insts[i] == Output(ScanOf(insts).output.value);
    }
  }

  /** `mapNextTreatment`: one scan keeping the last OUTPUT, ETH_SRC, ETH_DST,
      VLAN_ID and MPLS_LABEL; VLAN_POP, MPLS_PUSH, TTL_OUT and the rest are
      passed over. */
  method MapNextTreatment(t: Treatment, table: PiTableId) returns (r: Result<PiAction, InterpreterError>)
    ensures r == NextAction(ScanOf(t.instructions), table)
  {
    var insts := t.instructions;
    var s := NextScan(None, None, None, None, None);
    for i := 0 to |insts|
      invariant s == ScanOf(insts[..i])
    {
      LastSnoc(insts, i, OutputOf);
      LastSnoc(insts, i, EthSrcOf);
      LastSnoc(insts, i, EthDstOf);
      LastSnoc(insts, i, VlanIdOf);
      LastSnoc(insts, i, MplsLabelOf);
      var inst := insts[i];
      match inst
      case L2Modification(l2) =>
        match l2 {
          case SetEthSrc(mac) => s := s.(ethSrc := Some(mac));
          case SetEthDst(mac) => s := s.(ethDst := Some(mac));
          case SetVlanId(vlan) => s := s.(vlanId := Some(vlan));
          case SetMplsLabel(v) => s := s.(mpls := Some(v));
          case _ =>
        }
      case Output(port) => s := s.(output := Some(port));
      case _ =>
    }
    assert insts[..|insts|] == insts;
    r := NextAction(s, table);
  }

  /** The index of the first VLAN_POP, the stream's `findFirst`. */
  function FirstPopVlan(insts: seq<Instruction>): (r: Option<nat>)
    ensures r.None? <==> forall i :: 0 <= i < |insts| ==> insts[i] != L2Modification(PopVlan)
    ensures r.Some? ==> r.value < |insts| && insts[r.value] == L2Modification(PopVlan) &&
                        forall j :: 0 <= j < r.value ==> insts[j] != L2Modification(PopVlan)
  {
    if insts == [] then None
    else if insts[0] == L2Modification(PopVlan) then Some(0)
    else
      var rest := FirstPopVlan(insts[1..]);
      if rest.Some? then Some(rest.value + 1) else None
  }

  /** `mapEgressNextTreatment`: POP_VLAN exactly when some instruction pops a VLAN. */
  function MapEgressNextTreatment(t: Treatment, table: PiTableId): (r: PiAction)
    ensures r == POP_VLAN <==> exists i :: 0 <= i < |t.instructions| && t.instructions[i] == L2Modification(PopVlan)
    ensures r != POP_VLAN ==> r == NOP
  {
    if FirstPopVlan(t.instructions).Some? then POP_VLAN else NOP
  }
}
