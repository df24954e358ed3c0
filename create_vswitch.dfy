/**
 * The vSwitch-creation script: classification of the MTU, port-count and
 * VLAN arguments, the optional physical NIC, and the two per-host loops
 * that add a virtual switch and then a port group on every host of the
 * cluster.
 *
 * The cluster is a sequence of host ids; `ClusterNetwork` keeps the remote
 * `AddVirtualSwitch` / `AddPortGroup` calls as a log, in issue order.
 */
module CreateVswitch {
  import opened Wrappers
  import opened Numerals

  const MTU_MIN: nat := 1500
  const MTU_MAX: nat := 9000
  const PORTS_MIN: nat := 1
  const PORTS_MAX: nat := 1024
  const VID_MAX: nat := 4095
  /** Argument count (with the script name) at which the physical NIC is read. */
  const ARGC_WITH_NIC: nat := 9

  /**
   * An argument after validation: converted to an integer, or left as the
   * string the user typed (the boundary values the checks let through
   * without converting).
   */
  datatype ArgValue = IntArg(n: int) | StrArg(s: string)

  /** Each `raise` of the validation block; `Usage` is the IndexError path. */
  datatype SwitchError =
    | Usage
    | MtuNotNumeric
    | MtuOutOfRange
    | PortsNotNumeric
    | PortsOutOfRange
    | VidNotNumeric

  /** The VLAN id as validated, and whether the out-of-range message was printed. */
  datatype VidArg = VidArg(vlan: ArgValue, warned: bool)

  datatype SwitchArgs = SwitchArgs(
    clusterName: string,
    switchName: string,
    mtu: ArgValue,
    numPorts: nat,
    portGroupName: string,
    vid: VidArg,
    nic: Option<string>)

  type HostId = nat

  datatype SecurityPolicy = SecurityPolicy(allowPromiscuous: bool, forgedTransmits: bool, macChanges: bool)

  /** The policy every port group gets. */
  const PORT_GROUP_POLICY: SecurityPolicy := SecurityPolicy(true, true, false)

  /** A call on one host's network system; `bridge` is the bond bridge's NIC list, if set. */
  datatype NetCall =
    | AddVirtualSwitch(host: HostId, vswitchName: string, numPorts: int, mtu: int,
                       bridge: Option<seq<string>>)
    | AddPortGroup(host: HostId, name: string, vswitchName: string, vlanId: ArgValue,
                   policy: SecurityPolicy)

  // ---------------------------------------------------------------------
  // Argument classification
  // ---------------------------------------------------------------------

  /**
   * The MTU branch: non-numeric and out-of-range values raise, values
   * strictly between the bounds are converted, and the bounds themselves
   * fall through every branch and stay strings.
   */
  function ClassifyMtu(s: string): (r: Result<ArgValue, SwitchError>)
    ensures r == Err(MtuNotNumeric) <==> !IsDigits(s)
    ensures r == Err(MtuOutOfRange) <==> IsDigits(s) && (DigitsValue(s) < MTU_MIN || DigitsValue(s) > MTU_MAX)
    ensures r.Ok? ==> IsDigits(s) && MTU_MIN <= DigitsValue(s) <= MTU_MAX
    ensures r == Ok(IntArg(DigitsValue(s))) <==> IsDigits(s) && MTU_MIN < DigitsValue(s) < MTU_MAX
    ensures r == Ok(StrArg(s)) <==> IsDigits(s) && (DigitsValue(s) == MTU_MIN || DigitsValue(s) == MTU_MAX)
  {
    if !IsDigits(s) then Err(MtuNotNumeric)
    else if DigitsValue(s) < MTU_MIN || DigitsValue(s) > MTU_MAX then Err(MtuOutOfRange)
    else if DigitsValue(s) > MTU_MIN && DigitsValue(s) < MTU_MAX then Ok(IntArg(DigitsValue(s)))
    else Ok(StrArg(s))
  }

  /** The port-count branch: accepted, and converted, iff numeric and in 1..1024. */
  function ClassifyPorts(s: string): (r: Result<nat, SwitchError>)
    ensures r == Err(PortsNotNumeric) <==> !IsDigits(s)
    ensures r.Ok? <==> IsDigits(s) && PORTS_MIN <= DigitsValue(s) <= PORTS_MAX
    ensures r == Err(PortsOutOfRange) <==> IsDigits(s) && (DigitsValue(s) < PORTS_MIN || DigitsValue(s) > PORTS_MAX)
    ensures r.Ok? ==> r.value == DigitsValue(s)
  {
    if !IsDigits(s) then Err(PortsNotNumeric)
    else if DigitsValue(s) < PORTS_MIN || DigitsValue(s) > PORTS_MAX then Err(PortsOutOfRange)
    else Ok(DigitsValue(s))
  }

  /**
   * The VLAN branch: only a non-numeric value raises. Above 4095 a message
   * is printed and the string is kept; 1..4094 is converted; 0 and 4095
   * stay strings without a message.
   */
  function ClassifyVid(s: string): (r: Result<VidArg, SwitchError>)
    ensures r.Err? <==> !IsDigits(s)
    ensures r.Err? ==> r.error == VidNotNumeric
    ensures r.Ok? ==> (r.value.warned <==> DigitsValue(s) > VID_MAX)
    ensures r.Ok? ==> (r.value.vlan == IntArg(DigitsValue(s)) <==> 0 < DigitsValue(s) < VID_MAX)
    ensures r.Ok? && r.value.vlan != IntArg(DigitsValue(s)) ==> r.value.vlan == StrArg(s)
  {
    if !IsDigits(s) then Err(VidNotNumeric)
    else if DigitsValue(s) > VID_MAX then Ok(VidArg(StrArg(s), true))
    else if DigitsValue(s) > 0 && DigitsValue(s) < VID_MAX then Ok(VidArg(IntArg(DigitsValue(s)), false))
    else Ok(VidArg(StrArg(s), false))
  }

  /** The physical NIC: present iff there are exactly nine entries, and then it is `argv[8]`. */
  function NicArg(argv: seq<string>): (r: Option<string>)
    ensures r.Some? <==> |argv| == ARGC_WITH_NIC
    ensures r.Some? ==> r.value == argv[8]
  {
    if |argv| == ARGC_WITH_NIC then Some(argv[8]) else None
  }

  /** The validation block of `main`, `argv[0]` being the script's own name. */
  function ValidateSwitchArgs(argv: seq<string>): (r: Result<SwitchArgs, SwitchError>)
    ensures |argv| < 7 ==> r == Err(Usage)
    ensures r.Ok? <==>
      |argv| >= 7 && ClassifyMtu(argv[3]).Ok? && ClassifyPorts(argv[4]).Ok? && IsDigits(argv[6])
    ensures |argv| >= 7 && ClassifyMtu(argv[3]).Err? ==> r == Err(ClassifyMtu(argv[3]).error)
    ensures |argv| >= 7 && ClassifyMtu(argv[3]).Ok? && ClassifyPorts(argv[4]).Err? ==>
      r == Err(ClassifyPorts(argv[4]).error)
    ensures |argv| >= 7 && ClassifyMtu(argv[3]).Ok? && ClassifyPorts(argv[4]).Ok? && !IsDigits(argv[6]) ==>
      r == Err(VidNotNumeric)
    ensures r.Ok? ==>
      r.value.clusterName == argv[1] && r.value.switchName == argv[2] &&
      r.value.portGroupName == argv[5] && r.value.nic == NicArg(argv) &&
      r.value.numPorts == DigitsValue(argv[4]) && Ok(r.value.mtu) == ClassifyMtu(argv[3]) &&
      Ok(r.value.vid) == ClassifyVid(argv[6])
  {
    if |argv| < 7 then Err(Usage)
    else match ClassifyMtu(argv[3])
      case Err(e) => Err(e)
      case Ok(mtu) =>
        match ClassifyPorts(argv[4])
        case Err(e) => Err(e)
        case Ok(ports) =>
          match ClassifyVid(argv[6])
          case Err(e) => Err(e)
          case Ok(vid) => Ok(SwitchArgs(argv[1], argv[2], mtu, ports, argv[5], vid, NicArg(argv)))
  }

  /** The eighth entry, `argv[7]`, never affects the outcome. */
  lemma Argv7NeverRead(argv: seq<string>, x: string)
    requires |argv| >= 8
    ensures ValidateSwitchArgs(argv[7 := x]) == ValidateSwitchArgs(argv)
  {
    var argv' := argv[7 := x];
    assert forall i :: 0 <= i < |argv| && i != 7 ==> argv'[i] == argv[i];
  }

  /** The MTU values singled out by the boundaries. */
  lemma MtuBoundaries()
    ensures ClassifyMtu("1000") == Err(MtuOutOfRange)
    ensures ClassifyMtu("1499") == Err(MtuOutOfRange)
    ensures ClassifyMtu("1500") == Ok(StrArg("1500"))
    ensures ClassifyMtu("1501") == Ok(IntArg(1501))
    ensures ClassifyMtu("8999") == Ok(IntArg(8999))
    ensures ClassifyMtu("9000") == Ok(StrArg("9000"))
    ensures ClassifyMtu("9001") == Err(MtuOutOfRange)
  {
    DigitsValueOfFour('1', '0', '0', '0');
    DigitsValueOfFour('1', '4', '9', '9');
    DigitsValueOfFour('1', '5', '0', '0');
    DigitsValueOfFour('1', '5', '0', '1');
    DigitsValueOfFour('8', '9', '9', '9');
    DigitsValueOfFour('9', '0', '0', '0');
    DigitsValueOfFour('9', '0', '0', '1');
  }

  /** The VLAN ids singled out by the boundaries. */
  lemma VidBoundaries()
    ensures ClassifyVid("0") == Ok(VidArg(StrArg("0"), false))
    ensures ClassifyVid("1") == Ok(VidArg(IntArg(1), false))
    ensures ClassifyVid("4094") == Ok(VidArg(IntArg(4094), false))
    ensures ClassifyVid("4095") == Ok(VidArg(StrArg("4095"), false))
    ensures ClassifyVid("4096") == Ok(VidArg(StrArg("4096"), true))
  {
    DigitsValueOfFour('4', '0', '9', '4');
    DigitsValueOfFour('4', '0', '9', '5');
    DigitsValueOfFour('4', '0', '9', '6');
  }

  // ---------------------------------------------------------------------
  // The per-host calls
  // ---------------------------------------------------------------------

  /** Python's `int(...)` on a validated argument. */
  function IntOf(v: ArgValue): int {
    match v
    case IntArg(n) => n
    case StrArg(s) => DigitsValue(s)
  }

  function SwitchCall(host: HostId, switchName: string, numPorts: int, mtu: ArgValue,
                      nic: Option<string>): NetCall {
    AddVirtualSwitch(host, switchName, numPorts, IntOf(mtu),
                     match nic case None => None case Some(n) => Some([n]))
  }

  function PortGroupCall(host: HostId, portGroupName: string, switchName: string,
                         vlan: ArgValue): NetCall {
    AddPortGroup(host, portGroupName, switchName, vlan, PORT_GROUP_POLICY)
  }

  /** One switch call per host, in host order. */
  function SwitchCalls(hosts: seq<HostId>, switchName: string, numPorts: int, mtu: ArgValue,
                       nic: Option<string>): seq<NetCall>
  {
    seq(|hosts|, i requires 0 <= i < |hosts| => SwitchCall(hosts[i], switchName, numPorts, mtu, nic))
  }

  /** One port-group call per host, in host order. */
  function PortGroupCalls(hosts: seq<HostId>, portGroupName: string, switchName: string,
                          vlan: ArgValue): seq<NetCall>
  {
    seq(|hosts|, i requires 0 <= i < |hosts| => PortGroupCall(hosts[i], portGroupName, switchName, vlan))
  }

  /** Every call the script issues on a cluster, given its arguments. */
  function ScriptCalls(hosts: seq<HostId>, argv: seq<string>): (calls: seq<NetCall>)
    ensures ValidateSwitchArgs(argv).Err? ==> calls == []
    ensures ValidateSwitchArgs(argv).Ok? ==> |calls| == 2 * |hosts|
    ensures ValidateSwitchArgs(argv).Ok? ==>
      forall i :: 0 <= i < |hosts| ==> calls[i].AddVirtualSwitch? && calls[i].host == hosts[i]
    ensures ValidateSwitchArgs(argv).Ok? ==>
      forall j :: |hosts| <= j < |calls| ==> calls[j].AddPortGroup? && calls[j].host == hosts[j - |hosts|]
  {
    match ValidateSwitchArgs(argv)
    case Err(_) => []
    case Ok(a) =>
      SwitchCalls(hosts, a.switchName, a.numPorts, a.mtu, a.nic) +
      PortGroupCalls(hosts, a.portGroupName, a.switchName, a.vid.vlan)
  }

  /**
   * The calls in full: nothing on a validation failure; otherwise one
   * switch call per host, in host order, with the typed MTU and port
   * count and the bridge iff a NIC was given, then one port-group call
   * per host with the fixed policy.
   */
  lemma {:induction false} ScriptCallsShape(hosts: seq<HostId>, argv: seq<string>)
    ensures ValidateSwitchArgs(argv).Err? ==> ScriptCalls(hosts, argv) == []
    ensures ValidateSwitchArgs(argv).Ok? ==>
      var calls := ScriptCalls(hosts, argv);
      var n := |hosts|;
      && |calls| == 2 * n
      && (forall i :: 0 <= i < n ==>
            calls[i] == AddVirtualSwitch(hosts[i], argv[2], DigitsValue(argv[4]), DigitsValue(argv[3]),
                                         if |argv| == 9 then Some([argv[8]]) else None))
      && (forall i :: 0 <= i < n ==>
            calls[n + i] == AddPortGroup(hosts[i], argv[5], argv[2], ValidateSwitchArgs(argv).value.vid.vlan,
                                         SecurityPolicy(true, true, false)))
  {
    if ValidateSwitchArgs(argv).Ok? {
      var a := ValidateSwitchArgs(argv).value;
      var n := |hosts|;
      var bridge: Option<seq<string>> := if |argv| == 9 then Some([argv[8]]) else None;
      assert IntOf(a.mtu) == DigitsValue(argv[3]);
      assert (match a.nic case None => None case Some(x) => Some([x])) == bridge;
      var sw := SwitchCalls(hosts, a.switchName, a.numPorts, a.mtu, a.nic);
      var pg := PortGroupCalls(hosts, a.portGroupName, a.switchName, a.vid.vlan);
      var calls := sw + pg;
      assert ScriptCalls(hosts, argv) == calls;
      assert |sw| == n && |pg| == n;
      forall i | 0 <= i < n
        ensures calls[i] == AddVirtualSwitch(hosts[i], argv[2], DigitsValue(argv[4]), DigitsValue(argv[3]), bridge)
      {
        assert calls[i] == sw[i];
      }
      forall i | 0 <= i < n
        ensures calls[n + i] == AddPortGroup(hosts[i], argv[5], argv[2], a.vid.vlan, PORT_GROUP_POLICY)
      {
        assert calls[n + i] == pg[i];
      }
    }
  }

  /** Every switch call comes before every port-group call. */
  lemma {:induction false} SwitchCallsPrecedePortGroupCalls(hosts: seq<HostId>, argv: seq<string>, i: nat, j: nat)
    requires i < j < |ScriptCalls(hosts, argv)|
    requires ScriptCalls(hosts, argv)[j].AddVirtualSwitch?
    ensures ScriptCalls(hosts, argv)[i].AddVirtualSwitch?
  {
    ScriptCallsShape(hosts, argv);
  }

  /** The MTU a switch is created with is the typed number, within 1500..9000, bounds included. */
  lemma SwitchMtuInRange(hosts: seq<HostId>, argv: seq<string>, i: nat)
    requires i < |ScriptCalls(hosts, argv)| && ScriptCalls(hosts, argv)[i].AddVirtualSwitch?
    ensures ScriptCalls(hosts, argv)[i].mtu == DigitsValue(argv[3])
    ensures 1500 <= ScriptCalls(hosts, argv)[i].mtu <= 9000
  {
    ScriptCallsShape(hosts, argv);
  }

  /** The hosts' network systems, seen through the calls made on them. */
  class ClusterNetwork {
    const hosts: seq<HostId>
    var log: seq<NetCall>

    constructor (hosts: seq<HostId>)
      ensures this.hosts == hosts && log == []
    {
      this.hosts := hosts;
      log := [];
    }

    /** `create_switch`: one `AddVirtualSwitch` per host. */
    method CreateSwitch(switchName: string, numPorts: int, mtu: ArgValue, nic: Option<string>)
      modifies this
      ensures log == old(log) + SwitchCalls(hosts, switchName, numPorts, mtu, nic)
    {
      ghost var before := log;
      for i := 0 to |hosts|
        invariant |log| == |before| + i
        invariant log[..|before|] == before
        invariant forall k :: 0 <= k < i ==> log[|before| + k] == SwitchCall(hosts[k], switchName, numPorts, mtu, nic)
      {
        var bridge: Option<seq<string>> := None;
        if nic.Some? {
          bridge := Some([nic.value]);
        }
        log := log + [AddVirtualSwitch(hosts[i], switchName, numPorts, IntOf(mtu), bridge)];
      }
    }

    /** `create_port_group`: one `AddPortGroup` per host, always with the same policy. */
    method CreatePortGroup(portGroupName: string, switchName: string, vlan: ArgValue)
      modifies this
      ensures log == old(log) + PortGroupCalls(hosts, portGroupName, switchName, vlan)
    {
      ghost var before := log;
      for i := 0 to |hosts|
        invariant |log| == |before| + i
        invariant log[..|before|] == before
        invariant forall k :: 0 <= k < i ==> log[|before| + k] == PortGroupCall(hosts[k], portGroupName, switchName, vlan)
      {
        var policy := SecurityPolicy(false, false, false);
        policy := policy.(allowPromiscuous := true);
        policy := policy.(forgedTransmits := true);
        policy := policy.(macChanges := false);
        log := log + [AddPortGroup(hosts[i], portGroupName, switchName, vlan, policy)];
      }
    }

    /** `main` from validation on: the switches on every host, then the port groups. */
    method RunScript(argv: seq<string>) returns (r: Result<SwitchArgs, SwitchError>)
      modifies this
      ensures r == ValidateSwitchArgs(argv)
      ensures log == old(log) + ScriptCalls(hosts, argv)
    {
      r := ValidateSwitchArgs(argv);
      if r.Err? {
        return;
      }
      var a := r.value;
      if a.nic.Some? {
        CreateSwitch(a.switchName, a.numPorts, a.mtu, a.nic);
      } else {
        CreateSwitch(a.switchName, a.numPorts, a.mtu, None);
      }
      CreatePortGroup(a.portGroupName, a.switchName, a.vid.vlan);
    }
  }

  /** The script on a fresh cluster log: the calls it leaves there. */
  method RunOnCluster(hosts: seq<HostId>, argv: seq<string>) returns (r: Result<SwitchArgs, SwitchError>, calls: seq<NetCall>)
    ensures r == ValidateSwitchArgs(argv)
    ensures r.Err? ==> calls == []
    ensures r.Ok? ==> |calls| == 2 * |hosts|
    ensures r.Ok? ==>
      forall i :: 0 <= i < |hosts| ==> calls[i].AddVirtualSwitch? && calls[i].host == hosts[i]
    ensures r.Ok? ==>
      forall i :: 0 <= i < |hosts| ==> calls[|hosts| + i].AddPortGroup? && calls[|hosts| + i].host == hosts[i]
  {
    var cluster := new ClusterNetwork(hosts);
    r := cluster.RunScript(argv);
    calls := cluster.log;
    ScriptCallsShape(hosts, argv);
  }
}
