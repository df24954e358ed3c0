/**
 * The VM-creation script: argument validation against the cluster's
 * reported capacity, unit conversion, construction of the create request,
 * and the choice of the new disk's SCSI unit number.
 *
 * The vSphere inventory is plain data (`Inventory`); the two remote calls
 * the script issues (`CreateVM_Task`, then `ReconfigVM_Task`) are values of
 * `VmCall`, returned in the order they are issued.
 */
module CreateVm {
  import opened Wrappers
  import opened Numerals

  const MB_PER_GB: nat := 1024
  const KB_PER_GB: nat := 1024 * 1024
  /** The only datastore whose free space is checked. */
  const NFS_SHARE: string := "NFS_share"
  const GUEST_ID: string := "ubuntu64Guest"
  /** Fixed parameters of the LSI Logic SCSI controller added to every new VM. */
  const SCSI_KEY: int := 22
  const SCSI_BUS: int := 0
  const SCSI_UNIT: int := 7
  const SCSI_PCI_SLOT: int := 16
  /** The SCSI unit number the controller itself occupies, so no disk may take it. */
  const RESERVED_UNIT: int := SCSI_UNIT

  // ---------------------------------------------------------------------
  // Inventory, arguments, requests
  // ---------------------------------------------------------------------

  /** A datastore as the API reports it; `freeSpace` is in bytes. */
  datatype Datastore = Datastore(name: string, freeSpace: int)

  /**
   * What the script reads from the endpoint: the names of the children of
   * the datacenter's VM folder, the datacenter's networks (by name, in API
   * order), the first cluster's core count and effective memory (MB), and
   * the first cluster's datastores (in API order).
   */
  datatype Inventory = Inventory(
    vmNames: seq<string>,
    networks: seq<string>,
    numCpuCores: int,
    effectiveMemory: int,
    datastores: seq<Datastore>)

  datatype Provision = Thin | Thick

  /** The arguments once validated: CPU count, memory in MB, disk in KB. */
  datatype VmArgs = VmArgs(
    name: string,
    portGroup: string,
    cpu: nat,
    ramMb: nat,
    diskKb: nat,
    provision: Provision)

  /** Each `raise` of `main`'s validation block; `Usage` is the IndexError path. */
  datatype VmError =
    | Usage
    | NameExists(name: string)
    | CpuNotNumeric
    | CpuInsufficient
    | RamNotNumeric
    | RamInsufficient
    | DiskNotNumeric
    | DiskInsufficient
    | BadProvision

  /** A device the endpoint reports for the VM; `unitNumber` may be unset. */
  datatype Device = Device(key: int, unitNumber: Option<int>, isLsiLogicController: bool)

  /** Entries of the create request's `deviceChange` (both with operation `add`). */
  datatype DeviceSpec =
    | NicSpec(network: nat, deviceName: string)
    | ScsiControllerSpec(key: int, busNumber: int, device: int, scsiCtlrUnitNumber: int,
                         pciSlotNumber: int, sharedBus: string)

  datatype VmConfig = VmConfig(
    name: string,
    numCPUs: int,
    memoryMB: int,
    guestId: string,
    vmPathName: string,
    deviceChange: seq<DeviceSpec>)

  /** The disk added by reconfiguration; `thinProvisioned == false` means the field is left unset. */
  datatype DiskSpec = DiskSpec(
    fileOperation: string,
    capacityInKB: int,
    thinProvisioned: bool,
    diskMode: string,
    unitNumber: int,
    controllerKey: int)

  datatype VmCall =
    | CreateVmTask(config: VmConfig)
    | ReconfigVmTask(vmName: string, disk: DiskSpec)

  /** Uncaught exceptions: an empty datastore list, a port group with no network,
      and the two locals of `add_disk_to_vm` that no device may have bound. */
  datatype Crash = NoDatastore | NoNetwork | UnitNumberUnbound | ControllerUnbound

  datatype VmRun = Rejected(error: VmError) | Crashed(crash: Crash) | Created(vmName: string)

  // ---------------------------------------------------------------------
  // Unit conversions
  // ---------------------------------------------------------------------

  /** `convert_gb_to_mb`: a whole number of MB that `mb_to_gb` maps back. */
  function ConvertGbToMb(gb: int): (mb: int)
    ensures mb % MB_PER_GB == 0
    ensures MbToGb(mb) == gb
  {
    MB_PER_GB * gb
  }

  /** `convert_gb_to_kb`: a whole number of GB in KB that `convert_kb_to_gb` maps back. */
  function ConvertGbToKb(gb: int): (kb: int)
    ensures kb % KB_PER_GB == 0
    ensures ConvertKbToGb(kb) == gb
  {
    gb * KB_PER_GB
  }

  /** Floor division, as Python's `//` (for a positive divisor Dafny's `/` agrees). */
  function ConvertKbToGb(kb: int): (gb: int)
    ensures gb * KB_PER_GB <= kb < (gb + 1) * KB_PER_GB
  {
    kb / KB_PER_GB
  }

  function MbToGb(mb: int): (gb: int)
    ensures gb * MB_PER_GB <= mb < (gb + 1) * MB_PER_GB
  {
    mb / MB_PER_GB
  }

  lemma GbMbRoundTrip(gb: int)
    ensures ConvertGbToMb(gb) == 1024 * gb
    ensures MbToGb(ConvertGbToMb(gb)) == gb
  {
  }

  lemma GbKbRoundTrip(gb: int)
    ensures ConvertGbToKb(gb) == gb * 1024 * 1024
    ensures ConvertKbToGb(ConvertGbToKb(gb)) == gb
  {
  }

  // ---------------------------------------------------------------------
  // The individual checks
  // ---------------------------------------------------------------------

  /** True iff no child of the VM folder already carries the name. */
  function VmNameCheck(vmNames: seq<string>, vmName: string): (unused: bool)
    ensures unused <==> forall i :: 0 <= i < |vmNames| ==> vmNames[i] != vmName
  {
    vmName !in vmNames
  }

  /** `cpu_check`: at least one reported core is left over after the request. */
  function CpuCheck(inv: Inventory, cpu: int): (enough: bool)
    ensures enough <==> inv.numCpuCores - cpu >= 1
  {
    cpu < inv.numCpuCores
  }

  /** `memory_check`: at least one MB of effective memory is left over after the request. */
  function MemoryCheck(inv: Inventory, ramMb: int): (enough: bool)
    ensures enough <==> inv.effectiveMemory - ramMb >= 1
  {
    ramMb < inv.effectiveMemory
  }

  predicate IsFirstNamed(stores: seq<Datastore>, name: string, i: nat) {
    i < |stores| && stores[i].name == name &&
    forall j :: 0 <= j < i ==> stores[j].name != name
  }

  /** Index of the first datastore named `NFS_share`, if there is one. */
  function NfsStoreIndex(stores: seq<Datastore>): (r: Option<nat>)
    ensures r.None? <==> forall j :: 0 <= j < |stores| ==> stores[j].name != NFS_SHARE
    ensures r.Some? ==> IsFirstNamed(stores, NFS_SHARE, r.value)
  {
    if |stores| == 0 then None
    else if stores[0].name == NFS_SHARE then Some(0)
    else match NfsStoreIndex(stores[1..])
      case None => None
      case Some(i) => Some(i + 1)
  }

  /**
   * The disk check: `None` when there is no `NFS_share` datastore (the
   * `[0]` of an empty list raises IndexError); otherwise whether the
   * request in KB is below the free space converted to KB.
   */
  function DatastoreSpaceCheck(stores: seq<Datastore>, diskKb: int): (r: Option<bool>)
    ensures r.None? <==> NfsStoreIndex(stores).None?
    ensures r.Some? ==>
      (r.value <==> (diskKb + 1) * 1024 <= stores[NfsStoreIndex(stores).value].freeSpace)
  {
    match NfsStoreIndex(stores)
    case None => None
    case Some(i) => Some(diskKb < stores[i].freeSpace / 1024)
  }

  /** Each capacity check is a strict comparison: a request equal to the capacity is refused. */
  lemma CapacityChecksAreStrict(inv: Inventory, cpu: int, ramMb: int)
    ensures CpuCheck(inv, cpu) <==> cpu < inv.numCpuCores
    ensures !CpuCheck(inv, inv.numCpuCores) && CpuCheck(inv, inv.numCpuCores - 1)
    ensures MemoryCheck(inv, ramMb) <==> ramMb < inv.effectiveMemory
    ensures !MemoryCheck(inv, inv.effectiveMemory) && MemoryCheck(inv, inv.effectiveMemory - 1)
  {
  }

  function ProvisionOf(s: string): (r: Option<Provision>)
    ensures r == Some(Thin) <==> s == "thin"
    ensures r == Some(Thick) <==> s == "thick"
  {
    if s == "thin" then Some(Thin)
    else if s == "thick" then Some(Thick)
    else None
  }

  // ---------------------------------------------------------------------
  // The validation chain of `main`
  // ---------------------------------------------------------------------

  /** Every requested quantity is strictly below what the cluster reports. */
  predicate WithinCapacity(inv: Inventory, a: VmArgs) {
    a.cpu < inv.numCpuCores &&
    a.ramMb < inv.effectiveMemory &&
    NfsStoreIndex(inv.datastores).Some? &&
    (a.diskKb + 1) * 1024 <= inv.datastores[NfsStoreIndex(inv.datastores).value].freeSpace
  }

  /**
   * `main`'s try block: each step either raises or lets the next one run.
   * `argv[0]` is the script's own name.
   */
  function Validate(inv: Inventory, argv: seq<string>): (r: Result<VmArgs, VmError>)
    ensures r.Ok? ==> |argv| >= 7 && WithinCapacity(inv, r.value)
    ensures r.Ok? ==> r.value.name !in inv.vmNames
  {
    if |argv| < 6 then Err(Usage)
    else if !VmNameCheck(inv.vmNames, argv[1]) then Err(NameExists(argv[1]))
    else if !IsDigits(argv[3]) then Err(CpuNotNumeric)
    else if !CpuCheck(inv, DigitsValue(argv[3])) then Err(CpuInsufficient)
    else if !IsDigits(argv[4]) then Err(RamNotNumeric)
    else if !MemoryCheck(inv, ConvertGbToMb(DigitsValue(argv[4]))) then Err(RamInsufficient)
    else if !IsDigits(argv[5]) then Err(DiskNotNumeric)
    else match DatastoreSpaceCheck(inv.datastores, ConvertGbToKb(DigitsValue(argv[5])))
      case None => Err(Usage)
      case Some(fits) =>
        if !fits then Err(DiskInsufficient)
        else if |argv| < 7 then Err(Usage)
        else match ProvisionOf(argv[6])
          case None => Err(BadProvision)
          case Some(p) =>
            Ok(VmArgs(argv[1], argv[2], DigitsValue(argv[3]), ConvertGbToMb(DigitsValue(argv[4])),
                      ConvertGbToKb(DigitsValue(argv[5])), p))
  }

  /** Acceptance, stated in the script's own units: both directions, and the values kept. */
  lemma ValidateAccepts(inv: Inventory, argv: seq<string>)
    ensures Validate(inv, argv).Ok? <==>
      |argv| >= 7 &&
      (forall i :: 0 <= i < |inv.vmNames| ==> inv.vmNames[i] != argv[1]) &&
      IsDigits(argv[3]) && DigitsValue(argv[3]) < inv.numCpuCores &&
      IsDigits(argv[4]) && 1024 * DigitsValue(argv[4]) < inv.effectiveMemory &&
      IsDigits(argv[5]) && NfsStoreIndex(inv.datastores).Some? &&
      (DigitsValue(argv[5]) * 1048576 + 1) * 1024
        <= inv.datastores[NfsStoreIndex(inv.datastores).value].freeSpace &&
      (argv[6] == "thin" || argv[6] == "thick")
    ensures Validate(inv, argv).Ok? ==>
      Validate(inv, argv).value ==
        VmArgs(argv[1], argv[2], DigitsValue(argv[3]), 1024 * DigitsValue(argv[4]),
               DigitsValue(argv[5]) * 1048576, if argv[6] == "thin" then Thin else Thick)
  {
  }

  /** The values the script prints back are the ones the user typed, in GB. */
  lemma ValidateKeepsInputs(inv: Inventory, argv: seq<string>)
    requires Validate(inv, argv).Ok?
    ensures MbToGb(Validate(inv, argv).value.ramMb) == DigitsValue(argv[4])
    ensures ConvertKbToGb(Validate(inv, argv).value.diskKb) == DigitsValue(argv[5])
  {
    GbMbRoundTrip(DigitsValue(argv[4]));
    GbKbRoundTrip(DigitsValue(argv[5]));
  }

  /** An argument list shorter than seven entries never validates. */
  lemma ShortArgvFails(inv: Inventory, argv: seq<string>)
    requires |argv| < 7
    ensures Validate(inv, argv).Err?
    ensures |argv| < 6 ==> Validate(inv, argv) == Err(Usage)
  {
  }

  /** An existing name is the error whatever the later arguments are. */
  lemma ExistingNameRejected(inv: Inventory, argv: seq<string>)
    requires |argv| >= 6 && argv[1] in inv.vmNames
    ensures Validate(inv, argv) == Err(NameExists(argv[1]))
  {
  }

  // The same chain as an independent list of checks, each judged on its own.

  function FirstFailure<E>(results: seq<Option<E>>): Option<E> {
    if |results| == 0 then None
    else if results[0].Some? then results[0]
    else FirstFailure(results[1..])
  }

  /** `FirstFailure` picks the earliest failing entry. */
  lemma {:induction false} FirstFailureIsEarliest<E>(results: seq<Option<E>>, e: E)
    ensures FirstFailure(results) == Some(e) <==>
      exists k :: 0 <= k < |results| && results[k] == Some(e) &&
                  forall j :: 0 <= j < k ==> results[j].None?
  {
    if |results| > 0 && results[0].None? {
      FirstFailureIsEarliest(results[1..], e);
      if FirstFailure(results) == Some(e) {
        var k :| 0 <= k < |results[1..]| && results[1..][k] == Some(e) &&
                 forall j :: 0 <= j < k ==> results[1..][j].None?;
        assert results[k + 1] == Some(e);
      }
      if exists k :: 0 <= k < |results| && results[k] == Some(e) &&
                     forall j :: 0 <= j < k ==> results[j].None? {
        var k :| 0 <= k < |results| && results[k] == Some(e) &&
                 forall j :: 0 <= j < k ==> results[j].None?;
        assert k > 0;
        assert results[1..][k - 1] == Some(e);
      }
    }
  }

  function Fail(failed: bool, e: VmError): Option<VmError> {
    if failed then Some(e) else None
  }

  function Arg(argv: seq<string>, i: nat): string {
    if i < |argv| then argv[i] else ""
  }

  const STEP_COUNT: nat := 11

  /** Step `k` of `main`'s validation block, in source order, judged on its own. */
  function Step(inv: Inventory, argv: seq<string>, k: nat): Option<VmError> {
    var name := Arg(argv, 1);
    var cpu := Arg(argv, 3);
    var ram := Arg(argv, 4);
    var disk := Arg(argv, 5);
    match k
    case 0 => Fail(|argv| < 6, Usage)
    case 1 => Fail(!VmNameCheck(inv.vmNames, name), NameExists(name))
    case 2 => Fail(!IsDigits(cpu), CpuNotNumeric)
    case 3 => Fail(!CpuCheck(inv, DigitsValue(cpu)), CpuInsufficient)
    case 4 => Fail(!IsDigits(ram), RamNotNumeric)
    case 5 => Fail(!MemoryCheck(inv, ConvertGbToMb(DigitsValue(ram))), RamInsufficient)
    case 6 => Fail(!IsDigits(disk), DiskNotNumeric)
    case 7 => Fail(DatastoreSpaceCheck(inv.datastores, ConvertGbToKb(DigitsValue(disk))).None?, Usage)
    case 8 => Fail(DatastoreSpaceCheck(inv.datastores, ConvertGbToKb(DigitsValue(disk))) == Some(false),
                   DiskInsufficient)
    case 9 => Fail(|argv| < 7, Usage)
    case _ => Fail(ProvisionOf(Arg(argv, 6)).None?, BadProvision)
  }

  function StepFailures(inv: Inventory, argv: seq<string>): (steps: seq<Option<VmError>>)
    ensures |steps| == STEP_COUNT
  {
    seq(STEP_COUNT, k requires 0 <= k < STEP_COUNT => Step(inv, argv, k))
  }

  lemma FirstFailureAt<E>(results: seq<Option<E>>, k: nat)
    requires k < |results| && results[k].Some?
    requires forall j :: 0 <= j < k ==> results[j].None?
    ensures FirstFailure(results) == results[k]
  {
    FirstFailureIsEarliest(results, results[k].value);
  }

  lemma {:induction false} FirstFailureNone<E>(results: seq<Option<E>>)
    requires forall j :: 0 <= j < |results| ==> results[j].None?
    ensures FirstFailure(results).None?
  {
    if |results| > 0 {
      FirstFailureNone(results[1..]);
    }
  }

  /** The error `main` reports is the first failing step, and it succeeds iff no step fails. */
  lemma ValidateIsFirstFailure(inv: Inventory, argv: seq<string>)
    ensures Validate(inv, argv).Ok? <==> FirstFailure(StepFailures(inv, argv)).None?
    ensures Validate(inv, argv).Err? ==>
      FirstFailure(StepFailures(inv, argv)) == Some(Validate(inv, argv).error)
  {
    var s := StepFailures(inv, argv);
    var space := DatastoreSpaceCheck(inv.datastores, ConvertGbToKb(DigitsValue(Arg(argv, 5))));
    if |argv| < 6 {
      FirstFailureAt(s, 0);
    } else if !VmNameCheck(inv.vmNames, argv[1]) {
      FirstFailureAt(s, 1);
    } else if !IsDigits(argv[3]) {
      FirstFailureAt(s, 2);
    } else if !CpuCheck(inv, DigitsValue(argv[3])) {
      FirstFailureAt(s, 3);
    } else if !IsDigits(argv[4]) {
      FirstFailureAt(s, 4);
    } else if !MemoryCheck(inv, ConvertGbToMb(DigitsValue(argv[4]))) {
      FirstFailureAt(s, 5);
    } else if !IsDigits(argv[5]) {
      FirstFailureAt(s, 6);
    } else if space.None? {
      FirstFailureAt(s, 7);
    } else if space == Some(false) {
      FirstFailureAt(s, 8);
    } else if |argv| < 7 {
      FirstFailureAt(s, 9);
    } else if ProvisionOf(argv[6]).None? {
      FirstFailureAt(s, 10);
    } else {
      FirstFailureNone(s);
    }
  }

  // ---------------------------------------------------------------------
  // Request construction
  // ---------------------------------------------------------------------

  /** `select_network`: the first network with the port group's name. */
  method SelectNetwork(networks: seq<string>, netName: string) returns (r: Option<nat>)
    ensures r.None? <==> netName !in networks
    ensures r.Some? ==> r.value < |networks| && networks[r.value] == netName &&
                        forall j :: 0 <= j < r.value ==> networks[j] != netName
  {
    var i := 0;
    while i < |networks|
      invariant 0 <= i <= |networks|
      invariant forall j :: 0 <= j < i ==> networks[j] != netName
    {
      if networks[i] == netName {
        return Some(i);
      }
      i := i + 1;
    }
    return None;
  }

  function DatastorePath(datastoreName: string, vmName: string): string {
    "[" + datastoreName + "] " + vmName
  }

  function ScsiController(): DeviceSpec {
    ScsiControllerSpec(SCSI_KEY, SCSI_BUS, 0, SCSI_UNIT, SCSI_PCI_SLOT, "noSharing")
  }

  /** The create request for validated arguments and the chosen network. */
  function VmConfigFor(datastoreName: string, network: nat, networkName: string, a: VmArgs): (c: VmConfig)
    ensures c.name == a.name && c.numCPUs == a.cpu && c.memoryMB == a.ramMb && c.guestId == GUEST_ID
    ensures c.vmPathName == "[" + datastoreName + "] " + a.name
    ensures c.deviceChange == [NicSpec(network, networkName),
                               ScsiControllerSpec(22, 0, 0, 7, 16, "noSharing")]
  {
    VmConfig(a.name, a.cpu, a.ramMb, GUEST_ID, DatastorePath(datastoreName, a.name),
             [NicSpec(network, networkName), ScsiController()])
  }

  /** The request's fixed shape, and its numbers are the validated ones. */
  lemma VmConfigContents(inv: Inventory, argv: seq<string>, datastoreName: string, network: nat)
    requires Validate(inv, argv).Ok?
    ensures var a := Validate(inv, argv).value;
      var c := VmConfigFor(datastoreName, network, a.portGroup, a);
      && c.vmPathName == "[" + datastoreName + "] " + argv[1]
      && c.name == argv[1]
      && |c.deviceChange| == 2
      && c.deviceChange[0] == NicSpec(network, argv[2])
      && c.deviceChange[1].ScsiControllerSpec?
      && c.deviceChange[1].key == 22 && c.deviceChange[1].busNumber == 0
      && c.deviceChange[1].scsiCtlrUnitNumber == 7
      && c.numCPUs == DigitsValue(argv[3]) < inv.numCpuCores
      && c.memoryMB == 1024 * DigitsValue(argv[4]) < inv.effectiveMemory
  {
    ValidateAccepts(inv, argv);
  }

  // ---------------------------------------------------------------------
  // Adding the disk
  // ---------------------------------------------------------------------

  /** `if dev.unitNumber:` — set and nonzero. */
  predicate HasUnit(d: Device) {
    d.unitNumber.Some? && d.unitNumber.value != 0
  }

  /** The unit number of the last device that has one. */
  function LastUnitNumber(devices: seq<Device>): Option<int> {
    if |devices| == 0 then None
    else if HasUnit(devices[|devices| - 1]) then devices[|devices| - 1].unitNumber
    else LastUnitNumber(devices[..|devices| - 1])
  }

  /** The last LSI Logic controller among the devices. */
  function LastController(devices: seq<Device>): Option<Device> {
    if |devices| == 0 then None
    else if devices[|devices| - 1].isLsiLogicController then Some(devices[|devices| - 1])
    else LastController(devices[..|devices| - 1])
  }

  /** One past `u`, skipping the controller's reserved unit. */
  function NextUnit(u: int): (r: int)
    ensures r != RESERVED_UNIT
    ensures r == u + 1 || (u + 1 == RESERVED_UNIT && r == u + 2)
  {
    if u + 1 == RESERVED_UNIT then u + 2 else u + 1
  }

  function UnitAfter(last: Option<int>): Option<int> {
    match last
    case None => None
    case Some(u) => Some(NextUnit(u))
  }

  /** `LastUnitNumber` against an index-based reading of "last". */
  lemma {:induction false} LastUnitNumberIsLast(devices: seq<Device>)
    ensures LastUnitNumber(devices).None? <==> forall i :: 0 <= i < |devices| ==> !HasUnit(devices[i])
    ensures LastUnitNumber(devices).Some? ==>
      exists i :: 0 <= i < |devices| && HasUnit(devices[i]) &&
        devices[i].unitNumber == LastUnitNumber(devices) &&
        forall j :: i < j < |devices| ==> !HasUnit(devices[j])
  {
    if |devices| > 0 {
      var last := |devices| - 1;
      var init := devices[..last];
      if HasUnit(devices[last]) {
        assert devices[last].unitNumber == LastUnitNumber(devices);
      } else {
        LastUnitNumberIsLast(init);
        assert LastUnitNumber(devices) == LastUnitNumber(init);
        assert forall i :: 0 <= i < last ==> devices[i] == init[i];
        if LastUnitNumber(init).Some? {
          var i :| 0 <= i < last && HasUnit(init[i]) &&
            init[i].unitNumber == LastUnitNumber(init) &&
            forall j :: i < j < last ==> !HasUnit(init[j]);
          assert HasUnit(devices[i]) && devices[i].unitNumber == LastUnitNumber(devices);
        }
      }
    }
  }

  /** `LastController` against an index-based reading of "last". */
  lemma {:induction false} LastControllerIsLast(devices: seq<Device>)
    ensures LastController(devices).None? <==>
      forall i :: 0 <= i < |devices| ==> !devices[i].isLsiLogicController
    ensures LastController(devices).Some? ==>
      exists i :: 0 <= i < |devices| && devices[i] == LastController(devices).value &&
        devices[i].isLsiLogicController &&
        forall j :: i < j < |devices| ==> !devices[j].isLsiLogicController
  {
    if |devices| > 0 {
      var last := |devices| - 1;
      var init := devices[..last];
      if devices[last].isLsiLogicController {
        assert devices[last] == LastController(devices).value;
      } else {
        LastControllerIsLast(init);
        assert LastController(devices) == LastController(init);
        assert forall i :: 0 <= i < last ==> devices[i] == init[i];
        if LastController(init).Some? {
          var i :| 0 <= i < last && init[i] == LastController(init).value &&
            init[i].isLsiLogicController &&
            forall j :: i < j < last ==> !init[j].isLsiLogicController;
          assert devices[i] == LastController(devices).value;
        }
      }
    }
  }

  /**
   * The loop of `add_disk_to_vm` over the VM's devices: `unit` ends as one
   * past the last nonzero unit number (never the reserved unit), and
   * `controller` as the last LSI Logic controller; each stays unbound
   * (`None`) when no device sets it.
   */
  method ScanDevices(devices: seq<Device>) returns (unit: Option<int>, controller: Option<Device>)
    ensures unit == UnitAfter(LastUnitNumber(devices))
    ensures controller == LastController(devices)
    ensures unit.Some? <==> exists i :: 0 <= i < |devices| && HasUnit(devices[i])
    ensures unit != Some(RESERVED_UNIT)
  {
    unit, controller := None, None;
    for i := 0 to |devices|
      invariant unit == UnitAfter(LastUnitNumber(devices[..i]))
      invariant controller == LastController(devices[..i])
    {
      assert devices[..i + 1][..i] == devices[..i];
      var dev := devices[i];
      if dev.unitNumber.Some? && dev.unitNumber.value != 0 {
        var unitNumber := dev.unitNumber.value + 1;
        if unitNumber == RESERVED_UNIT {
          unitNumber := unitNumber + 1;
        }
        unit := Some(unitNumber);
      }
      if dev.isLsiLogicController {
        controller := Some(dev);
      }
    }
    assert devices[..|devices|] == devices;
    LastUnitNumberIsLast(devices);
  }

  function DiskSpecFor(diskKb: int, provision: Provision, unit: int, controllerKey: int): DiskSpec {
    DiskSpec("create", diskKb, provision == Thin, "persistent", unit, controllerKey)
  }

  /**
   * `add_disk_to_vm` for a VM whose reported devices are `vmDevices`: the
   * reconfigure call adding the disk, or the crash when the loop left
   * `unit_number` (read first) or `controller` unbound.
   */
  method AddDiskToVm(vmName: string, diskKb: int, provision: Provision, vmDevices: seq<Device>)
    returns (r: Result<VmCall, Crash>)
    ensures LastUnitNumber(vmDevices).None? ==> r == Err(UnitNumberUnbound)
    ensures LastUnitNumber(vmDevices).Some? && LastController(vmDevices).None? ==>
      r == Err(ControllerUnbound)
    ensures r.Ok? <==> LastUnitNumber(vmDevices).Some? && LastController(vmDevices).Some?
    ensures r.Ok? ==>
      r.value == ReconfigVmTask(vmName,
        DiskSpecFor(diskKb, provision, NextUnit(LastUnitNumber(vmDevices).value),
                    LastController(vmDevices).value.key))
    ensures r.Ok? ==> r.value.disk.unitNumber != RESERVED_UNIT && r.value.disk.capacityInKB == diskKb
    ensures r.Ok? ==> (r.value.disk.thinProvisioned <==> provision == Thin)
  {
    var unit, controller := ScanDevices(vmDevices);
    if unit.None? {
      return Err(UnitNumberUnbound);
    }
    if controller.None? {
      return Err(ControllerUnbound);
    }
    var diskSpec := DiskSpec("create", diskKb, false, "persistent", 0, 0);
    if provision == Thin {
      diskSpec := diskSpec.(thinProvisioned := true);
    }
    diskSpec := diskSpec.(unitNumber := unit.value, controllerKey := controller.value.key);
    return Ok(ReconfigVmTask(vmName, diskSpec));
  }

  /**
   * `create_vm`: builds the request (device list by appending), issues the
   * create call, then adds the disk. A missing network crashes on
   * `net_name.name` before anything is issued.
   */
  method CreateVmAndDisk(datastoreName: string, networks: seq<string>, network: Option<nat>,
                         a: VmArgs, vmDevices: seq<Device>)
    returns (calls: seq<VmCall>, crash: Option<Crash>)
    requires network.Some? ==> network.value < |networks|
    ensures network.None? ==> calls == [] && crash == Some(NoNetwork)
    ensures network.Some? ==>
      1 <= |calls| <= 2 &&
      calls[0] == CreateVmTask(VmConfigFor(datastoreName, network.value, networks[network.value], a))
    ensures network.Some? ==> (|calls| == 2 <==> crash.None?)
    ensures network.Some? ==>
      (crash.None? <==> LastUnitNumber(vmDevices).Some? && LastController(vmDevices).Some?)
    ensures network.Some? && |calls| == 2 ==>
      calls[1] == ReconfigVmTask(a.name,
        DiskSpecFor(a.diskKb, a.provision, NextUnit(LastUnitNumber(vmDevices).value),
                    LastController(vmDevices).value.key))
    ensures network.Some? && crash.Some? ==>
      crash == Some(if LastUnitNumber(vmDevices).None? then UnitNumberUnbound else ControllerUnbound)
  {
    if network.None? {
      return [], Some(NoNetwork);
    }
    var deviceConfig: seq<DeviceSpec> := [];
    deviceConfig := deviceConfig + [NicSpec(network.value, networks[network.value])];
    deviceConfig := deviceConfig + [ScsiController()];
    var config := VmConfig(a.name, a.cpu, a.ramMb, GUEST_ID, DatastorePath(datastoreName, a.name),
                           deviceConfig);
    calls := [CreateVmTask(config)];
    var disk := AddDiskToVm(a.name, a.diskKb, a.provision, vmDevices);
    match disk {
      case Ok(c) =>
        calls := calls + [c];
        crash := None;
      case Err(e) =>
        crash := Some(e);
    }
  }

  /**
   * The whole script against an inventory, where `vmDevices` is what the
   * endpoint reports for the new VM when the disk is added.
   */
  method RunScript(inv: Inventory, argv: seq<string>, vmDevices: seq<Device>)
    returns (outcome: VmRun, calls: seq<VmCall>)
    ensures |inv.datastores| == 0 ==> outcome == Crashed(NoDatastore) && calls == []
    ensures |inv.datastores| > 0 && Validate(inv, argv).Err? ==>
      outcome == Rejected(Validate(inv, argv).error) && calls == []
    ensures |argv| >= 6 && argv[1] in inv.vmNames ==> calls == []
    ensures calls != [] <==>
      |inv.datastores| > 0 && Validate(inv, argv).Ok? && Validate(inv, argv).value.portGroup in inv.networks
    ensures calls != [] ==>
      var a := Validate(inv, argv).value;
      exists n :: 0 <= n < |inv.networks| && inv.networks[n] == a.portGroup &&
        (forall j :: 0 <= j < n ==> inv.networks[j] != a.portGroup) &&
        calls[0] == CreateVmTask(VmConfigFor(inv.datastores[0].name, n, a.portGroup, a))
    ensures outcome.Created? <==>
      calls != [] && LastUnitNumber(vmDevices).Some? && LastController(vmDevices).Some?
    ensures outcome.Created? ==>
      var a := Validate(inv, argv).value;
      |calls| == 2 && outcome.vmName == a.name &&
      calls[1] == ReconfigVmTask(a.name,
        DiskSpecFor(a.diskKb, a.provision, NextUnit(LastUnitNumber(vmDevices).value),
                    LastController(vmDevices).value.key))
    ensures |calls| <= 2 && (|calls| == 2 <==> outcome.Created?)
    ensures |inv.datastores| > 0 && Validate(inv, argv).Ok? && !outcome.Created? ==>
      outcome == Crashed(
        if Validate(inv, argv).value.portGroup !in inv.networks then NoNetwork
        else if LastUnitNumber(vmDevices).None? then UnitNumberUnbound
        else ControllerUnbound)
  {
    if |inv.datastores| == 0 {
      return Crashed(NoDatastore), [];
    }
    var v := Validate(inv, argv);
    if v.Err? {
      return Rejected(v.error), [];
    }
    var a := v.value;
    var network := SelectNetwork(inv.networks, a.portGroup);
    var crash;
    calls, crash := CreateVmAndDisk(inv.datastores[0].name, inv.networks, network, a, vmDevices);
    if network.Some? {
      assert inv.networks[network.value] == a.portGroup;
    }
    outcome := if crash.Some? then Crashed(crash.value) else Created(a.name);
  }

  /** A worked example: four cores of eight, 8 GB of 32 GB, 100 GB on a 1000 GB datastore. */
  lemma ExampleRequest()
    ensures var inv := Inventory([], ["VM Network"], 8, 32768, [Datastore("NFS_share", 1048576000 * 1024)]);
      var argv := ["create_vm.py", "vm1", "VM Network", "4", "8", "100", "thin"];
      && Validate(inv, argv) == Ok(VmArgs("vm1", "VM Network", 4, 8192, 104857600, Thin))
      && VmConfigFor("NFS_share", 0, "VM Network", Validate(inv, argv).value).vmPathName == "[NFS_share] vm1"
  {
    assert DigitsValue("4") == 4;
    assert DigitsValue("8") == 8;
    assert DigitsValue("1") == 1;
    assert DigitsValue("10") == 10;
    assert DigitsValue("100") == 100;
  }
}
