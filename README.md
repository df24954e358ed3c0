# vmware-scripts: a verified model of the two provisioning scripts

The repository has two command-line scripts for a vSphere endpoint.

- `create_vm.py` creates a virtual machine. It checks the name is unused. It checks the CPU count, memory (GB) and disk size (GB) against the capacity the cluster reports. It converts memory to MB and disk to KB. It builds a create request with one NIC and one SCSI controller. It then adds the disk in a second reconfigure call, on a SCSI unit number taken from the VM's devices.
- `create_vswitch.py` checks an MTU, a port count and a VLAN id. It takes an optional physical NIC. It then adds a virtual switch on every host of the cluster, and then a port group on every host.

This Dafny project models that logic. The inventory the scripts read (VM names, networks, core count, effective memory, datastores, a VM's devices, the cluster's hosts) is plain data. The remote calls are values. For the VM script they come back as a sequence in issue order. For the switch script they are appended to the `log` of a `ClusterNetwork` object.

Files:

- `wrappers.dfy`: `Option`, `Result`.
- `numerals.dfy`: `str.isdigit` and `int(str)` on ASCII digits.
- `create_vm.dfy`: module `CreateVm`.
- `create_vswitch.dfy`: module `CreateVswitch`.

Behaviour kept exactly as the code has it, including where the code and its usage text and comments differ:

- VM script, argument count:
  - The first check is `len(argv) < 6`.
  - `argv[6]` (the provisioning mode) is read only after the CPU, memory and disk checks.
  - So with exactly six entries, an earlier failure is reported. The usage error comes only when every earlier check passes, or when there is no `NFS_share` datastore (see below).
  - Fewer than six entries always give the usage error, unless the datastore list is empty (see below).
- VM script, provisioning mode: the usage text advertises `true/false`, but the code accepts only `thin` or `thick` and rejects anything else.
- VM script, CPU: a count of `0` is accepted, because it passes `isdigit` and `0 < cores`. No positivity check exists.
- VM script, disk check: a missing `NFS_share` datastore makes the `[0]` in `datastore_space_check` raise IndexError. The IndexError handler then prints the usage text. The model reports that as `Usage`.
- VM script, crashes before any call:
  - An empty datastore list fails when the datastore is read, outside the try block. The model reports `Crashed(NoDatastore)`.
  - A port group with no matching network fails on `net_name.name` before `CreateVM_Task`. The model reports `Crashed(NoNetwork)`.
- VM script, crashes after the create call: if no device has a nonzero unit number, `unit_number` is unbound after the create call has been issued. The same happens to `controller` when the VM has no LSI Logic controller. In both cases the create call is still in the log.
- Switch script, MTU: exactly 1500 and 9000 are neither rejected nor converted at validation. `create_switch` still applies `int()`, so the switch gets 1500 or 9000.
- Switch script, VLAN id:
  - 0 and 4095 stay strings.
  - Values above 4095 print a message and stay strings. They are not rejected.
  - The string is handed to the port group's `vlanId` unchanged (`StrArg`).
- Switch script, NIC: a NIC is used only when there are exactly nine entries, and it is `argv[8]`. The usage text presents the NIC as the seventh user argument, which is `argv[7]`. The code never reads `argv[7]` (`Argv7NeverRead`).

## Model

| member | source | states |
|---|---|---|
| `CreateVm.ConvertGbToMb` | create_vm.py:83-88 | the result is a whole multiple of 1024, and `mb_to_gb` maps it back to the GB given |
| `CreateVm.ConvertGbToKb` | create_vm.py:90-95 | the result is a whole multiple of 2^20, and `convert_kb_to_gb` maps it back to the GB given |
| `CreateVm.ConvertKbToGb` | create_vm.py:97-101 | floor division: the result `g` satisfies `g*2^20 <= kb < (g+1)*2^20` |
| `CreateVm.MbToGb` | create_vm.py:103-107 | floor division: the result `g` satisfies `g*1024 <= mb < (g+1)*1024` |
| `CreateVm.GbMbRoundTrip` | create_vm.py:83-88 | `convert_gb_to_mb(x) == 1024*x`, and `mb_to_gb` gives `x` back, for every integer `x` |
| `CreateVm.GbKbRoundTrip` | create_vm.py:90-95 | `convert_gb_to_kb(x) == x*1024*1024`, and `convert_kb_to_gb` gives `x` back |
| `CreateVm.VmNameCheck` | create_vm.py:30-39 | true iff no child of the VM folder has the name |
| `CreateVm.MemoryCheck` | create_vm.py:41-58 | true iff at least one MB of effective memory is left over after the request |
| `CreateVm.CpuCheck` | create_vm.py:60-73 | true iff at least one reported core is left over after the request |
| `CreateVm.NfsStoreIndex` | create_vm.py:76 | the first datastore named `NFS_share`, or none iff no datastore has that name |
| `CreateVm.DatastoreSpaceCheck` | create_vm.py:75-81 | none iff there is no `NFS_share` datastore; otherwise true iff `(diskKb+1)*1024 <= freeSpace` bytes, i.e. the request is strictly below free space floor-divided by 1024 |
| `CreateVm.CapacityChecksAreStrict` | create_vm.py:54-73 | the CPU and memory checks accept iff the request is strictly below the capacity; a request equal to it is refused, one below is accepted |
| `CreateVm.ProvisionOf` | create_vm.py:279-283 | the mode is `Thin` iff the text is `thin` and `Thick` iff it is `thick` |
| `CreateVm.Validate` | create_vm.py:242-290 | a validated request has at least 7 entries and an unused name, and every quantity is strictly below the reported capacity |
| `CreateVm.ValidateAccepts` | create_vm.py:242-283 | validation succeeds iff all of these hold: 7+ entries, unused name, numeric CPU below the cores, numeric RAM with `1024*RAM` below effective memory, numeric disk fitting on the first `NFS_share`, mode `thin`/`thick`; the request then carries the CPU, `1024*RAM` MB, `disk*2^20` KB and the mode |
| `CreateVm.ValidateKeepsInputs` | create_vm.py:97-107 | on a validated request, `mb_to_gb` and `convert_kb_to_gb` give back the GB the user typed |
| `CreateVm.ShortArgvFails` | create_vm.py:243-244 | fewer than 7 entries never validate; fewer than 6 give the usage error |
| `CreateVm.ExistingNameRejected` | create_vm.py:246-248 | with 6+ entries, an existing name is the error, whatever the later arguments are |
| `CreateVm.ValidateIsFirstFailure` | create_vm.py:242-290 | against a list of the eleven checks, each judged on its own: `main` succeeds iff none fails, and otherwise reports the first failing one |
| `CreateVm.SelectNetwork` | create_vm.py:20-28 | the index of the first network with the port group's name, or none iff there is no such network |
| `CreateVm.VmConfigFor` | create_vm.py:131-181 | the request carries the VM's name, CPU count, MB and guest id, the path `[<datastore>] <name>`, and exactly the NIC on the chosen network followed by the SCSI controller with key 22, bus 0, device 0, unit 7, PCI slot 16 and no bus sharing |
| `CreateVm.VmConfigContents` | create_vm.py:136-181 | the request has these fixed contents: path `[<datastore>] <name>`; exactly two devices, the NIC on the selected network and then the SCSI controller with key 22, bus 0, unit 7; the validated CPU count and MB, both below capacity |
| `CreateVm.NextUnit` | create_vm.py:197-200 | the result is one past the unit, or two past it when one past would be 7; it is never 7 |
| `CreateVm.LastUnitNumberIsLast` | create_vm.py:195-200 | the unit number used is that of the last device whose unit number is set and nonzero; it is absent iff no device has one |
| `CreateVm.LastControllerIsLast` | create_vm.py:201-202 | the controller used is the last LSI Logic controller; it is absent iff there is none |
| `CreateVm.ScanDevices` | create_vm.py:195-202 | the device loop leaves `unit_number` as one past the last nonzero unit (skipping 7, so never 7) and `controller` as the last LSI Logic controller; each stays unbound when no device sets it |
| `CreateVm.AddDiskToVm` | create_vm.py:188-221 | the reconfigure call carries the disk with the requested KB, `thinProvisioned` iff the mode is thin, the chosen unit and the controller's key; it crashes on an unbound unit number first, then on an unbound controller |
| `CreateVm.CreateVmAndDisk` | create_vm.py:131-186 | without a network nothing is issued; otherwise the create call comes first, with the request above, and the reconfigure call follows iff the disk spec could be built |
| `CreateVm.RunScript` | create_vm.py:236-303 | a validation failure (an existing name, say) issues no call and reports the error; calls are issued iff validation passes and the network exists; at most two calls go out, and the VM is created iff both do, so a crash after the create call leaves only that call; once validation passes, any other outcome is the crash on a missing network, else on an unbound unit number, else on an unbound controller |
| `CreateVm.ExampleRequest` | create_vm.py:242-283 | 8 cores, 32768 MB and 1000 GB free, with `vm1 4 8 100 thin`: accepted, giving 8192 MB, 104857600 KB and path `[NFS_share] vm1` |
| `CreateVswitch.ClassifyMtu` | create_vswitch.py:108-115 | non-numeric and out-of-range values (`<1500` or `>9000`) are rejected, each with its own error; values strictly between are converted; 1500 and 9000 pass unconverted |
| `CreateVswitch.MtuBoundaries` | create_vswitch.py:109-115 | 1000, 1499 and 9001 are rejected; 1501 and 8999 are converted; 1500 and 9000 stay strings |
| `CreateVswitch.ClassifyPorts` | create_vswitch.py:117-123 | non-numeric is its own error, and numeric but outside `1..1024` is the range error; accepted iff numeric and `1 <= n <= 1024`, then converted |
| `CreateVswitch.ClassifyVid` | create_vswitch.py:127-134 | only non-numeric values are rejected; the message is printed iff the id is above 4095; the id is converted iff `0 < n < 4095`, and otherwise kept as typed |
| `CreateVswitch.VidBoundaries` | create_vswitch.py:128-134 | 1 and 4094 are converted; 0 and 4095 stay strings without a message; 4096 stays a string with the message |
| `CreateVswitch.NicArg` | create_vswitch.py:143-145 | the NIC is present iff there are exactly 9 entries, and it is `argv[8]` |
| `CreateVswitch.ValidateSwitchArgs` | create_vswitch.py:101-145 | fewer than 7 entries give the usage error; success iff the MTU and port checks pass and the VLAN id is numeric; the MTU error comes first, then the port error, then the VLAN error; the values are the classified ones |
| `CreateVswitch.Argv7NeverRead` | create_vswitch.py:101-145 | changing `argv[7]` never changes the outcome |
| `CreateVswitch.ScriptCalls` | create_vswitch.py:151-165 | nothing is issued on a validation failure; otherwise `2N` calls for `N` hosts, a switch call for each host in order and then a port-group call for each host in order |
| `CreateVswitch.ScriptCallsShape` | create_vswitch.py:151-165 | nothing is issued on a validation failure. Otherwise there are `2N` calls for `N` hosts. First come `N` switch calls in host order, with the typed port count and MTU, and the bridge iff a NIC was given. Then come `N` port-group calls in host order, with the name, switch and VLAN, and the fixed policy: promiscuous mode and forged transmits allowed, MAC changes refused |
| `CreateVswitch.SwitchCallsPrecedePortGroupCalls` | create_vswitch.py:151-165 | no switch call follows a port-group call |
| `CreateVswitch.SwitchMtuInRange` | create_vswitch.py:26-29 | every switch is created with the typed MTU, and it lies within 1500..9000, bounds included |
| `CreateVswitch.ClusterNetwork.CreateSwitch` | create_vswitch.py:17-31 | appends exactly one switch call per host, in host order, to the log |
| `CreateVswitch.ClusterNetwork.CreatePortGroup` | create_vswitch.py:33-57 | appends exactly one port-group call per host, in host order, with the fixed policy |
| `CreateVswitch.ClusterNetwork.RunScript` | create_vswitch.py:101-176 | returns the validation outcome and appends the script's calls: none on failure, otherwise the switches and then the port groups |
| `CreateVswitch.RunOnCluster` | create_vswitch.py:147-165 | on a fresh cluster: no calls on failure; otherwise `N` switch calls, one per host in order, followed by `N` port-group calls, one per host in order |

## Left out

- `connect()` in both scripts: the TLS session, the certificate fallback and the fixed credentials are network I/O. The `(1|2|3, payload)` dispatch on its result is not modelled either.
- `RetrieveContent` and the walk to the first datacenter and cluster are not modelled. The model starts from the values those lookups produce (`Inventory`, a VM's device list, the host list). The `childEntity[0]` failures on an empty inventory are not modelled. The `.datastore[0]` failure on an empty datastore list is modelled as `Crashed(NoDatastore)`.
- `CreateVM_Task`, `ReconfigVM_Task`, `AddVirtualSwitch` and `AddPortGroup` are records of what is sent. Their remote effect, their failures and pyVmomi's type checks are not modelled. That includes what pyVmomi does with a VLAN id left as a string. `CreateVmTask` does not record the `pool=resource_pool` argument of `CreateVM_Task`, because the resource pool comes from the inventory walk, which is not modelled.
- `sleep(5)` between the create call and the disk is not modelled. A VM created between validation and the reconfigure call is not modelled either. The model assumes the new VM is found by name, so the `[0]` lookup in `add_disk_to_vm` cannot fail.
- Console output is not modelled: the settings printout, the messages, `sys.exit`, `Disconnect`, and the `.formt` typo on the connection-failure path. The VLAN message is kept only as the `warned` flag.
- `str.isdigit` and `int()` are modelled for ASCII digits only. Other Unicode digits are not accepted.
