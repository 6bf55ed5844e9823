# Verified model of the Proxmox reconciliation engine

This project models the part of the Proxmox client library that takes a desired configuration and a
current one, plans the difference, carries the plan out against a server on which every call may
fail, and prints and parses the server's compact text formats. `dafny verify dfyconfig.toml` checks
all of it.

The modules follow the program:

* `Text`, `Keys`, `Settings`: splitting, decimal numbers, parameter names and `key=value` texts.
* `DiskPath`, `DiskOptions`: the printers and parsers of volume paths and device strings.
* `ApiParams`, `DiskPlan`, `DiskParams`, `DiskLaws`: the disk planner. The four buses are one generic
  bus with a prefix and a slot count (ide 4, sata 6, scsi 31, virtio 16); the slots of a bus are
  visited in any order, as a Go map is.
* `CpuAffinity`, `CpuFlags`, `Cpu`, `CloudInitNet`, `CloudInit`, `MemoryConfig`, `SerialConfig`,
  `TpmConfig`, `Config`: the other parts of the configuration call, and the delete list they share.
* `Hypervisor`: the server. A guest has a configuration in effect, a staged one with the pending
  changes, and a power state. Every call may fail, and every call is recorded with the states before
  and after it.
* `Reading`, `UpdateLaws`, `Update`: reading a guest back and `setAdvanced`, call by call.
* `Snapshots`, `Groups`, `Pools`, `Mac`: the snapshot forest, group members, pool members and the
  repeatable MAC addresses.

Go's objects that are updated in place are classes (`Params`, `UpdateChanges`, `LinkedVm`,
`Snapshot`, the servers); its values are datatypes. A Go `uint` is a 64-bit number, and its
conversions from and to `int` wrap around as they do in Go.

## Main results

* `Update.SetAdvanced` covers every run of an update or a creation, whatever calls fail. In all runs
  the power state is only changed when the caller allows it, and the guest only shut down or rebooted
  for pending changes; every resize that is asked for grows the disk it is for; and a drive that is not
  mentioned changes only when it is a displaced cloud-init disk. No call is made after one that failed,
  and an error is reported only when a call has failed, the validation refuses the configuration, or a
  deletion stays pending and no reboot is allowed. In a run without error every call has succeeded, the
  guest runs exactly when it did before, a reboot is reported exactly when changes are pending, and the
  TPM state is as wanted.
* Everything else of a run without error is as asked for as well, stated for each field of the
  configuration in terms of the texts the server then has (`Config.PartsAsAsked`): the CPU with its
  affinity, type and flags, the memory, the cloud-init parameters and interfaces, and the serial ports.
  What is set is there, what is cleared is gone, and what is not named stays. Two exceptions are exact: an
  empty CPU type is without effect when no flag is wanted (`Cpu.EmptyTypeIsNotSent`), and empty cloud-init
  fields remove nothing when the client sees no cloud-init configuration at all
  (`CloudInit.BlankUserIsNotRemoved`).
* Every mentioned slot then holds what was asked for, a kept disk that is not moved on the volume it
  was on, unless the slot can be missed, in one of two ways. A slot is misread when the file of a
  passthrough device is not absolute or has a comma, or when a separator is in the storage of a
  cloud-init disk or in the storage or the file of a CD-ROM. A disk is misnamed when it is kept, is to get
  other options, stays where it is, and has a path that is none the client prints for this guest and the
  base guest it takes for all. The configuration call of the run, if it can succeed, can leave a mentioned
  slot without what was asked for exactly in these cases (`UpdateLaws.MayMiss`, which a caller can check
  before the run), and creates a disk exactly where one is wanted and none is, or one that would have to
  shrink. The failing inputs are `UpdateLaws.CommaFileIsMisread`, `UpdateLaws.ColonIsoIsMisread`,
  `UpdateLaws.ForeignDiskIsMisnamed` and, for the disks of a template, `UpdateLaws.TemplateDiskIsMisnamed`.
* A run that starts with at most one cloud-init disk in effect and at most one staged, maybe another,
  never has two in effect or two staged, unless two slots may hold one after one of its configuration
  calls. A slot may hold one when its removal can stay pending, when one is staged there and stays,
  when one is wanted there, and when a text is sent there that the server may take for anything: a
  passthrough file that is not absolute, or a CD-ROM with a comma. A guest without pending changes gets no
  second one otherwise (`UpdateLaws.NoneWithoutPending`). The two configuration calls of a run, if they can succeed,
  can give the guest two disks in effect exactly in that case (`UpdateLaws.SecondPossible`, which a
  caller can check before the run). The states are `UpdateLaws.PendingRemovalAllowsTwo`,
  `UpdateLaws.StagedElsewhereAllowsTwo` and `UpdateLaws.RelativeFileAllowsTwo`.
* `Groups.SetMembers`: after a run without error exactly the named users are in the group, if and only
  if its name has no comma or no user is named; every other group of every user is as before, except
  for the names a group with a comma is read as. An error is reported only when the call for one of the
  planned updates has failed. `Groups.CommaGroupIsNotJoined` is the failing input.
* `MemoryConfig.UpdateConsistent` gives the exact condition under which a validated update keeps the
  balloon within the memory; `MemoryConfig.BalloonCanExceedMemory` is an update that does not.
* `CpuAffinity.AffinityRoundTrip`: decoding an encoded list ends, with the same CPUs in increasing
  order, exactly when the list does not hold both of the two largest values of an `int`;
  `CpuAffinity.TwoLargestNeverEnd` is the list that is never decoded to its end.
* `DiskOptions.FileRoundTrip` and `DiskOptions.DiskRoundTrip` say exactly which devices survive their
  text; `DiskOptions.FileCanSetOption` is a file that sets an option that was not asked for.
* `Pools.GuestSetPool` shows that joining a pool reports success whether or not the call succeeded,
  from version 8 of the server on; in every other case success means that the guest is in the pool it
  was to be in, provided it was in the pool the caller said. A failed change of pool before version 8
  can leave the guest in no pool.
* `Snapshots.TreeHoldsRooted` and `Snapshots.AllRootedExactly`: the tree is finite and holds exactly
  the snapshots whose chain of parents ends at a root, each once, and all snapshots exactly when all
  parents exist and none is its own ancestor. `Snapshots.EmptyNameLoops` shows why names must not be
  empty.

## Model

| member | source | states |
|---|---|---|
| Text.UintTextRoundTrip | proxmox/config_qemu_disk.go:217-249 | a 64-bit unsigned number printed through `int` and read back through `int` is the same number, also where the text is negative |
| Keys.NameInjective | proxmox/config_qemu_disk.go:728-760 | distinct parameters have distinct names |
| Keys.NamesInFull | proxmox/config_qemu_disk.go:728-760 | every parameter is sent under the name the server knows |
| Settings.SplitStringOfSettings | proxmox/util.go:247-259 | the loop builds the map in which the last part with a key wins |
| Settings.ReadPrinted | proxmox/util.go:247-259 | reading a head and printed options gives every option its value, and no other key |
| DiskPath.FormatDisk | proxmox/config_qemu_disk.go:217-249 | the text is the path of the volume named for the disk, in all four shapes |
| DiskPath.PathsInFull | proxmox/config_qemu_disk.go:217-249 | the four shapes, character by character |
| DiskPath.ParseDisk | proxmox/config_qemu_disk.go:443-503 | the parsed fields, and the write of the linked VM id, which happens only when there is a number for it |
| DiskPath.PathRoundTrip | proxmox/config_qemu_disk.go:443-503 | a printed path is parsed to the same id, storage, linked disk and syntax, to its format in file syntax and raw in volume syntax, and writes the linked VM id exactly when it is linked; if and only if the numbers that are read back fit an `int` |
| DiskPath.IdReadsBack | proxmox/config_qemu_disk.go:443-503 | a disk id is read back if and only if it fits an `int` |
| DiskPath.StorageReadsBack | proxmox/config_qemu_disk.go:443-503 | whatever the numbers, the storage is read back if and only if its name has no colon |
| DiskPath.PathInjective | proxmox/config_qemu_disk.go:217-249 | whatever the numbers, two volumes have one path exactly when they are equal, up to the format in volume syntax |
| DiskOptions.MapToApiValues | proxmox/config_qemu_disk.go:252-341 | the device string is its head followed by the options that differ from their defaults, in order |
| DiskOptions.MapToStruct | proxmox/config_qemu_disk.go:344-436 | what a device string is read as |
| DiskOptions.OptionsUnderTheirNames | proxmox/config_qemu_disk.go:252-341 | in the printed text every option has its value under its own name, a flag only on the buses that know it, and one with its default is absent |
| DiskOptions.CreationRoundTrip | proxmox/config_qemu_disk.go:252-341 | the text that creates a disk names the storage, the size in whole GiB or the placeholder, and the format, and reads as every option of the disk |
| DiskOptions.OptionsRoundTrip | proxmox/config_qemu_disk.go:252-341 | every option of a validated device is read back under the rules of its bus and the parser's defaults, which keep every option but I/O thread, read-only and SSD emulation on buses without them, if and only if the text in front of the options sets none that is not printed |
| DiskOptions.FileRoundTrip | proxmox/config_qemu_disk.go:344-436 | the string of every validated passthrough device gives back the file and all options if and only if the file is absolute and has no comma |
| DiskOptions.FileCanSetOption | proxmox/config_qemu_disk.go:344-436 | a file like `/dev/x,ro=1` is read as another file, with an option that was not asked for and all others as asked for |
| DiskOptions.DiskRoundTrip | proxmox/config_qemu_disk.go:344-436 | the string of every validated disk gives back its path and all options if and only if the storage has no colon and no comma, the numbers fit an `int`, and the path does not read as an option that is not printed; the last holds for every storage without `=` |
| DiskOptions.DeviceStringInjective | proxmox/config_qemu_disk.go:983-990 | two printed devices whose heads read as no option are equal only when their heads and their options are |
| DiskOptions.ResizeTextRoundTrip | proxmox/config_qemu_disk.go:857-870 | the size a resize sends is read back as that size |
| ApiParams.CdRomTextReads | proxmox/config_qemu_disk.go:51-59 | the text names the drive of the host, nothing, or the storage and the ISO file, and the media |
| ApiParams.CdRomTextInjective | proxmox/config_qemu_disk.go:950-953 | comparing the texts of two CD-ROMs compares storage and file |
| ApiParams.CloudInitTextReads | proxmox/config_qemu_disk.go:164-166 | the text names the storage and the format |
| ApiParams.CloudInitTextInjective | proxmox/config_qemu_disk.go:164-166 | comparing the texts of two cloud-init disks compares storage and format |
| ApiParams.TpmTextReads | proxmox/config_qemu_tpm.go:18-26 | the text of a TPM state gives back its storage and its version |
| ApiParams.AddToListAssembles | proxmox/util.go:148-153 | `AddToList` keeps the text under assembly a list of the names so far |
| ApiParams.ConcatAssembles | proxmox/config_qemu.go:246-258 | so does concatenating comma-prefixed names |
| ApiParams.TrimAssembled | proxmox/config_qemu.go:281-283 | cutting the leading comma leaves the well-formed list |
| ApiParams.NamedInList | proxmox/config_qemu.go:281-283 | the server, splitting the list, deletes exactly the keys it was assembled from |
| DiskPlan.SlotOrder | proxmox/config_qemu_disk_ide.go:69-80 | every mentioned slot is visited once, in any order |
| DiskPlan.Validate | proxmox/config_qemu_disk.go:1146-1188 | accepts exactly the layouts with valid slots and at most one cloud-init disk over all buses |
| DiskPlan.MarkChanges | proxmox/config_qemu_disk.go:798-823 | adds a resize exactly for a kept disk that grows, and a move exactly for one whose storage or format differs |
| DiskPlan.MarkDiskChanges | proxmox/config_qemu_disk.go:1097-1113 | the moves and resizes of all slots |
| DiskPlan.SelectInitialResize | proxmox/config_qemu_disk.go:1115-1144 | the resizes of all new disks whose size is no whole number of GiB |
| DiskPlan.CloudInitRemove | proxmox/config_qemu_disk.go:1034-1041 | names a current cloud-init disk exactly when a new one is wanted in another slot |
| DiskParams.MapToApiValues | proxmox/config_qemu_disk.go:939-1024 | a slot is set unless it already reads as wanted, and deleted exactly when nothing is wanted in an existing slot |
| DiskParams.MapStorages | proxmox/config_qemu_disk.go:1067-1081 | the parameters do not depend on the order of the slots, the delete list only in its order |
| DiskLaws.CreationsCoincide | proxmox/config_qemu_disk.go:978-997 | the pass that creates disks and the pass that resizes new ones agree on which disks are new |
| DiskLaws.ResizesAreDisjoint | proxmox/config_qemu_disk_ide.go:128-146 | no slot is in both resize lists, and none is moved and newly created |
| DiskLaws.WholeGibibytesNeedNoResize | proxmox/config_qemu_disk.go:253-259 | a disk of whole GiB is created at exactly its size |
| DiskLaws.MovesMember | proxmox/config_qemu_disk.go:798-823 | the move list has each kept disk with another storage or format once, and nothing else |
| DiskLaws.ResizesMember | proxmox/config_qemu_disk.go:798-823 | the resize list has each kept disk that grows once, and nothing else |
| DiskLaws.SlotPatchLaw | proxmox/config_qemu_disk.go:939-1024 | after the patch every mentioned slot reads as asked for or is absent, every other slot is unchanged, and no slot is both set and deleted |
| DiskLaws.PlanIsIdempotent | proxmox/config_qemu_disk.go:1067-1081 | the plan for slots that are as desired is empty exactly when each of them holds something |
| CpuAffinity.MapToApiAffinity | proxmox/config_qemu_cpu.go:592-622 | sorts the list in place and prints its ranges |
| CpuAffinity.EndsExactly | proxmox/config_qemu_cpu.go:670-672 | the loop over a range ends if and only if its bound is not the largest `int`, where the counter wraps around |
| CpuAffinity.MapToSdkAffinity | proxmox/config_qemu_cpu.go:663-678 | the list a text is decoded to, or that decoding never ends |
| CpuAffinity.AffinityRoundTrip | proxmox/config_qemu_cpu.go:592-622 | decoding an encoded list ends if and only if the list does not hold both of the two largest values of an `int`, and then gives the increasing list of the same CPUs; its ranges never touch |
| CpuAffinity.TwoLargestNeverEnd | proxmox/config_qemu_cpu.go:663-678 | the two largest values are one range that is never decoded to its end |
| CpuFlags.MapToApi | proxmox/config_qemu_cpu.go:29-101 | prints the new value of each flag if one is named, else the current one |
| CpuFlags.MapToSdk | proxmox/config_qemu_cpu.go:103-136 | the value each of the twelve flags is read as |
| CpuFlags.CpuReadsBack | proxmox/config_qemu_cpu.go:636-643 | the printed `cpu` text is read back as its type and its flags, also when the flags are empty |
| CpuFlags.FlagsOverlay | proxmox/config_qemu_cpu.go:540-574 | after an update each flag has its new value if named, else its current one, and none reads back as unset |
| Cpu.MapToApi | proxmox/config_qemu_cpu.go:516-590 | every CPU parameter that is set with its value, and the delete list |
| Cpu.SetsAndDeletesAreDisjoint | proxmox/config_qemu_cpu.go:516-590 | no CPU parameter is both set and deleted |
| Cpu.CallIsAsAsked | proxmox/config_qemu_cpu.go:516-590 | after a call cores, sockets, NUMA, limit, units and virtual cores are those given, zero removing the last three; the affinity decodes to the given CPUs; type and flags read as given or as before |
| Cpu.EmptyTypeIsNotSent | proxmox/config_qemu_cpu.go:540-574 | an empty type alone leaves the type of the guest |
| CloudInitNet.MapNetworkToApi | proxmox/config_qemu_cloudinit.go:473-498 | prints the new values over the current ones |
| CloudInitNet.MapNetworkToSdk | proxmox/config_qemu_cloudinit.go:500-543 | what a printed interface is read as |
| CloudInitNet.OverlayIsAsAsked | proxmox/config_qemu_cloudinit.go:320-423 | per family: a given value is there, an empty one is gone, an unnamed one stays, DHCP and SLAAC are those of a named family and take the place of its addresses |
| CloudInitNet.NetworkReadsBack | proxmox/config_qemu_cloudinit.go:500-543 | a printed interface is read back |
| CloudInit.MapInterfacesToApi | proxmox/config_qemu_cloudinit.go:559-576 | each interface is set to its overlay, or deleted when nothing is left of it, in any order of the map |
| CloudInit.MapInterfacesToSdk | proxmox/config_qemu_cloudinit.go:578-589 | every interface that is present is read, a text of one character counting as absent |
| CloudInit.InterfacesReadBack | proxmox/config_qemu_cloudinit.go:578-589 | reading back after the update gives every field of a named interface as given, gone when empty, else as before; an interface left with nothing is gone; others have their text |
| CloudInit.MapToApi | proxmox/config_qemu_cloudinit.go:62-138 | every cloud-init parameter that is set with its value, and the delete list |
| CloudInit.DetailsAreAsAsked | proxmox/config_qemu_cloudinit.go:62-138 | after a call the user, the password, the domain, the name servers, the keys, the upgrade flag and the custom files are those given, empty ones are gone if the client saw a configuration, others are as before |
| CloudInit.BlankUserIsNotRemoved | proxmox/config_qemu_cloudinit.go:140-191 | a blank user name alone is no configuration to the client, and is not removed |
| CloudInit.ConcatenatedAppend | proxmox/config_qemu_cloudinit.go:38-48 | the encoded keys are sent one behind the other |
| CloudInit.SetsAndDeletesAreDisjoint | proxmox/config_qemu_cloudinit.go:62-138 | no cloud-init parameter is both set and deleted |
| MemoryConfig.Validate | proxmox/config_qemu_memory.go:82-119 | accepts exactly the requests that meet the limits and leave something to share |
| MemoryConfig.MapToApi | proxmox/config_qemu_memory.go:21-60 | what is sent, with its early returns |
| MemoryConfig.CallIsAsAsked | proxmox/config_qemu_memory.go:21-60 | after a call memory, balloon and shares in terms of the given fields, a balloon pulled down to a smaller capacity, and shares removed with the balloon |
| MemoryConfig.UpdateConsistent | proxmox/config_qemu_memory.go:21-60 | a validated update keeps the balloon within the memory if and only if it names a capacity, names no balloon, or names one within the current capacity |
| MemoryConfig.BalloonCanExceedMemory | proxmox/config_qemu_memory.go:82-119 | a validated update after which the balloon exceeds the memory |
| MemoryConfig.BalloonWithinMemory | proxmox/config_qemu_memory.go:21-60 | over every sequence of such updates the balloon stays within the memory |
| MemoryConfig.BalloonWithinMemoryForLife | proxmox/config_qemu_memory.go:21-60 | so it does from the creation of the guest on |
| MemoryConfig.SharesImplyBallooning | proxmox/config_qemu_memory.go:82-119 | whenever shares are sent, the resulting balloon differs from the resulting memory |
| SerialConfig.MapToApi | proxmox/config_qemu_serial.go:81-105 | the ports that are set and deleted, in any order of the map |
| SerialConfig.CallIsAsAsked | proxmox/config_qemu_serial.go:81-105 | after a call a named port is gone, a socket or at its path, and any other is as before |
| TpmConfig.MapToApi | proxmox/config_qemu_tpm.go:18-26 | the TPM state is created exactly when there is none, and named for deletion when asked |
| TpmConfig.VersionTexts | proxmox/config_qemu_tpm.go:79-87 | the versions under their names |
| Config.MapToApi | proxmox/config_qemu.go:148-285 | the parameters of all parts with their values, and one delete list of what the parts asked for |
| Config.RequestedMember | proxmox/config_qemu.go:211-258 | an item is in the list exactly when one of the parts asks for it, whatever the order of the maps |
| Config.SetsAndDeletesAreDisjoint | proxmox/config_qemu.go:211-258 | no item is both deleted and set |
| Config.RequestedOnce | proxmox/config_qemu.go:211-258 | no item is asked for twice |
| Config.DeleteListIsWellFormed | proxmox/config_qemu.go:281-283 | the list splits into exactly the names asked for, each once, with no empty item and none that is also set |
| Config.CallIsAsAsked | proxmox/config_qemu.go:211-283 | after a call every parameter that is no drive and no TPM state is as asked for, part by part, and what no part names is as before |
| Reading.ReadDisks | proxmox/config_qemu_disk.go:1083-1095 | what the client sees of the drives, and that its linked VM id is that of the last linked disk in the order of buses and slots, else zero |
| Reading.UpdateNamesAttachedVolume | proxmox/config_qemu_disk.go:983-990 | the path of an in-place update is that of the attached volume, whatever that is, if and only if it has one of the four shapes, for a volume `vm-<guest>-disk-<number>` of the guest and a base of the linked VM |
| Reading.AttachedExactly | proxmox/config_qemu_disk.go:217-249 | of the printable paths exactly those of the guest's own volumes with a base of the linked VM are named |
| Reading.BaseIsNotAttached | proxmox/config_qemu_disk.go:217-249 | the path of a template's disk is never named |
| Reading.KeptDiskPlan | proxmox/config_qemu_disk.go:983-990 | a kept disk is left alone if it has the desired options, whatever its volume is, else planned as the path the client names for it with these options |
| UpdateLaws.KeepsOneEach | proxmox/config_qemu.go:603-689 | no call adds a second cloud-init disk, in effect or staged, unless two slots may hold one after a configuration call |
| UpdateLaws.OthersStayUntouched | proxmox/config_qemu.go:603-739 | no call touches a drive that is not mentioned, except for a displaced cloud-init disk |
| UpdateLaws.MarkedChangesPrepare | proxmox/config_qemu.go:603-617 | after the moves and resizes every kept disk has its storage, format and size, and every other slot is as it was |
| UpdateLaws.ResizesGrow | proxmox/config_qemu_disk.go:798-810 | every marked resize asks for more than the slot has then |
| UpdateLaws.ReadyWithoutMoves | proxmox/config_qemu.go:653-659 | without moves the first reading is still good for the plan |
| UpdateLaws.ReadyAfterReading | proxmox/config_qemu.go:653-659 | after moves the plan made from the second reading keeps the same disks |
| UpdateLaws.PlannedSlot | proxmox/config_qemu_disk.go:939-1024 | the configuration call makes a slot hold what was asked for, a new disk in the size it is created with and a kept one on its volume, unless it is a passthrough device that is misread or a kept disk with other options that the client does not name |
| UpdateLaws.MissExactly | proxmox/config_qemu_disk.go:939-1024 | under some outcome of the call a mentioned slot does not hold what was asked for if and only if it is such a device or disk |
| UpdateLaws.SecondExactly | proxmox/config_qemu.go:671-678 | under some outcome of a configuration call the guest has two cloud-init disks in effect if and only if two slots may hold one after it |
| UpdateLaws.NewDisksExactly | proxmox/config_qemu_disk.go:978-997 | the call creates a disk exactly where one is wanted and none is, or one that would have to shrink |
| UpdateLaws.SettledSlotIsLeftAlone | proxmox/config_qemu_disk.go:939-1024 | nothing is sent for a slot that is as asked for |
| UpdateLaws.HolderIsPlanned | proxmox/config_qemu_disk.go:939-1024 | which slots may hold one after a planned call, in terms of what is desired |
| UpdateLaws.NoneWithoutPending | proxmox/config_qemu.go:615-675 | a guest without pending changes gets no second cloud-init disk when the one it has is moved to another slot |
| UpdateLaws.InitialResizesGrow | proxmox/config_qemu_disk.go:1241-1252 | every resize of a new disk asks for more than it was created with |
| UpdateLaws.InitialResizesFinish | proxmox/config_qemu_disk.go:1241-1252 | after the resizes of new disks every mentioned slot holds exactly what was asked for |
| UpdateLaws.CanonicalIsNamed | proxmox/config_qemu_disk.go:217-249 | nothing is misnamed when every disk has a path the client prints for this guest and all linked ones share a base guest |
| UpdateLaws.ForeignDiskIsMisnamed | proxmox/config_qemu_disk.go:217-249 | a disk of another guest whose options are to change is misnamed |
| UpdateLaws.TemplateDiskIsMisnamed | proxmox/config_qemu_disk.go:217-249 | so is a disk of the guest itself that has the name of a base image, in both syntaxes |
| UpdateLaws.CommaFileIsMisread | proxmox/config_qemu_disk.go:1003-1015 | a validated file with `,ro=1` behind it is sent in a call that can succeed and leaves a read-only device with another file |
| UpdateLaws.ColonIsoIsMisread | proxmox/config_qemu_disk.go:950-953 | an ISO file with a colon in its storage, whose text is that of another one on the server, which stays |
| UpdateLaws.PendingRemovalAllowsTwo | proxmox/config_qemu_disk.go:1034-1065 | a state with one cloud-init disk in which a second one is possible, and the outcome with two |
| UpdateLaws.StagedElsewhereAllowsTwo | proxmox/config_qemu.go:671-678 | with one disk in effect and another staged, a call that changes nothing can give the guest two |
| UpdateLaws.RelativeFileAllowsTwo | proxmox/config_qemu_disk.go:1003-1015 | so can a call that sets a passthrough device whose file is not absolute |
| Update.ChangeDisks | proxmox/config_qemu.go:603-617 | moves, then resizes, then the displaced cloud-init disk |
| Update.DeleteBeforeUpdate | proxmox/config_qemu.go:630-651 | the items are gone and nothing is pending, or a call has failed, or changes stay pending and no shutdown is allowed; the guest is shut down only when allowed |
| Update.DeletionHolds | proxmox/config_qemu.go:630-651 | two slots may hold a cloud-init disk after the deletion before the update if and only if a caller can tell so before the run |
| Update.SecondIsForeseen | proxmox/config_qemu.go:615-675 | two slots may hold a cloud-init disk after the configuration call if and only if a caller can tell so before the run, given whether the guest runs at the call |
| Update.MissIsForeseen | proxmox/config_qemu.go:653-675 | a slot can be missed by the call if and only if a caller can tell so before the run, also after moves and a second reading |
| Update.UnnamedIsMisnamed | proxmox/config_qemu.go:653-675 | the client does not name the volume of a kept disk in the call if and only if the slot is misnamed from the start |
| Update.PutConfig | proxmox/config_qemu.go:671-678 | the configuration call leaves every mentioned slot as planned, every other one as it was, and every other parameter as asked for, and what it can do else is exact |
| Update.RestorePower | proxmox/config_qemu.go:695-715 | the guest runs as before, and a reboot is reported exactly when changes are pending and none is allowed |
| Update.SetAdvanced | proxmox/config_qemu.go:582-739 | in every run no call follows a failed one, an error has one of three causes, the power is changed only when allowed and due, resizes grow, drives that are not mentioned stay untouched, and there is no second cloud-init disk unless one is possible from the start; in every run without error every call has succeeded, every slot that cannot be missed, the TPM state and every other parameter are as asked for, kept disks that are not moved are on their volumes, the power is restored, a reboot is reported exactly when changes are pending, and else the HA state is updated last; and both exceptions are exact for the calls that are made |
| Snapshots.FormatSnapshotsList | proxmox/snapshot.go:93-114 | one new snapshot per entry, with the entry's fields |
| Snapshots.FormatSnapshotsTree | proxmox/snapshot.go:117-134 | children in list order, every parent cleared, and the roots, on the heap |
| Snapshots.ChildrenNameTheirParent | proxmox/snapshot.go:119-126 | with distinct names a snapshot's children are exactly those that name it as parent |
| Snapshots.ForestIsWhole | proxmox/snapshot.go:117-134 | the forest is finite: from the length of the list on, every depth shows the same |
| Snapshots.ForestHoldsRooted | proxmox/snapshot.go:117-134 | to every such depth the forest has each snapshot whose chain of parents ends at a root once, and no other |
| Snapshots.TreeHoldsRooted | proxmox/snapshot.go:117-134 | following children on the heap from the returned tree comes to an end and reaches exactly these, each once |
| Snapshots.AllRootedExactly | proxmox/snapshot.go:117-134 | nothing is lost exactly when all parents exist and no snapshot is its own ancestor |
| Snapshots.EmptyNameLoops | proxmox/snapshot.go:119-126 | a snapshot without name and parent becomes its own child |
| Groups.UserRoundTrip | proxmox/config_user.go:427-438 | an id is read back exactly when both parts are non-empty and have no `@` |
| Groups.UserTextRoundTrip | proxmox/config_user.go:329-341 | a text is printed back exactly when it reads as an id or is empty |
| Groups.CsvRoundTrip | proxmox/config_group.go:129-171 | a group list survives its text exactly when no name has a comma and it is not one empty name |
| Groups.RemoveAllUsersFromGroupExcept | proxmox/config_group.go:246-281 | the users that are members and not named, without the group |
| Groups.UsersToAddToGroup | proxmox/config_group.go:316-340 | the named users that are no members, with the group |
| Groups.AccessServer.UpdateUsersMembership | proxmox/config_user.go:294-305 | the updates are made in order until one fails, and an error means that the call for the next one was made and failed |
| Groups.SetMembers | proxmox/config_group.go:304-314 | every user has the old or the wanted list whatever fails, and when nothing does exactly the named users are in the group unless its name has a comma, and all other memberships are as before; an error means that the call for a planned update failed, and one does fail when a user has to be removed whose id does not read as one |
| Groups.PhasesAreDisjoint | proxmox/config_group.go:304-314 | no user is updated in both phases |
| Groups.WantedMembership | proxmox/config_group.go:246-340 | the wanted list has the group exactly when the user is named and the name of the group has no comma, and every other group as often as before, but for the names a group with a comma is read as |
| Groups.CommaGroupIsNotJoined | proxmox/config_group.go:304-314 | a user named for the group `x,y` joins `x` and `y` instead |
| Groups.OnlyNamesMatter | proxmox/config_group.go:304-314 | any two member lists that name the same users lead to the same memberships |
| Groups.RepeatedEntryChangesNothing | proxmox/config_group.go:316-340 | in particular when a user is named once more |
| Pools.SubtractArray | proxmox/util.go:262-273 | the items that are not in the other list, in order |
| Pools.SubtractIs | proxmox/util.go:262-273 | as a set, the difference |
| Pools.NamesExactly | proxmox/config_pool.go:350-358 | the text of a list of guests names exactly these guests |
| Pools.GuestsToRemoveFromPools | proxmox/config_pool.go:327-347 | the guests to add, grouped by the pool the records tell |
| Pools.AddMissing | proxmox/config_pool.go:203-226 | before version 8 guests leave their pools first; with records that carry pools none is added that is still in one, and without, that happens exactly when one is |
| Pools.SetGuests | proxmox/config_pool.go:438-445 | both protocols lead to the same contents, on the way only the given guests leave other pools, and an error means that one call failed |
| Pools.AssignedMeans | proxmox/config_pool.go:438-445 | exactly the given guests are in the pool, every guest in at most one, all others where they were |
| Pools.GuestSetPool | proxmox/config_guest.go:186-218 | success means that the guest is where it was to be, except when joining from version 8 on, where the error is dropped, also when the pool does not exist, and except when the caller's idea of the current pool is wrong and the guest is to leave all pools or to stay; a failure changes nothing, or leaves the guest in no pool |
| Mac.FillMac | proxmox/config_qemu.go:1150-1162 | the six bytes that are filled |
| Mac.Recoverable | proxmox/config_qemu.go:1150-1162 | below 2^19 guests and 32 interfaces both numbers can be recovered |
| Mac.Injective | proxmox/config_qemu.go:1150-1162 | distinct pairs in that range get distinct addresses |
| Mac.CollisionsExactly | proxmox/config_qemu.go:1150-1162 | two pairings collide exactly when their low 24 bits are equal |
| Mac.BoundsAreSharp | proxmox/config_qemu.go:1150-1162 | the next guest number and the next interface number collide |

## Left out

- The server of `Hypervisor` is what the client can rely on, not the server's code: volumes it creates on block storages are raw and named in volume syntax, all others are named in file syntax, and another format is refused; a move or resize of a slot with a pending change fails; a resize never shrinks; storage names have none of the separators of the formats; a passthrough text that starts with a slash becomes the device it reads as, and is refused when its options are not valid (one with `media=cdrom` behind a comma is taken for a device all the same); addresses of interfaces consist of the characters of addresses.
- Reading.SeenDisk: the format of an existing volume is the one its path is read as, which is raw when its name has more than one dot.
- Update.SetAdvanced: the guest stays on its node, the desired `Iso` is nil, and the pool call inside an update is not followed, because its error is dropped there.
- Update.ValidateConfig: checks disks, memory, TPM, serial ports and interfaces; what the other validators say is a parameter.
- Update.ReadConfig: the TPM state is taken as a structured value, and the CPU type on the server as one the client recognises.
- Cpu.Read: an affinity whose decoding never ends counts as an empty list.
- Reading.ReadDisks: the `size` item of a drive and the texts of CD-ROM and cloud-init drives, which the server rewrites, are taken as structured values.
- DiskOptions.MapToApiValues: does not print the bandwidth limits in MB/s, because they are floating point.
- DiskOptions.MapToStruct: does not read them either.
- DiskOptions.OptionsRoundTrip: all options but these limits.
- CloudInitNet.NetworkReadsBack: an address is any text of the characters addresses are made of; the exact syntax of IP addresses is not modelled.
- CloudInit.MapToApi: the encoded texts of ssh keys and the text of the custom snippets are parameters.
- Cpu.MapToApi: the printed name of a recognised CPU type is a parameter; the type table is not modelled.
- Cpu.PrintAffinity: sorts a copy; the sorting of the caller's list in place is stated by CpuAffinity.MapToApiAffinity.
- Config.MapToApi: parameters that are copied one by one, networks, vga, usb, pci, rng and EFI.
- Pools.GuestSetPool: the current pool is given; the code dereferences it without a check.
- Group members that are only added or only removed, group and pool creation and deletion.
- HTTP session, task polling, login, upload, node migration, storage, SDN, ACME, metrics and containers.
