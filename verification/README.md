# crio-lxc, modelled and proved in Dafny

crio-lxc is an OCI container runtime on top of liblxc. This project models four parts of it and proves
what they promise.

* **The container lifecycle** (`Lifecycle*.dfy`). create, start, state, kill and delete are separate
  operating-system processes that share a runtime directory, a pid file, a FIFO and what liblxc reports. The
  model is a transition system: a process makes one system call per step, any number of processes interleave,
  every process may crash after any step, and monitor and init take steps of their own. A FIFO that is held
  open outlives the removal of its directory. Theorems are about all runs: some of every run
  (`LifecycleEveryRun`, `LifecycleExclusion`), the others of runs with well-timed removals.
  `LifecycleExclusion`, `LifecycleLimits` and `LifecycleDelete` say exactly which removals are well timed, and
  show concrete runs where the guarantees end; `LifecycleExample` shows that a run in which every command
  succeeds exists.
* **Mount destinations** (`Paths`, `HostFs`, `Mkdir`, `Host`, `Resolve`, `Destinations`, `Mounts`,
  `MountTheorems`). A file system tree with symbolic links and the kernel's path walk; Go's path strings; the
  resolver that follows one level of links by hand, compared with a chroot-style reference that follows all;
  `mkdirAll`, which finds parents by scanning bytes, compared with path components; the mount loop.
* **Files between Go and C** (`InitFiles`, `InitTheorems`, `Devices`, `DeviceFile`, `ContainerHook`). The
  runtime prints `cmdline`, `environ` and `devices.txt`; C programs inside the container read them with fixed
  buffers and `fscanf`, and the hook makes the device nodes in the file system tree.
* **Translations for LXC** (`LxcConfig`, `DeviceRules`, `CgroupPath`, `Namespaces`). Device rules and default devices, the
  systemd cgroup path, the namespaces to keep and the clone flags.

Three conditions on the removals of the runtime directory matter, each for its own guarantee.

* That no two creates which passed createContainer are in flight together: no removal may find a create in
  flight that has made container.json (`LifecycleExclusion.TwoWinnersExactly`). That at most one create wins
  per generation in which container.json was made needs no condition at all.
* That every load reads the files of one create, and that these stay until the removal: no removal may find a
  create between making container.json and the rename of `.config` (`LifecycleLimits.MixturesExactly`). Such a
  run is called *calm*.
* That no init is alive at a removal, and what follows from that for successful commands: a run is *orderly* if
  every removing delete, at the step at which it went on to destroy, saw the directory, no create in flight and
  no launched monitor that had yet to fork init, and nobody removed the directory in between.
  In `LifecycleLimits.RemovalWithInitAlive` no removal finds a create in flight, and still init is alive;
  `LifecycleDelete.DeleteIsSafeExactly` gives the exact condition on a deciding delete.

The order of the observations, of the rendezvous and of the exec needs none of them.

## Model

| member | source | states |
|---|---|---|
| LifecycleFiles.EventKeepsGuards | lxcontainer/runtime.go:43-93 | As long as no removal finds a create in flight, every event keeps the guards of create: `.config` held from its exclusive creation to its rename, container.json from its exclusive creation to removal. |
| LifecycleCalm.EventKeepsCalm | lxcontainer/runtime.go:43-120 | Every event of a calm run keeps what a create holds from making container.json to the rename (container.json throughout, `.config` once opened), the files of one create, and what the loaders read. |
| LifecycleExclusion.OneCreateWins | lxcontainer/runtime.go:43-93 | In every run, of any number of concurrent creates at most one passes createContainer per generation of the runtime directory in which container.json was made, although the rename frees `.config` again. |
| LifecycleExclusion.NoTwoWinnersInFlight | lxcontainer/runtime.go:45-63 | As long as no removal finds a create in flight that has made container.json, no two creates that passed createContainer are ever in flight together. |
| LifecycleExclusion.TwoWinnersExactly | lxcontainer/runtime.go:43-93 | For every run: two such creates in flight together are within reach of it if and only if some removal in it finds a create that has made container.json. |
| LifecycleExclusion.RemovalLetsAnotherWin | lxcontainer/runtime.go:43-93 | After any removal that finds such a create, also one that has yet to write container.json, it and a new create can both come to win. |
| LifecycleCalm.LoadedFilesAreTheWinners | lxcontainer/runtime.go:95-120 | In calm runs loadContainer returning nil means container.json and config were complete and both written by the one create that won and saved, with crashes allowed after any step. |
| LifecycleCalm.FilesStayUntilRemoval | lxcontainer/runtime.go:422-445 | In calm runs container.json and config, once complete, stay as they are until the directory is removed. |
| LifecycleLimits.MixturesExactly | lxcontainer/runtime.go:65-120 | For every run: a load of files that are not those of one create is within reach of it if and only if some removal in it finds a create between making container.json and the rename. |
| LifecycleLimits.RemovalMixesFiles | lxcontainer/runtime.go:422-445 | After any such removal the create found can put its config, or an empty one, next to the container.json of a new create, and a command loads both. |
| LifecycleSafety.EventKeepsInv | lxcontainer/runtime.go:43-567 | The invariant over files, monitor, init, FIFO, pid files and all processes is kept by every event of an orderly run. |
| LifecycleTheorems.CreateReturnsCreated | lxcontainer/create.go:64-117 | A create that returned nil left its own complete config, a pid file holding exactly its monitor's pid, and a monitor that booted init. |
| LifecycleEveryRun.CreateWaitsForCreated | lxcontainer/runtime.go:265-287 | In every run, a create that returned nil saw RUNNING and later, in a separate read, init state "created". |
| LifecycleTheorems.CreateObservesItsOwn | lxcontainer/runtime.go:265-287 | In an orderly run the "created" that a create observes is that of the container it launched. |
| LifecycleTheorems.OneStartReadsFifo | lxcontainer/runtime.go:484-503 | Among any number of concurrent starts at most one reads the message of a FIFO, also after its directory was removed. |
| LifecycleTheorems.StartReturnsStarted | lxcontainer/runtime.go:447-478 | A start that returned nil read the message, and init has left the created state. |
| LifecycleEveryRun.ExecNeedsStart | cmd/init/crio-lxc-init.c:271-291 | In every run, hostile removals included, init is past its open of a FIFO, and so the user's process exec'd, only after some start observed "created" and, later, opened that same FIFO. |
| LifecycleEveryRun.StartReadsTheMessage | lxcontainer/runtime.go:447-503 | In every run, a start that returned nil observed "created" and, later, read the message of the FIFO it had opened, be its directory removed or not. |
| LifecycleTheorems.NeverReportsCreating | lxcontainer/runtime.go:526-552 | A successful state call never reports "creating", and not more progress than there is. |
| LifecycleTheorems.StatesNeverGoBack | lxcontainer/runtime.go:318-356 | If one successful state call ended before another looked, the second reports no earlier status, although state, init pid and cmdline are read in separate steps. |
| LifecycleTheorems.RemovalIsSafe | lxcontainer/runtime.go:505-524 | At every removal of an orderly run no create is in flight and no init is alive; on the drained path the cgroup is empty. |
| LifecycleCalm.RemovalHasCause | lxcontainer/runtime.go:505-524 | In every calm run, a delete that goes on to destroy saw STOPPED, saw the cgroup unpopulated, or failed to load a container whose config was never saved. |
| LifecycleDelete.DeleteIsSafeExactly | lxcontainer/runtime.go:505-524 | For a delete at the step that goes on to destroy: init is dead at its removal in all continuations if and only if the directory is there, no create in flight may still launch a monitor and no launched monitor has yet to fork init. |
| LifecycleDelete.QuietIsEnough | lxcontainer/runtime.go:505-524 | It is so if at that step no create is in flight and no launched monitor has yet to fork, whatever the delete saw when it first looked. |
| LifecycleDelete.LateCreateIsHarmless | lxcontainer/runtime.go:43-63 | A create in flight that will find container.json there does no harm, so that quiet is not needed. |
| LifecycleLimits.RemovalWithInitAlive | lxcontainer/runtime.go:505-524 | A run in which no removal finds a create in flight, and still init is alive at one: a create dies right after launching its monitor, a delete sees STOPPED and passes Destroy, and only then init boots. |
| LifecycleLimits.TwoWinnersWithoutCalm | lxcontainer/runtime.go:45-93 | A run from the beginning with two winners in flight. |
| LifecycleExample.EverythingSucceeds | lxcontainer/runtime.go:447-478 | An orderly run in which a create and a start return nil and the user's process runs. |
| Host.Host.MkdirAll | lxcontainer/utils.go:122-164 | The byte-scanning recursion does exactly what `MakeAll` does on path components, for every path with repeated or final slashes, links and "..". |
| Host.LastElement | lxcontainer/utils.go:133-142 | The two scans stop at the last element but for final slashes. |
| Host.ParentParts | lxcontainer/utils.go:133-146 | The scanned element and the path before it are the last component and the components before it. |
| Host.MakePathMakes | lxcontainer/utils.go:122-164 | For every path: on success it is a directory, nothing is gone or changed, and all that is new is a directory with the given mode and owner. |
| Mkdir.MakeAllExactly | lxcontainer/utils.go:122-164 | For every path: mkdirAll makes exactly the missing directories on the way to the path's spot (links followed) and succeeds, or makes nothing and fails where there is no spot, if and only if no ".." follows right after a part that is missing and can be made; the path then leads to the spot. |
| Mkdir.WithAllAddsAncestors | lxcontainer/utils.go:144-163 | What is added are exactly the missing ones of the spot and its ancestors. |
| Mkdir.DetourLeavesDirectory | lxcontainer/utils.go:144-162 | For every path with such a "..", the directory in front of it is made and stays, whether the call succeeds or fails. |
| Mkdir.DetourIsNotUndone | lxcontainer/utils.go:144-163 | So the tree has changed, and the new directories are those on the way to one place only if that place lies in the directory made on the detour. |
| Mkdir.ShortDetour | lxcontainer/utils.go:144-163 | The tree after "a/../b" with a missing: a is left behind in both outcomes, though no ancestor of b. |
| Paths.DirDropsName | lxcontainer/mount.go:80 | The directory made for a file mount point is the destination without its last name. |
| Resolve.ResolvesLikeChroot | lxcontainer/mount.go:98-164 | On tame inputs the resolved destination is the cleaned root path followed by the chroot-style resolution, with no link on the way. |
| Destinations.PlainLinksResolve | lxcontainer/mount.go:98-164 | The same from conditions on the tree alone: plain link targets and no ".." in the destination. |
| Destinations.ClearExactlyIfTame | lxcontainer/mount.go:98-164 | Where neither the destination nor a link leads up or to an absolute path, the result is clear of links if and only if the input is tame. |
| Destinations.ResolvingAgain | lxcontainer/mount.go:148-164 | Resolving the result again, relative to the root, gives the same path. |
| Destinations.MissJoinsTheRest | lxcontainer/mount.go:156-161 | For every input: on failure the entries before some entry were resolved, that entry could not be looked up, and the result is the path so far joined with it and all others. |
| Destinations.BelowHasPrefix | lxcontainer/mount.go:37-41 | No destination below a clean root path is refused as an escape. |
| Destinations.CheckComparesBytes | lxcontainer/mount.go:37-41 | For all cleaned paths: the test for escapes lets a path pass if and only if it has the root's components, of which the last need only be the beginning of its counterpart. |
| Destinations.EscapesPassExactly | lxcontainer/mount.go:37-41 | For every destination and clean root: it passes if and only if it is inside the root or a component that properly extends the root's last one stands in its place (or, only under a relative root of nothing but "..", it goes further up). |
| Destinations.SiblingPassesTheCheck | lxcontainer/mount.go:37-41 | A destination that climbs with ".." to a sibling whose name starts with the root's name passes the check though it is not below the root. |
| Destinations.LinkToLinkStays | lxcontainer/mount.go:107-127 | A link to a link is resolved one level only; the result is a link. |
| Destinations.RootedTargetStays | lxcontainer/mount.go:117-123 | A link whose absolute target starts with the root path is not resolved. |
| Destinations.DotDotAfterMissing | lxcontainer/mount.go:156-161 | ".." after a missing entry is taken lexically and can end at a link. |
| Mounts.Runtime.ResolveMountDestination | lxcontainer/mount.go:148-164 | The loop over the entries computes the resolution that the theorems are about. |
| Mounts.Runtime.CreateMountDestination | lxcontainer/mount.go:67-96 | The tree, the result and the added option: a file for a source that is no directory, a directory otherwise, failure for a missing bind source. |
| Mounts.Runtime.ConfigureMounts | lxcontainer/mount.go:12-56 | Items and tree after the loop are those of all mounts, or of those before the first that is refused. |
| MountTheorems.LinesFollowMounts | lxcontainer/mount.go:18-55 | The lines are those of a prefix of the mounts, in order; all of them exactly on success, else the next mount is the one refused. |
| MountTheorems.EveryMountHasItsPlace | lxcontainer/mount.go:12-96 | In the final tree every line's destination has the root path as prefix and is there, a directory or not as its source; nothing of the first tree is gone or changed. |
| MountTheorems.DestinationInFirstTree | lxcontainer/mount.go:37-42 | Whatever earlier mounts made, a destination is where it leads in a chroot of the first tree and is not refused as an escape. |
| MountTheorems.LinesNameChrootedPlaces | lxcontainer/mount.go:12-56 | On a tree of plain links every line names the chroot-style resolution of its destination. |
| InitFiles.CreateList | lxcontainer/init.go:107-133 | The file is every entry followed by NUL, in order. |
| InitFiles.Init.LoadCmdline | cmd/init/crio-lxc-init.c:53-106 | For every file and maxargs for which the array has the slots that are written: with its chunks, 0xFF as end and bounded count, the return value, the argument slots and the null pointer, and that all other slots are untouched. |
| InitTheorems.SlotsOfPrinted | cmd/init/crio-lxc-init.c:73-99 | A written list takes one slot for each entry read and one for the null pointer. |
| InitTheorems.CallFits | cmd/init/crio-lxc-init.c:241-271 | The one call, which passes the size of the array in bytes, stays within its 256 slots if and only if there are at most 255 arguments. |
| InitFiles.Init.LoadEnviron | cmd/init/crio-lxc-init.c:108-166 | For every file, with one reused buffer split in place and whatever lies behind it: the environment is that of the variables in the file, and failure is exact. |
| InitTheorems.BehindIsNotRead | cmd/init/crio-lxc-init.c:108-166 | What lies behind the buffer makes no difference to a file in which no variable fills it. |
| InitTheorems.ArgsInvertPrint | cmd/init/crio-lxc-init.c:73-105 | Reading back a written list gives its first maxargs-1 entries, closed by a null pointer if and only if there are at most maxargs-2. |
| InitTheorems.AcceptsExactlyThePrinted | cmd/init/crio-lxc-init.c:53-106 | A file is accepted as given arguments if and only if, up to a byte 0xFF, it is what createList writes of them and there are few enough. |
| InitTheorems.AcceptedIsPrinted | cmd/init/crio-lxc-init.c:53-106 | Every accepted file whose strings do not fill the buffer is what createList writes of the arguments. |
| InitTheorems.EmptyIsRefused | cmd/init/crio-lxc-init.c:101-103 | An empty file is refused. |
| InitTheorems.UnendedIsRefused | cmd/init/crio-lxc-init.c:90-92 | A file that does not end in NUL is refused. |
| InitTheorems.PrintFits | cmd/init/crio-lxc-init.c:108-114 | Every file written from entries shorter than the buffer meets the reader's demand that no variable fills it. |
| InitTheorems.VariablesInvertPrint | cmd/init/crio-lxc-init.c:115-166 | Reading back a written environment sets exactly its variables, in order, for entries shorter than the buffer. |
| InitTheorems.SetAllFails | cmd/init/crio-lxc-init.c:158-163 | It fails if and only if some entry is malformed. |
| InitTheorems.VariableHasKey | cmd/init/crio-lxc-init.c:142-163 | An entry is well formed if and only if it contains "=" and does not start with it. |
| InitTheorems.LastEntryWins | cmd/init/crio-lxc-init.c:162-163 | Every key ends up with the value of its last entry, split at the first "=", and other keys keep theirs. |
| Devices.DigitsHaveValue | lxcontainer/create.go:414 | The printed digits of a number, decimal or octal, have its value. |
| Devices.DecimalRead | cmd/container-hook/hook.c:123-124 | Scanning a printed int, negative ones too, gives it back and leaves the rest. |
| Devices.LineRead | cmd/container-hook/hook.c:123-124 | Scanning a printed line gives back all seven fields and leaves the next line. |
| Devices.ScanInvertsPrint | cmd/container-hook/hook.c:107-133 | Scanning what was printed gives back the list of records, of any length. |
| DeviceFile.WriteDevices | lxcontainer/create.go:393-421 | No file for a nil list; otherwise one line per device with the defaults the code uses; a device without a group ends the program. |
| DeviceFile.LinesArePrinted | lxcontainer/create.go:401-419 | Written lines are the printed records, with the group of the process for every device. |
| DeviceFile.ScannedIsWritten | cmd/container-hook/hook.c:107-133 | The hook scans exactly the devices the runtime wrote, with that group. |
| ContainerHook.Rootfs.CreateDevices | cmd/container-hook/hook.c:83-198 | The tree, the nodes made and the return value for every file and tree, links included: existing nodes ignored, directories made on the way, unsupported types and malformed lines end it, and at the end errno decides, which a failing stat sets and only an existing directory clears. |
| ContainerHook.HookAdds | cmd/container-hook/hook.c:107-198 | Whatever the file, nothing in the tree is gone or changed, and all that is new is directories and device nodes. |
| ContainerHook.MakesTheMissing | cmd/container-hook/hook.c:135-197 | For supported devices on ways free of links and files, none in the way of another: exactly the missing nodes are made, each once and in order, with exactly the missing directories on the way, and then every device is there. |
| ContainerHook.SucceedsExactly | cmd/container-hook/hook.c:135-197 | For a printed file of such devices the hook still returns -1 if and only if something was made and the last node made lies in no directory that was there or was made for an earlier one. |
| ContainerHook.ToMakeIsComplete | cmd/container-hook/hook.c:137-141 | The nodes made and those there before are all that are listed, and nothing is made that was there. |
| ContainerHook.ToMakeIsDistinct | cmd/container-hook/hook.c:137-141 | No node is made twice. |
| DeviceRules.Spec.AddDevice | lxcontainer/create.go:325-337 | The device and one allowing rule for its type and numbers are appended, nothing else. |
| DeviceRules.Runtime.EnsureDefaultDevices | lxcontainer/create.go:339-379 | Exactly the default devices whose path is missing are appended, with their rules after those for ptmx and the pseudo-terminals. |
| DeviceRules.Runtime.ConfigureDeviceController | lxcontainer/cgroup.go:63-123 | The items set are those of all rules, or those before the first unknown type or refused item; nothing if the gate is off. |
| DeviceRules.EmittedDecidesAsKept | lxcontainer/cgroup.go:82-121 | For every rule list, device, access and default, the last match of the emitted rules decides as that of the specification's rules without those denying any type. |
| DeviceRules.WhereDenyAnyMatters | lxcontainer/cgroup.go:99-103 | Leaving those out changes a decision if and only if one of them was the last match and the others allow. |
| DeviceRules.DefaultsOnlyAdd | lxcontainer/create.go:366-377 | With the defaults added, exactly what was allowed before and what an added rule matches is allowed. |
| DeviceRules.MissingDefaultsAreAllowed | lxcontainer/create.go:372-377 | Every missing default device ends up allowed rwm, whatever the rules and the default decision. |
| DeviceRules.TerminalsAreAllowed | lxcontainer/create.go:366-370 | So do ptmx and all pseudo-terminals. |
| CgroupPath.ParseSystemdCgroupPath | lxcontainer/cgroup.go:171-186 | The loop collects the parents, slice and scope whose join is the path. |
| CgroupPath.ParentsAreNested | lxcontainer/cgroup.go:174-184 | One parent per dash but one in front; each, less its suffix, is a strict prefix of the next and of the slice and ends just before a dash; then the slice, then the scope if any. |
| CgroupPath.PathHasComponents | lxcontainer/cgroup.go:171-186 | For input without slashes these are exactly the components of the path, but for a slice part that is empty or ".". |
| CgroupPath.PathsAreInjective | lxcontainer/cgroup.go:171-186 | With equal field counts and no dash in the scope fields, paths are equal if and only if the inputs are, or differ only in an empty slice part against ".". |
| Namespaces.CloneFlags | lxcontainer/namespaces.go:30-40 | Success if and only if all types are supported; then the flags have exactly the bits of the listed types. |
| Namespaces.Runtime.ConfigureNamespaces | lxcontainer/namespaces.go:42-75 | The items set in every case: on success the shared namespaces in order and then the names of exactly the types not listed, each once; on a duplicate, an unsupported or refused share those before it; without a network for the user namespace, or a refused keep, the shares only. |
| Namespaces.FlagsAndKeptNamesAreComplements | lxcontainer/namespaces.go:30-75 | For supported types a bit is set if and only if the name is not kept. |
| Namespaces.FlagsAreDetermined | lxcontainer/namespaces.go:30-40 | The set of types determines the flags, whatever the order of the list. |

## Left out

Of the lifecycle:

- LXC is a small state machine with a monitor and an init process. If the monitor dies, init dies with it. A second monitor for the same container ends at once.
- Pids are never reused, and the cmdline of the user's process differs from that of crio-lxc-init. Every create has a pid file path of its own.
- RemoveAll and the writes of small files are single steps. Transient I/O errors of loadContainer in a delete are not modelled; all other errors, deadlines and crashes are the event `Abort`.
- What go-lxc checks in Container.Destroy before it succeeds; a delete may pass or fail that call in any state.
- Signals that do not terminate, the exec commands, hooks, the console socket and logging.
- LifecycleTheorems.StatesNeverGoBack: is about calls within one generation of the runtime directory, because a delete and a new create begin a new container.
- LifecycleTheorems.NeverReportsCreating: likewise; a call during which the directory was removed may mix two containers.
- A zombie's empty cmdline makes the code report "running"; the model does the same.

Of the mounts:

- Permissions, quota and other I/O errors of mkdir, open, chown and readlink. The mode of a new directory is taken after the umask.
- Resolve.ResolvesLikeChroot: needs tame inputs, because the code follows one level of links only; the `Destinations` lemmas show inputs of each excluded kind. That tameness is needed is proved where no link target is absolute or has ".." (`Destinations.ClearExactlyIfTame`); with those a later link can lead back to clear ground.
- liblxc's own treatment of mount entries.

Of the files:

- I/O errors and running out of memory in the C programs, and `errno` in crio-lxc-init. A value that does not fit its C type is undefined for the scanner.
- InitFiles.Init.LoadEnviron: takes what lies in memory behind the buffer as a parameter, because the code reads on there when a variable fills the buffer.
- InitFiles.Init.LoadCmdline: requires an array with the slots that are written. The program passes more than its array has (`InitTheorems.CallFits`).
- ContainerHook.Rootfs.CreateDevices: leaves out permissions, failures of chown and the kind of a device node in the tree; errno is taken to be clear after the file was opened, and to be set by failing calls only.
- Characters stand for bytes, without Unicode.

Of the translations:

- How liblxc parses the items it is given.
- Seccomp, apparmor, capabilities, rlimits, sysctls, read-only paths, the environment file and parseSignal: plain forwarding or flat printing.
