# Verified model of vmrunner

vmrunner starts a Linux guest on a Mac. A Go library (`vm/`) launches a Swift manager process
(`manager/`), talks to an agent inside the guest (`agent/`) over vsock, prepares image disks and
root file systems, and runs containers in the guest whose output comes back as lines. This project
models the parts of it that hold state or a protocol and proves what they keep.

The modules follow the program:

- **Launch and shutdown** (`Launch`, `LaunchSafety`, `LaunchFailures`, `LaunchProgress`,
  `LaunchRuns`). `VMRunner.Run`, its
  acceptor, waiter, forwarder and exit watcher, and `VMContext.Close` with its `sync.Once`, as a step system
  with one step per channel operation, select arm, process event and release. The channels have their real
  capacities (32, 64 and 1), and the acceptor closes `acceptDone` before `acceptCh`, as deferred calls
  run. Results hold on every interleaving: order and conservation of connections, order of shutdown,
  what each error return has torn down, exact capacities, and progress with its exact exceptions. Three
  failures are exhibited by runs from the initial state and characterised: an error return for a closed
  channel gives the lock back while the manager runs; a hand-over or an error return can wait for ever on a
  full channel; and a caller that leaves 98 connections unread never gets a value on `WaitCh`.
- **Lock file** (`FileLock`, `LockCalls`). Any number of processes, with crashes between any two system
  calls. The lock is exclusive as long as no open-to-flock window overlaps another process's
  unlock-to-remove window; a removal is safe exactly when nobody has the linked file open, and a run of
  three processes ends with two holders.
- **Configuration** (`Text`, `Flags`, `VmConfig`, `Manager`, `RoundTrip`, `AgentCmdline`, `BootLine`).
  The Go configuration printed as arguments, parsed by the manager, printed as the kernel command line,
  split and looked up by the agent. Both round trips are exact: they hold if and only if a condition
  on the configuration holds, which includes the words of network values that validation lets through.
- **Port tags** (`PortTag`). The manager's listen list, the bytes sent beside each descriptor, and the
  runner's reading of them.
- **Paths and extraction** (`Paths`, `SafeJoin`, `TarExtract`, `TarSafety`, `TarTree`, `TarEntries`,
  `TarLinks`). Names
  are text, cleaned, joined and made relative as `path/filepath` documents; `safeJoin` is characterised for
  every root and every name. The file system has directories, inodes shared by hard links, and symbolic
  links. The code follows symbolic links of the archive itself; a run that would do so ends as `Strayed`
  here. Archives in which no entry goes through an earlier link never stray and stay inside the root; a
  two-entry archive whose second entry lands outside is given.
- **Caches** (`ImageCache`, `SharedRootfs`). The reference cache is compared with resolving every
  reference anew; the shared root file systems with complete extractions. The code creates a disk file
  before it formats it, and a directory before it fills it; what a failure leaves is served by the next
  call, and lemmas say exactly when.
- **Containers** (`Guest`, `ContainerStart`, `StartRaces`, `ContainerRuns`). Mounts as a stack in which
  later ones hide earlier files. With virtiofs the specification is visible to runc from every earlier
  state. When starts under one state mount interleave, each runc sees its own if and only if starts that
  keep their specification at one place have the same one. Without virtiofs the specification is written
  before the state disk is mounted over it, so runc sees it only in the cases the lemma names.
- **Output** (`LinePrinter`, `OutputLines`, `Pump`). The printer uses a scanner that also returns an
  unterminated last line and drops a carriage return at a line's end, while each line is counted with one
  byte more than its text. The slice that keeps the tail is therefore out of range in some cases, which
  the model keeps as the outcome `Panicked`. The output is right if and only if every chunk has short lines,
  ends in a newline and contains no CR-LF.

Code that changes state in place is a class or a loop here too (`LockCalls.LockDir`, `TarExtract.Disk`,
`ImageCache.CacheDir`, `ContainerStart.Agent`, `LinePrinter.LinePrinterStream`, `Pump.ByteStream`, and the
methods that build argument vectors); each method is proved equal to a function, and the lemmas are about
those functions. Registry answers, build outcomes, system-call errors, process exits and the scheduling of
goroutines are inputs or nondeterministic steps.

## Model

| member | source | states |
|---|---|---|
| LaunchSafety.RunKeepsInv | vm/runner.go:323-518 | Every reachable state of the whole protocol satisfies the invariants: which goroutine exists, what each one-value channel has carried, how far the tear-down has come, who released what, and how full the queues are. |
| LaunchSafety.ShutdownOrder | vm/runner.go:502-515 | On every interleaving one value at most is sent on `WaitCh`, before it is closed; by then the manager is reaped, the acceptor has finished, listener and socket file are gone and the lock, the RPC connection and the agent file are released, each once however many `Close` calls race. |
| LaunchSafety.ErrorReturns | vm/runner.go:323-333 | `Run` releases an acquired lock exactly once on every error return and never on success; after a started manager it first reaps it, waits for the acceptor and closes the listener, except on the closed-channel return. |
| LaunchFailures.RunAnswersExactly | vm/runner.go:323-471 | On every interleaving: a refused lock ends `Run` with nothing started and nothing released; a context is returned only if no call failed; every failed call and every select arm for a failure leads to its own error, and `Run` reports an error only for one that happened. |
| LaunchFailures.OutsideErrorsAreReal | vm/runner.go:365-408 | An error of accept or of `recvFD`, and nothing else, leaves one error for the select loop; an accept failure, an exited manager or a cancelled context is reported only where there was one. |
| LaunchSafety.ClosedChannelReturn | vm/runner.go:425-438 | The closed-channel return can be reached from a state of the select loop with no step from outside if the acceptor has queued an error, and no run takes it otherwise. |
| LaunchSafety.ClosedChannelLeavesManagerRunning | vm/runner.go:425-428 | A concrete run in which that return releases the lock while the manager is alive, the listener open and the socket file present. |
| LaunchSafety.StepsKeepFlow | vm/runner.go:365-500 | Before and after readiness, what was received and what is in transit is the accepted sequence, without its first agent-port connection once that one has been taken. |
| LaunchSafety.EveryConnectionArrivesInOrder | vm/runner.go:422-500 | After a successful `Run`, received followed by in transit equals the accepted sequence minus its first agent-port connection, which is the RPC connection; a caller that drains the closed channel has read all of it in order. |
| LaunchFailures.HistoryIsTheRun | vm/runner.go:391-412 | The accepted sequence is the ports that arrived, in order, and as many are received as the caller has read. |
| LaunchProgress.BlockedExactlyAtCapacity | vm/runner.go:363-500 | After readiness at most 98 connections are unread, and acceptor and forwarder are both blocked exactly when 64 + 1 + 32 earlier ones and the one in the acceptor's hand are. |
| LaunchProgress.BlockedForGood | vm/runner.go:492-494 | Handing over more than 64 pending connections, or waiting for `acceptDone` while the acceptor holds a connection for a full queue, is never left again in any continuation. |
| LaunchRuns.OverfullRun | vm/runner.go:492-494 | A run from the initial state into the first of these: 65 connections before the agent's. |
| LaunchRuns.DeadlockedRun | vm/runner.go:451-457 | A run into the second: cancelled with 32 connections queued and one in the acceptor's hand. |
| LaunchProgress.HandOverFits | vm/runner.go:492-494 | The hand-over can always go on with at most 64 pending connections, and never completes with more. |
| LaunchProgress.RoomIsEnough | vm/runner.go:439-458 | An error return gets past `acceptDone` whenever at most 32 connections are queued or still arriving: no continuation leaves that condition, and until it is past somebody can move or `recvFD` waits for its peer. |
| LaunchProgress.MovesAreBounded | vm/runner.go:323-518 | In every run the goroutines make at most 40 moves plus 5 per accepted connection, so nothing spins. |
| LaunchProgress.StuckOnlyThere | vm/runner.go:423-517 | When nobody can move, `Run` has returned, or waits for a live manager with nothing queued, or is in one of the two blocked states, or waits for an acceptor whose peer sends nothing. |
| LaunchProgress.ShutdownCompletesExactly | vm/runner.go:502-515 | Once the manager has died and nobody can move, whatever the caller has read: `WaitCh` is closed and everything released if and only if fewer than 98 connections are unread and no `recvFD` waits; otherwise the watcher waits for the acceptor and no value was sent. |
| LaunchProgress.DrainedShutdownCompletes | vm/runner.go:492-515 | A caller that has emptied `ProxyConnCh` then finds both channels closed and has read every connection, unless a `recvFD` waits. |
| LaunchProgress.UnreadConnectionsBlockWait | vm/runner.go:409-412 | While acceptor and forwarder are blocked, no continuation in which the caller does not read sends a value on `WaitCh`. |
| LaunchRuns.NeverReportedRun | vm/runner.go:502-515 | A run from the initial state into that: a successful launch, 98 connections unread, and the manager dead. |
| FileLock.MutualExclusion | vm/lock/lock.go:20-46 | In every run whose removals are clean at most one process holds the lock, and the locked inode is the one linked at the path. |
| FileLock.MutualExclusionWithoutOverlap | vm/lock/lock.go:20-44 | The same for any number of processes and crashes, provided no open-to-flock window overlaps another process's unlock-to-remove window. |
| FileLock.RemovalIsSafeExactlyWhenClean | vm/lock/lock.go:41-45 | After a clean run a removal can lead to two holders without a further unclean removal if and only if some process had the linked file open. |
| FileLock.TwoHoldersRun | vm/lock/lock.go:20-45 | Nine steps of three processes from the initial state that end with two holders. |
| LockCalls.LockDir.Acquire | vm/lock/lock.go:13-35 | Does nothing for a blank path or when directory or open fail; otherwise opens, and ends with the linked inode held, or without it exactly when that inode is locked or the flock fails otherwise. |
| LockCalls.LockDir.Release | vm/lock/lock.go:37-46 | Does nothing without a lock, and otherwise is the three steps unlock, close, remove, leaving no entry. |
| Text.FieldsOfJoin | agent/cmd/agent/main.go:107-107 | Splitting a joined text gives the words of each part, in order, whatever white space the parts hold. |
| Text.ItoaParses | vm/runner.go:184-186 | Printing and parsing decimals are inverse on all integers, and a printed integer is one word. |
| VmConfig.ManagerArgs | vm/runner.go:170-237 | Returns the first complaint of `Validate`, or the rendering of the configuration's flags in the order the code appends them. |
| VmConfig.AcceptedExactly | vm/runner.go:106-168 | A configuration gets arguments if and only if root image, kernel in linux mode and socket are set, memory, cpus and all ports are positive, no disk path is blank, the boot mode is empty or known, and the network and virtiofs conditions hold where they are switched on; otherwise the error is that of its first fault, so that a single fault gets its own. |
| VmConfig.PlainVector | vm/runner.go:181-237 | The vector of an accepted configuration without optional fields, word by word, with the default boot and network modes. |
| Manager.ParseArgs | manager/Sources/vmmanager/main.swift:283-439 | The index loop gives what reading the arguments from the front gives: the configuration, the thrown argument or the exit code. |
| Manager.ParseRender | manager/Sources/vmmanager/main.swift:308-397 | Parsing rendered flags folds them in order for any value text, since a value flag always consumes the next token. |
| Manager.ParseRenderThen | manager/Sources/vmmanager/main.swift:308-397 | The same with any arguments after them, which then are parsed from the configuration so far. |
| Manager.ParseStops | manager/Sources/vmmanager/main.swift:308-397 | After good flags an unknown argument is thrown, a flag without its value exits with 1, and help exits with 0 whatever follows. |
| Manager.ParsedIsUsable | manager/Sources/vmmanager/main.swift:399-405 | Whatever the arguments, a configuration that is returned has a root image, a kernel in linux mode, and numbers in their range. |
| Manager.DefaultConfiguration | manager/Sources/vmmanager/main.swift:284-439 | Root image and kernel alone give the default configuration, field by field, and either of them alone exits with 1. |
| RoundTrip.ArgumentsRoundTrip | vm/runner.go:170-237 | For every accepted configuration the manager parses the printed arguments if and only if the network mode is empty or known, and then has every field, with defaults applied, empty text read as nil, the kernel only in linux mode, and disks and ports in order. |
| RoundTrip.ParsedFields | vm/runner.go:170-237 | Each field the manager then has, told of the configuration that was given, before defaults are filled in. |
| Manager.BootArgs | manager/Sources/vmmanager/main.swift:41-80 | The command line is the join of the fixed tokens, the port, the network keys if networking is on and the virtiofs keys if virtiofs is on, each only with a value. |
| AgentCmdline.ParseVsockTarget | agent/cmd/agent/main.go:68-99 | Context id and port are the last numeric values on the command line, else the environment's, else the defaults. |
| AgentCmdline.FirstValueFinds | agent/cmd/agent/runtime_mounts.go:81-96 | A key that occurs once is found whatever surrounds it, and one that does not occur gives the default. |
| AgentCmdline.FirstValueCounts | agent/cmd/agent/runtime_mounts.go:81-96 | The first value that is not blank counts, trimmed, and blank ones are passed over. |
| AgentCmdline.LastNumberWins | agent/cmd/agent/main.go:82-97 | A further argument with the key replaces the value if its text is a number, cut to 32 bits, and is passed over otherwise. |
| BootLine.LineFields | manager/Sources/vmmanager/main.swift:43-79 | The agent's fields of the command line are the fixed ones, with the root device and its `rw` as two, the port, the words of the network values and the virtiofs tokens, when the virtiofs values have no white space. |
| BootLine.GuestActsOnTheConfiguration | vm/runner.go:170-237 | Through all four programs, for every accepted configuration in linux mode, the agent acts on the configured port, virtiofs flag, tag, mount point, device and overlay mount, or its default where virtiofs is off or a field empty, if and only if the network mode is known, the port has 32 bits, the virtiofs values have no white space and no word of a network value sets one of the agent's keys. |
| BootLine.NetworkWordsTellNothing | manager/Sources/vmmanager/main.swift:52-62 | Network values without white space never set one. |
| BootLine.InterfaceNameSetsThePort | vm/runner.go:138-155 | An accepted interface name that ends in a blank and the agent's port key with another number changes the agent's port. |
| PortTag.DecodeEncode | manager/Sources/vmmanager/main.swift:240-243 | Decoding the little-endian payload gives the port back, for all 32-bit values. |
| PortTag.EncodeDecode | vm/runner.go:531-531 | Every four bytes are the payload of the port they decode to. |
| PortTag.RecvFD | vm/runner.go:521-546 | The loop over control messages gives the first descriptor of the first message that carries one, with the decoded port, or the first error in the code's order. |
| PortTag.FirstDescriptorIsEarliest | vm/runner.go:536-545 | A descriptor is found if and only if some message carries one, and it is the earliest. |
| PortTag.ReceivedExactly | vm/runner.go:521-546 | A read error, fewer than four bytes, unreadable control data and a message without a descriptor have an error each, in this order, and everything else gives the port of the first four bytes. |
| PortTag.ListenPorts | manager/Sources/vmmanager/main.swift:114-126 | The listen list starts with the agent's port, has no duplicates and is the set of the agent's and the positive proxy ports, or the manager traps because one of them has more than 32 bits. |
| PortTag.TagsTellTheAgentApart | vm/runner.go:422-434 | For every configuration the manager parses: the ports asked for are the configured ones, each connection comes back with its own descriptor and port, and unless the manager trapped the runner takes it for the agent's exactly when it arrived on the configured agent port. |
| Paths.SplitSlashed | vm/image_disk.go:211-211 | Splitting undoes joining with slashes. |
| Paths.SegsOfShow | vm/image_disk.go:202-202 | Writing cleaned segments as a path and reading them back is the identity, for rooted and other paths. |
| Paths.SegsOfJoin | vm/image_disk.go:211-211 | Joining a name to a path means walking its segments from the path's place, and the result is clean. |
| SafeJoin.SafeJoin | vm/image_disk.go:201-220 | The method with the slash-stripping loop gives the path or the error of the specification. |
| SafeJoin.JoinsExactlyUnderTheRoot | vm/image_disk.go:201-220 | For every root and every name the join succeeds if and only if the name means something and walking it ends under the root, and it returns that place; for an absolute root that is having the root's segments as a prefix. |
| SafeJoin.InvalidNamesExactly | vm/image_disk.go:202-205 | A name is invalid exactly when it has no segments, whatever slashes and dots it is written with. |
| SafeJoin.NamesWithoutClimbsJoin | vm/image_disk.go:207-209 | Absolute names, and all names that do not begin with a climb, always join below the root. |
| SafeJoin.DottedSegmentJoins | vm/image_disk.go:216-216 | A segment such as `..foo` is not taken for a climb. |
| SafeJoin.ClimbingNamesMustReturn | vm/image_disk.go:211-218 | A name that climbs n segments out of an absolute root joins if and only if its descent spells those segments of the root again. |
| TarExtract.Disk.Unpack | vm/image_disk.go:151-197 | One entry of the loop, branch by branch, changes the file system as the specification of its operation says and reports its outcome, up to a symbolic link it would follow. |
| TarExtract.Disk.ExtractTarInto | vm/image_disk.go:140-199 | The entry loop leaves the file system and the outcome of the specification, from any file system, up to a symbolic link it would follow. |
| TarLinks.ExtractionStaysInside | vm/image_disk.go:140-199 | Into a root without links whose parent exists and which shares no inode with the outside, an archive in which no entry goes through the place of an earlier symbolic link, told of the joined names, never follows one, keeps the tree well formed and changes no node and no content outside the root, wherever it stops. |
| TarLinks.LinkLeadsOutside | vm/image_disk.go:161-183 | A link to a directory at the top and a file below the link: the second entry joins under the root, goes through the first, and its calls go on outside. |
| TarSafety.AncestorsAreDirs | vm/image_disk.go:157-164 | In a well-formed tree all ancestors of a node exist and are directories. |
| TarSafety.InertEntriesLeaveNoTrace | vm/image_disk.go:151-154 | Entries with a rejected name, an ignored type or a rejected link target can be removed without changing the result. |
| TarEntries.DirEntry | vm/image_disk.go:157-160 | A directory entry, where only directories are above it, makes the directory and its parents and changes nothing else, or fails without change at a file. |
| TarEntries.RegEntry | vm/image_disk.go:161-174 | A file entry puts its body in a new inode, or in the inode of the file that is there, and fails at a directory. |
| TarEntries.SymlinkEntry | vm/image_disk.go:175-183 | A symbolic link entry replaces what stands there by the link with its text, and fails exactly for an empty text or a directory with contents. |
| TarEntries.LinkEntry | vm/image_disk.go:184-195 | A hard link entry makes its name a further name of the node at the link target, which stays, and succeeds exactly when that is a file at another path and nothing but a removable node is in the way. |
| TarEntries.MissingLinkTarget | vm/image_disk.go:184-195 | A hard link to nothing fails. |
| TarEntries.FileInTheWay | vm/image_disk.go:157-195 | A file above the name fails every entry that puts something there, and nothing is made. |
| TarEntries.OtherEntry | vm/image_disk.go:151-197 | An entry of another type, or with a rejected name or link target, does nothing. |
| TarEntries.ArchiveIsExtracted | vm/image_disk.go:140-199 | Told of entries and their joined names: a conflict-free archive extracts into an empty root without error, and what is there afterwards is exactly its paths and the directories on the way, each entry with its kind, body, text or the node of its link target, and an inode of its own for every regular file. |
| TarEntries.ArchiveOrderDoesNotMatter | vm/image_disk.go:140-199 | Any reordering of such an archive in which links follow their targets gives the same paths, kinds, texts, contents and sharing. |
| TarTree.ExtractionIsTheDeclaredTree | vm/image_disk.go:140-199 | The same for operations: conflict-free ones into an empty root succeed, and the result is exactly their declared tree. |
| TarTree.SharesWithOrigin | vm/image_disk.go:184-195 | In a declared tree every file shares the inode of the regular file its chain of links leads back to. |
| TarTree.OrderDoesNotMatter | vm/image_disk.go:140-199 | The reordering law for operations. |
| ImageCache.CacheDir.PrepareImageExt4Disk | vm/image_disk.go:65-122 | The method leaves the cache and gives the answer of the specification, for every outcome of its directories, the build and the reference write. |
| ImageCache.FirstCallBuildsNextFinds | vm/image_disk.go:75-121 | For a supported architecture and a digest `sha256:hex` in the registry, a call with nothing failing on an empty cache builds `hex.raw` and writes the reference file with the digest and a newline; the next call answers the same disk as found, whatever the registry has become. |
| ImageCache.FoundByDigest | vm/image_disk.go:105-109 | Without a reference file a disk of the digest that is there is found and not built. |
| ImageCache.WrongCalls | vm/image_disk.go:65-118 | On an empty cache: no cache directory, another architecture, an unknown reference, an empty digest and a failing build have an error each, in this order, and every other call builds. |
| ImageCache.CacheDir.CreateExt4DiskFromDir | vm/disk_ext4.go:16-53 | The steps leave no file for a size that is not positive or a failure up to creating it, a file that is no disk for a failure after that, and otherwise the disk. |
| ImageCache.CollideExactly | vm/image_disk.go:135-138 | Two references share a key exactly when their architectures agree and their texts agree up to slash, colon, at sign and underscore. |
| ImageCache.CacheIsInvisibleExactly | vm/image_disk.go:75-121 | With a fixed registry every run of calls, deletions and failures gets the answers of resolving each reference anew, if and only if references that share a key resolve alike. |
| ImageCache.RunsAgree | vm/image_disk.go:75-121 | In such runs the disks are also the same as without the reference cache. |
| ImageCache.EveryAnswerIsResolved | vm/image_disk.go:105-121 | After any run without harmful collisions an answer names the disk of the digest the registry has, that disk exists, and the flag is set exactly when it was absent before the call. |
| ImageCache.DisksAreComplete | vm/disk_ext4.go:25-53 | Unless a call with a positive size creates the file and then cannot size or close it, or mkfs is missing or fails, every disk is the complete image of the digest it is named after. |
| ImageCache.FailedBuildIsServedExactly | vm/image_disk.go:105-118 | After a failed build the next call for the reference returns the leftover as a cached disk if and only if the failed call was one of those. |
| SharedRootfs.PrepareSharedContainerRootFS | vm/image_shared.go:15-55 | The method leaves the file system and gives the answer of the specification, extraction included. |
| SharedRootfs.FirstCallExtractsNextFinds | vm/image_shared.go:15-55 | For a digest `sha256:hex` with a conflict-free image and a vacant place, the first call answers `hex` as built, with exactly the archive at `rootfs` in the directory `hex` of the shared one, and the next call answers it as found and changes nothing. |
| SharedRootfs.WrongCalls | vm/image_shared.go:15-45 | An unknown reference or architecture, an image that cannot be loaded and a file in the way have an error each and change nothing. |
| SharedRootfs.EveryAnswerIsAFullTree | vm/image_shared.go:33-52 | After any run without a broken extraction, whatever was deleted, an answer has the registry's digest, says built exactly when the tree was absent, and its tree is what a complete extraction left. |
| SharedRootfs.FullTreeIsTheDeclaredOne | vm/image_shared.go:47-52 | For an image without conflicts such a tree is exactly the declared tree. |
| SharedRootfs.FullTreeHoldsTheArchive | vm/image_shared.go:47-52 | Told of entries: such a tree holds each entry of the archive, and below its root nothing but them and the directories on the way. |
| SharedRootfs.BrokenTreeIsServed | vm/image_shared.go:34-51 | For an image whose entries all lie strictly below the root, the call after a failed extraction always answers with the leftover as a cached tree and changes nothing. |
| SharedRootfs.DamagedArchiveIsServed | vm/image_shared.go:44-51 | With an archive damaged in its first file the first call fails and the second serves a tree of that one file. |
| Guest.PlaceOfClean | agent/cmd/agent/container_service.go:131-132 | Cleaning a path does not move it, absolute or not. |
| Guest.UnmountElsewhere | agent/cmd/agent/container_service.go:202-204 | Unmounting matters only to paths below the mount point. |
| ContainerStart.Places | agent/cmd/agent/container_service.go:131-153 | Where bundle, specification, overlay directories, merged root and runc root of a container lie, through the code's path joins. |
| ContainerStart.CreatedExactly | agent/cmd/agent/container_service.go:60-120 | A container is created if and only if the id has 1 to 128 allowed characters of which the first is a letter or digit, and image, root file system, state disk and specification are not blank; otherwise the error is the first of these in the order of the code. |
| ContainerStart.Agent.EnsureOverlayStateMounted | agent/cmd/agent/container_service.go:317-336 | Mounts the state disk unless it is on top at the mount point already, which changes nothing, with the default for a blank one. |
| ContainerStart.Agent.MountOverlayFromRootFS | agent/cmd/agent/container_service.go:277-315 | Ensures the state mount and puts the overlay on the merged root, or fails with the mounts it had got to. |
| ContainerStart.Agent.Start | agent/cmd/agent/container_service.go:122-213 | The steps of a start leave the mounts, files and error of the specification. |
| ContainerStart.StartAnswersExactly | agent/cmd/agent/container_service.go:122-213 | A start of a created container succeeds if and only if no step of it fails, and otherwise gives the error of the first that does, in the order of the code, with virtiofs and without. |
| ContainerStart.StartMountsTheOverlay | agent/cmd/agent/container_service.go:292-312 | After a start in which nothing fails the last mount is an overlay on `bundle/rootfs` of the container, over the given root file system, with upper directory `overlays/diff` and work directory `overlays/work` of that container, the directories the disjointness results speak of. |
| ContainerStart.FailedStartLeaves | agent/cmd/agent/container_service.go:122-190 | After a start that fails in runc the overlay stays mounted; after any other failure there is at most the state disk's mount more. |
| ContainerStart.SpecIsVisible | agent/cmd/agent/container_service.go:122-157 | With virtiofs, from every state of mounts and files, the specification runc sees in the bundle is the container's. |
| ContainerStart.SpecIsVisibleExactly | agent/cmd/agent/container_service.go:140-149 | Without virtiofs runc sees it if and only if the state disk was mounted there already or already held that text. |
| ContainerStart.CleanUpUndoesStart | agent/cmd/agent/container_service.go:202-204 | After a start and its clean-up the mounts are the earlier ones with the state disk's. |
| ContainerStart.Task.ExitCode | agent/cmd/agent/container_service.go:224-240 | The first call waits and unmounts, later calls return its answer and change no mount. |
| ContainerRuns.DistinctIDsAreDisjoint | agent/cmd/agent/container_service.go:131-153 | Containers with different accepted ids under the same state mount share no path of their bundle, overlay, merged and runc trees. |
| ContainerRuns.OwnTreesAreDisjoint | agent/cmd/agent/container_service.go:292-296 | One container's bundle, overlay diff, overlay work and runc root do not overlap. |
| StartRaces.SpecsAreSeenExactly | agent/cmd/agent/container_service.go:122-157 | For starts that write at some place and mount at another, in every interleaving of their steps, exits and failures from any mounts and files, each started runc sees its own start's text if and only if starts that keep theirs at one place have the same one. |
| ContainerRuns.EveryContainerSeesItsSpecExactly | agent/cmd/agent/container_service.go:122-157 | That for the containers of one state mount, also when several starts use one id. |
| ContainerRuns.DifferentIDsAreHarmless | agent/cmd/agent/container_service.go:131-149 | Where the state disk is not mounted yet, or only merged roots were mounted below it since, containers that have one specification per id are such. |
| ContainerRuns.StepsMakeAStart | agent/cmd/agent/container_service.go:122-213 | The steps that interleave there, run without interruption, are a successful `Start`. |
| LinePrinter.LinePrinterStream.Scan | vm/container.go:38-50 | The scan loop prints and counts the lines before the first that is too long, and says whether there is one. |
| LinePrinter.LinePrinterStream.Write | vm/container.go:25-57 | One write leaves the buffer, the printed lines and the outcome of the specification, out-of-range slice included. |
| LinePrinter.LinePrinterStream.Done | vm/container.go:59-69 | Prints what is left, if anything, and empties the buffer. |
| OutputLines.ByteAccounting | vm/container.go:40-43 | What is consumed is the buffer's length, less the carriage returns dropped, plus one if the last line has no newline, where the dropped ones are counted on the text alone. |
| OutputLines.WriteExactly | vm/container.go:51-55 | The slice is valid if and only if a dropped carriage return pays for an unterminated last line, and the carried tail is the end of the buffer with the length of the difference. |
| OutputLines.ShortLinesExactly | vm/container.go:39-39 | Lines are short exactly when no stretch of 16 MiB of the text is without a newline. |
| OutputLines.TooLongExactly | vm/container.go:48-50 | A write fails for a line that is too long exactly when the buffer with the chunk has such a stretch, and then keeps all of it. |
| OutputLines.DoneRepeatsTheTail | vm/container.go:51-69 | After one chunk that ends in a newline, `Done` prints once more the end of the chunk, with as many bytes as carriage returns were dropped, and nothing if none was. |
| OutputLines.ChunksDoNotMatter | vm/container.go:25-69 | However a text is cut into chunks that end in newlines without CR-LF, the lines printed are those of the text and `Done` adds none. |
| OutputLines.OutputIsRightExactly | vm/container.go:25-69 | All writes succeed and the lines printed are those of the text if and only if every chunk has short lines, ends in a newline and has no CR-LF. |
| Pump.ReadInto | agent/cmd/agent/container_service.go:346-346 | A read fills the front of the reused buffer and leaves the rest. |
| Pump.PumpToByteStream | agent/cmd/agent/container_service.go:338-374 | The read loop over one buffer sends the chunks, and ends with `Done`, as the specification says for every sequence of reads, errors and refused chunks. |
| Pump.ChunksAreThePrefix | agent/cmd/agent/container_service.go:345-354 | The chunks taken are not empty, have at most 65536 bytes and concatenate to a prefix of what was read, to all of it when `Done` is sent or none is refused. |
| Pump.DoneExactly | agent/cmd/agent/container_service.go:357-373 | `Done` is sent if and only if the end was reached with every chunk taken and no other error before it. |
| Pump.OutputArrivesExactly | vm/container.go:25-69 | Where the pump reached the end, the host prints the lines of everything the container wrote if and only if every read ended in a newline, with short lines and no CR-LF. |

## Left out

- RoundTrip.ArgumentsRoundTrip: lower-casing of boolean texts covers ASCII letters, which is all the runner prints.
- TarExtract.Disk.Unpack: an entry that would follow a symbolic link, or hard-link one, ends the run as `Strayed`; what it does at the other end is not modelled beyond the place it goes on at.
- TarExtract.Disk.ExtractTarInto: the same, so entries after the first that follows a link are not covered.
- TarSafety.RunStaysInside: for archives that go through their own links it speaks of the file system up to that point only.
- TarTree.OrderDoesNotMatter: directory modes, file modes and times are not in the view.
- SharedRootfs.PrepareSharedContainerRootFS: a symbolic link on the way to the shared directory is not followed either.
- SharedRootfs.EveryAnswerIsAFullTree: two processes preparing the same digest at once are not modelled, nor for `ImageCache`.
- ImageCache.DisksAreComplete: what mkfs writes is not modelled, so a complete disk stands for its digest; which architecture a multi-platform digest was built for is not in the model.
- LaunchSafety.ErrorReturns: a blank lock path, for which acquiring and releasing do nothing, is not told from a lock that is held.
- LockCalls.LockDir.Acquire: the text written into the lock file is not modelled.
- LaunchProgress.RoomIsEnough: how long a peer may keep `recvFD` waiting is not bounded by the code, so no lemma says that it returns.
- StartRaces.SpecsAreSeenExactly: other mounts and writes made while starts are under way are not among the steps.
- Text.ItoaParses: integers are decimal with an optional sign; underscores, other bases and surrounding blanks do not occur in what is printed.
- Launch: the RPC library, descriptors queued at shutdown, log lines and reading of the context before `Run` returns are not modelled; the readiness duration is a token.
- Launch: the failure kinds of one accepted connection (type, payload, descriptor) are one step, because they end the acceptor alike.
- Virtualization framework setup, kernel-magic check, bridged interface choice and state logging: foreign calls without a deep property.
- Cap'n Proto generated code and RPC internals: a byte stream is the list of its calls.
- Registry access, flattening of layers, mkfs, runc and netlink: fixed maps or outcomes given as inputs.
- Permissions, umask, timestamps and out-of-space errors of the file system.
- Text is a sequence of characters; invalid UTF-8 and Unicode normalisation are not modelled.
- Kernel quoting and length limits of the command line, and parameters a boot loader might add.
- `BuildDefaultOCISpecJSON`, `ResolveVMRunnerState`, the CLI, debug ping and benchmark services and signal handling: constant data or plumbing that would add only easy members.
