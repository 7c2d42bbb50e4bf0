# Verification model of Troshka

Troshka runs virtual labs. Its host agent `troshkad` compiles network policies to nftables, edits libvirt
domains, captures disks, runs jobs and limits authentication failures; an operator provisions disks on
KubeVirt and freezes Ceph; `troshka-vncd` relays consoles; and `troshka oc` tunnels a cluster API over one
WebSocket. This project models the stateful cores of those programs in Dafny and proves what they keep over
every run. `dafny verify dfyconfig.toml` checks all of it.

| module | what it models | how |
|---|---|---|
| `RateLimiter` | failure lists, temporary and permanent bans, the sweep | a class whose pruned tables refine the log of all failures |
| `PortForwards` | the two NAT hops of a port forward | rule lists with first-match semantics |
| `NetworkSetup` | the compiler behind `networks/full-setup` | a class whose filter chain is appended to; what it accepts is tied to the declaration |
| `HostChains` | the host's nftables chains, shared by all projects | a class over a map of chains; setups and teardowns of many projects |
| `SharedDelivery` | where a packet arrives that several projects may claim | setups and teardowns of whole projects; base chain, routes and namespaces, first match decides |
| `OutboundEntries` | what the text of the outbound ports means | lemmas on the parser and on what gets out and in |
| `HostTraffic` | what the host accepts and masquerades for its projects | lemmas over all runs of `SharedDelivery` |
| `AddedPorts` | ports added to a project's gateway after its setup | a class that appends rules to both chains |
| `Frames`, `Tunnel` | the multiplexed API tunnel | a transition system split at every `await`, with a session number |
| `TunnelEffects` | what the tunnel's steps bring about: nobody is left hanging | lemmas over all steps and runs of `Tunnel` |
| `DomainXml` | reconfiguring a domain, and reading it back | a class over the element lists, edited in place |
| `BootOrder` | boot devices read from the orders of the devices | lemmas on the reader's fallback |
| `LiveCapture` | snapshot, flatten and commit under a writing guest | a transition system of guest, job, commit thread and block jobs |
| `DiskReconcile` | the disk reconcile pass of the operator | a class that logs its API calls, with arbitrary answers |
| `DataVolumes`, `CloneHealing` | creating a DataVolume clone, attempt after attempt | a transition system with the importer as an adversary |
| `UpdatePath` | cloning a disk that an update adds, where nobody deletes a failed clone | a transition system of its own |
| `CephFreeze` | freezing and thawing Ceph | a class with the trail of all states, so that a crash is a prefix |
| `Jobs` | job table, dispatch, cancel and the update drain | a transition system split at every access to shared data |
| `VmStates` | the VM state cache, the event list and its pollers | classes |
| `ConsoleTokens` | single-use console tokens | a class; each method is what a handler does between two waits |
| `Options`, `Text`, `Runs` | an optional value; looking for a text in a text; runs of a transition system | |

Calls into other programs (virsh, qemu-img, Kubernetes, ceph) are operations on the modelled state that may
fail, before or after their effect. Of the nft commands those fail that decide something (see "Left out"), and
a send on the tunnel that raises after its frame was read is a send followed by the client's end. Times are
parameters and never go back.

Where the code does not always do what it promises the model keeps the code: a lemma gives an input or a run
for which it fails, and another one says exactly when it holds.

| promise | fails | holds exactly when |
|---|---|---|
| a port forward delivers as declared | `DisagreeingForwardStrands` | `TwoHopsAsDeclared` |
| so it does among many projects | `FirstComeFirstServed`, `SharedSubnetMisroutes` | `ArrivesAsDeclared`, `ArrivesIfFirst` |
| a port added later goes as added | `SecondOfANumberIsLost` | `AsAddedIff` |
| projects do not touch each other's chains | `SecondReplacesFirst`, `IdsBeginAlike` | `IsolatedIffPidsDiffer` |
| a leaving client removes its own stream | `LeftoverPopsTheNewStream` | `LeavingMayPopAnother` |
| a second disk synchronisation changes nothing | `PathlessDiskIsAddedAgain` | `SynchronisedTwice` |
| an image is one its disk held | `LaterDisksTear` | `OnlyTheFirstIsSafe` |
| no overlay is forgotten | `LateSnapshotIsForgotten` | `NothingForgotten` |
| only volumes of removed disks are deleted | `KeptAndRemovedCollide` | `DeletedIffRemoved` |
| an update gets past a failed clone | `AbsentVolumeGetsStuck`, `FailsAgain` | `StuckIffFailed`, `StuckIffSeenFailed` |
| a retried freeze restores the counts | `RetryLosesAnOsd` | `RetriedFreezeForgets` |
| no more jobs run than are allowed | `BoundIsReached` | `LimitCanBeExceeded` |
| a restart kills no job before its timeout | `RestartCanKillAJob` | `RestartIsClean` |
| a cancel prevents the restart | `CancelCanBeLost` | `CancelPreventsRestart` |
| a cancelled job stays cancelled | `CancelledForGood` | `CancelledForGood` |
| a poller loses no event | `EqualTimesLoseAnEvent` | `PollExact` |
| a live relay's domain is active | `OverlappingRelays` | `RelayEnded` |

## Model

| member | source | states |
|---|---|---|
| `RateLimiter.Limiter.RecordAuthFailure` | src/troshkad/troshkad.py:130-167 | The four pruned tables go on standing for the log of every failure ever recorded (`Valid`). A temporary ban is entered exactly when this failure is at least the 10th one since the address's last trigger within 60 s, and turns permanent exactly when the trigger is the 3rd one within 3600 s. |
| `RateLimiter.Limiter.IsBanned` | src/troshkad/troshkad.py:170-180 | The answer is the one the whole unpruned log gives: permanently banned, or the last trigger is at most 300 s ago. Dropping an expired entry on the way changes nothing that is ever answered. |
| `RateLimiter.Limiter.CleanupRateLimit` | src/troshkad/troshkad.py:183-203 | The sweep drops exactly the stale entries and leaves the log as it was, while the tables still stand for that log: no later answer and no later ban decision can tell whether, when or how often it ran. |
| `RateLimiter.RecordedIsTracked` | src/troshkad/troshkad.py:130-167 | One failure keeps the refinement for every address at once: counts from any later cut-off, ban expiry, permanent status, and absence of a permanently banned address from the other tables. |
| `RateLimiter.FailureCounted` | src/troshkad/troshkad.py:135-140 | On pruned lists the threshold test succeeds exactly when the unpruned log triggers; otherwise the address stays tracked. |
| `RateLimiter.TriggerCounted` | src/troshkad/troshkad.py:140-151 | On the pruned history the permanent-ban test succeeds exactly when the unpruned log makes the address permanent; otherwise the address stays tracked. |
| `RateLimiter.StaleFailsDropped` | src/troshkad/troshkad.py:187-192 | Deleting a failure list whose last entry left the window keeps the address tracked. |
| `RateLimiter.StaleHistoryDropped` | src/troshkad/troshkad.py:196-203 | Deleting a ban history whose last entry left the window keeps the address tracked. |
| `RateLimiter.QuietIsNeverBanned` | src/troshkad/troshkad.py:130-180 | No false positives: an address that never fails ten times within 60 s is never banned, at any time. |
| `RateLimiter.BurstIsBanned` | src/troshkad/troshkad.py:130-180 | No false negatives: after ten failures in a row that fit in one window, on top of any history, the address is banned. |
| `RateLimiter.Limiter.SweepFails` | src/troshkad/troshkad.py:187-192 | Exactly the failure lists whose last entry left the window go, one at a time, and the tables stand for the log after each. |
| `RateLimiter.Limiter.SweepBans` | src/troshkad/troshkad.py:193-195 | Exactly the expired bans go, one at a time, and the tables stand for the log after each. |
| `RateLimiter.Limiter.SweepHistory` | src/troshkad/troshkad.py:196-203 | Exactly the ban histories whose last entry left the window go, one at a time, and the tables stand for the log after each. |
| `RateLimiter.SlideWindow` | src/troshkad/troshkad.py:136-138 | Pruning a sorted list and adding the present time keeps it sorted and keeps every count from a later cut-off. |
| `RateLimiter.StillTracked` | src/troshkad/troshkad.py:130-180 | Time passing, or a failure of another address, keeps an address tracked. |
| `RateLimiter.SweepsCannotBeObserved` | src/troshkad/troshkad.py:130-203 | Any run of failures, questions and sweeps under a monotone clock shows the same answers, and the same bans at each failure, with all its sweeps taken out. |
| `RateLimiter.SameLogSameAnswers` | src/troshkad/troshkad.py:130-203 | The bisimulation behind it: two sets of tables that stand for one log answer alike from then on, however often either is swept. |
| `RateLimiter.SweptIsTracked` | src/troshkad/troshkad.py:183-203 | After a sweep the tables stand for the same log, at every address. |
| `RateLimiter.AskedIsTracked` | src/troshkad/troshkad.py:170-180 | A question is answered as the whole log says, and dropping an expired ban keeps the tables standing for it. |
| `PortForwards.HostHop` | src/troshkad/troshkad.py:5821-5884 | The host rules match a packet iff some complete forward claims it, and send it to the transit address of the first such forward, for every prefix of the list. |
| `PortForwards.NamespaceHop` | src/troshkad/troshkad.py:5594-5679 | For a packet at the transit address of forward k only the rule of forward k can match, and it leads to that forward's internal address and port. |
| `PortForwards.NamespaceIgnoresOutside` | src/troshkad/troshkad.py:5594-5679 | The namespace rules leave every packet to an address outside the transit subnet alone. |
| `PortForwards.TwoHops` | src/troshkad/troshkad.py:5594-5679 | Where both hops together deliver any packet from outside the transit subnet, for any list of forwards: to the first claiming forward's target, or, if its hops disagree on the port or its transit address is no host address, to that transit address; untouched if none claims it. |
| `PortForwards.TwoHopsAsDeclared` | src/troshkad/troshkad.py:5821-5884 | The two hops deliver as declared if and only if the first claiming forward stands at index 244 or earlier and does not carry a private address together with a different transit port (or its stranding place is its declared target). |
| `PortForwards.DisagreeingForwardStrands` | src/troshkad/troshkad.py:5839-5884 | A concrete forward with a private address and another transit port whose connections stay at the transit address. |
| `PortForwards.DeliversWhatItOffers` | src/troshkad/troshkad.py:5594-5679 | A packet for what a forward at index 244 or earlier offers, and no earlier forward claims, is delivered to that forward's target and port. |
| `PortForwards.IncompleteForwardsDoNothing` | src/troshkad/troshkad.py:5821-5884 | Forwards without a port, a target or a way in leave every packet alone. |
| `NetworkSetup.NetworkFullSetup` | src/troshkad/troshkad.py:5887-5960 | After base, forwarding, outbound and DNAT setup the namespace accepts a packet iff the declaration allows it; the host's chains are those of the project's setup, which accept exactly its veth's traffic and masquerade exactly its transit subnet; and the NAT rules of the project's own host chain and of the namespace deliver every packet from outside as the declared forwards say, as far as their transit addresses are host addresses, to ports the namespace accepts. It succeeds iff nft takes every complete forward's address, so for any list of at most 245. |
| `NetworkSetup.Namespace.SetupBase` | src/troshkad/troshkad.py:5251-5344 | Whatever was in the namespace is gone and nothing is let through. |
| `NetworkSetup.Namespace.SetupForwarding` | src/troshkad/troshkad.py:5347-5469 | What is accepted grows by exactly: packets that stay on one lab bridge or on the BMC bridge, packets between two bridges of one router in either direction, and established traffic. |
| `NetworkSetup.Namespace.AddRouter` | src/troshkad/troshkad.py:5399-5447 | The rules from the i<j pair loop accept exactly the packets between two different entries of the router, in either direction. |
| `NetworkSetup.Namespace.AddOutboundPortRule` | src/troshkad/troshkad.py:5472-5550 | One entry of the outbound list lets through exactly what it means: a bare port tcp and udp, `port/proto` that protocol, `icmp` all ICMP and `icmp/type` that type. |
| `NetworkSetup.Namespace.SetupOutboundRules` | src/troshkad/troshkad.py:5553-5591 | What is accepted grows by exactly what the outbound policy allows from a lab bridge to the gateway; a restricted policy without port text allows everything. |
| `NetworkSetup.Namespace.SetupPortForwardDnat` | src/troshkad/troshkad.py:5594-5679 | It succeeds iff every complete forward has a valid transit address; then the rules are those of the declared forwards, the map for the host's loop agrees with them, and exactly the forwarded inner ports are accepted from the gateway. |
| `NetworkSetup.LinkedAll` | src/troshkad/troshkad.py:5399-5447 | Accepting every pair i<j both ways is accepting every pair of different entries. |
| `NetworkSetup.IcmpEntry` | src/troshkad/troshkad.py:5472-5498 | An entry's part before the slash is `icmp` iff the entry is `icmp` or begins with `icmp/`. |
| `NetworkSetup.DecideAppend` | src/troshkad/troshkad.py:5347-5469 | In a drop-by-default chain of accepting rules, one more rule accepts exactly what it matches on top of what was accepted. |
| `NetworkSetup.Namespace.AddOutboundEntries` | src/troshkad/troshkad.py:5553-5591 | The entries of the list, one after the other, let through from one bridge exactly what some entry allows. |
| `HostChains.RunKeepsOk` | src/troshkad/troshkad.py:5690-5818 | Over any sequence of setups and teardowns of any number of projects, each base chain holds exactly one jump for each project that is set up in a NAT mode and none for any other, every jump has its target, and nothing else jumps to a project's chain. |
| `HostChains.SetupKeepsHook` | src/troshkad/troshkad.py:5690-5818 | One setup keeps that for the base chain of each hook. |
| `HostChains.TeardownKeepsHook` | src/troshkad/troshkad.py:6208-6256 | One teardown keeps that for the base chain of each hook. |
| `HostChains.FoundIffActive` | src/troshkad/troshkad.py:5746-5762 | Searching the listing for the text of a jump finds it iff the project is set up. |
| `HostChains.SearchIsExact` | src/troshkad/troshkad.py:5746-5762 | Among rules the projects write, with ids of eight characters, the text search finds exactly the project's own jump. |
| `HostChains.SetupTwice` | src/troshkad/troshkad.py:5690-5818 | Repeating a setup changes nothing, from any tables. |
| `HostChains.TeardownUndoesSetup` | src/troshkad/troshkad.py:6237-6256 | Teardown after setup of an inactive project gives back the tables there were, but for base chains that setup had to create. |
| `HostChains.Isolation` | src/troshkad/troshkad.py:5690-5818 | An operation of one project leaves every other project's chains, every foreign chain and every other line of the base chains untouched. |
| `HostChains.UnequalIdsInterfere` | src/troshkad/troshkad.py:5904-5908 | Why ids are cut to one length: with ids of unequal length the prefix search would take away another project's jump. |
| `HostChains.IsolatedIffPidsDiffer` | src/troshkad/troshkad.py:1151-1154 | For any two valid project ids: no request for the one, whatever it asks and whatever the tables hold, touches a chain of the other if and only if their first eight characters differ. |
| `HostChains.SecondReplacesFirst` | src/troshkad/troshkad.py:5901-5908 | Of two projects whose valid ids begin alike, the second setup replaces the chains of the first, and both share one jump. |
| `HostChains.IdsBeginAlike` | src/troshkad/troshkad.py:993-993 | For every eight hexadecimal digits there are two valid ids that begin with them. |
| `HostChains.Host.SetupHostNftables` | src/troshkad/troshkad.py:5690-5818 | The commands, with their existence checks and text searches, lead to exactly the tables `AfterSetup` describes, and to no change without a NAT gateway. |
| `HostChains.Host.LinkBases` | src/troshkad/troshkad.py:5746-5762 | Every base chain gets the project's jump unless its listing already mentions it; no other chain changes. |
| `HostChains.Host.SetupHostPortForwardDnat` | src/troshkad/troshkad.py:5821-5884 | One rule for each complete forward that has a way in, at the transit address that the map from the namespace loop gives. |
| `HostChains.Host.RemoveJumps` | src/troshkad/troshkad.py:6208-6234 | Every line that mentions the chain goes, every other one stays in order. |
| `HostChains.Host.TeardownHostNftables` | src/troshkad/troshkad.py:6237-6256 | Unlinking, flushing and deleting, where deleting fails while a jump is left, leads to exactly the tables `AfterTeardown` describes. |
| `HostChains.Host.CreateChains` | src/troshkad/troshkad.py:5700-5744 | All base chains and the project's own are there, the project's own are empty, and nothing else changed. |
| `HostChains.Host.FillChains` | src/troshkad/troshkad.py:5764-5818 | The project's own chains hold exactly its accept, masquerade and DNAT rules. |
| `HostChains.TornDownBase` | src/troshkad/troshkad.py:6208-6234 | In a right state, a teardown takes its own jump out of each base chain and nothing else. |
| `HostChains.NoJumpLeft` | src/troshkad/troshkad.py:6237-6256 | When a project's chain is deleted, no jump to it is left anywhere, so that the deletion succeeds. |
| `HostChains.BodyPasses` | src/troshkad/troshkad.py:5760-5806 | What a setup writes accepts the veth's traffic in both directions and masquerades the transit subnet, and nothing else. |
| `Frames.UnpackPack` | scripts/troshka_oc.py:170-177 | Unpacking undoes packing for every stream id below 2^32 and every payload; packing fails for exactly the others. |
| `Frames.PackUnpack` | scripts/troshka_oc.py:170-177 | Packing undoes unpacking for every datagram of at least four bytes; unpacking fails for exactly the others. |
| `Tunnel.StepKeeps` | scripts/troshka_oc.py:303-511 | Every step of every client, pump, idle task and lock holder, and every server message, keeps the invariant of the tunnel. |
| `Tunnel.StreamIntegrity` | scripts/troshka_oc.py:303-511 | Over every interleaving, with idle drops and redials: a stream (session and id) stays with the one client it was allocated to; what reached the server on it is a prefix of what that client wrote; what that client got is a prefix of what the server sent on it. |
| `Tunnel.NoCrossTalk` | scripts/troshka_oc.py:345-403 | A message of one session never reaches the writer of a stream of another session. |
| `Tunnel.SessionTable` | scripts/troshka_oc.py:317-343 | In every reachable state the entries of `streams` belong to the current session; after a drop, and while the idle task holds the lock, both tables are empty. |
| `Tunnel.FreshIds` | scripts/troshka_oc.py:433-440 | The next id of a session, and id 1 of the next session, belong to nobody yet. |
| `Tunnel.RunKeepsOwner` | scripts/troshka_oc.py:433-440 | Once allocated, a stream never changes its client. |
| `Tunnel.LeavingMayPopAnother` | scripts/troshka_oc.py:502-504 | A leaving client takes away a stream that is not its own if and only if its session is over and the current one has given out the same bare id. |
| `Tunnel.LeftoverPopsTheNewStream` | scripts/troshka_oc.py:464-511 | That hazard is real: a run, from dialling session 1 to streaming in session 2, ends where the client left over from session 1 removes the entry of the client of session 2. |
| `Tunnel.IdleDropKeeps` | scripts/troshka_oc.py:442-462 | The idle task's decision to drop keeps the invariant: it drops only with both tables empty. |
| `Tunnel.AllocateKeeps` | scripts/troshka_oc.py:433-440 | Allocating the next id enters it in both tables for the current session and keeps the invariant. |
| `Tunnel.PumpReadsKeeps` | scripts/troshka_oc.py:345-403 | Handling one message, of any kind, keeps the invariant. |
| `Tunnel.LeaveKeeps` | scripts/troshka_oc.py:495-511 | A client's `finally`, which pops by bare id, keeps the invariant nevertheless. |
| `Tunnel.DropSessionKeeps` | scripts/troshka_oc.py:317-343 | Beginning to drop a session keeps the invariant. |
| `Tunnel.SendKeepsUp` | scripts/troshka_oc.py:487-491 | Sending what a client wrote, in frames, keeps what reached the server a prefix of it. |
| `Tunnel.DeliverKeepsDown` | scripts/troshka_oc.py:374-385 | Writing a frame's payload to its stream's client keeps what the client got a prefix of what the server sent. |
| `DomainXml.Domain.ReadConfig` | src/troshkad/troshkad.py:2145-2182 | The loops of the reader, with the fallback to per-device boot orders, read exactly the boot order, vCPUs, RAM in MB, NIC list, disk paths and CD-ROM paths of the tree. |
| `DomainXml.Domain.Reconfigure` | src/troshkad/troshkad.py:2554-2608 | Reading the edited tree back gives the requested boot order, vCPUs, RAM in MB and NIC list, and the requested disk and CD-ROM paths within the limits of target names; what was not requested is unchanged, and target names that were apart still are. |
| `DomainXml.EditedMeetsRequest` | src/troshkad/troshkad.py:2554-2608 | The device edits of any request, one after the other, read back as requested, and the edits for one kind of device do not disturb the others. |
| `DomainXml.Domain.ReconfigureBootDevs` | src/troshkad/troshkad.py:2241-2259 | The config reader then sees exactly the requested boot order, also for an empty one; everything else in `os` is unchanged and no device keeps an order of its own. |
| `DomainXml.RebootedReads` | src/troshkad/troshkad.py:2241-2252 | Boot elements put behind the first `type` read back in order, and taking them out again gives what there was without the old ones. |
| `DomainXml.Domain.ApplyVcpuRam` | src/troshkad/troshkad.py:2537-2551 | The memory is the requested MB in KiB, so the reader sees it; `currentMemory` follows when it is there; what is not requested stays. |
| `DomainXml.Domain.ReconfigureNics` | src/troshkad/troshkad.py:2276-2292 | The interfaces are replaced by the requested ones in order, behind all other devices. |
| `DomainXml.NicsMeanWanted` | src/troshkad/troshkad.py:2276-2292 | The reader then sees exactly the requested bridges, MACs and nested-MAC trust, and the disks and CD-ROMs it saw before. |
| `DomainXml.Domain.ReconfigureDisks` | src/troshkad/troshkad.py:2373-2398 | Removing in place and adding one by one gives exactly the synchronised devices. |
| `DomainXml.SynchronisedMeansWanted` | src/troshkad/troshkad.py:2373-2398 | Afterwards no plain disk has an unwanted path; every wanted path is attached unless it already was as a CD-ROM or vdb..vdp are exhausted; distinct target names stay distinct; kept disks, CD-ROMs and NICs are untouched. |
| `DomainXml.SynchronisedTwice` | src/troshkad/troshkad.py:2373-2398 | A second call with the same list changes nothing if and only if no wanted path is empty or no target name is left. |
| `DomainXml.AddedFresh` | src/troshkad/troshkad.py:2331-2360 | Added disks have wanted paths that were not attached, and fresh, pairwise distinct names. |
| `DomainXml.AddedAll` | src/troshkad/troshkad.py:2331-2360 | A path that is neither attached nor added found all fifteen names in use. |
| `DomainXml.FirstFree` | src/troshkad/troshkad.py:2331-2345 | The name found is not in use; none is found iff every letter's name is. |
| `DomainXml.Domain.ReconfigureCdroms` | src/troshkad/troshkad.py:2451-2468 | The loop gives exactly the replaced CD-ROMs, or no change when the sets already agree. |
| `DomainXml.CdromsMeanWanted` | src/troshkad/troshkad.py:2401-2468 | The reader then sees exactly the wanted set of CD-ROM paths, or the first ones when the sixteen names ran out; disks and NICs read as before. |
| `DomainXml.NoBootOrders` | src/troshkad/troshkad.py:2241-2259 | Nothing any later edit adds brings back a boot order that was stripped. |
| `DomainXml.Domain.ReplaceBootElems` | src/troshkad/troshkad.py:2241-2252 | Removing the boot elements and inserting the new ones one by one gives exactly the replaced list. |
| `DomainXml.Domain.StripBootOrders` | src/troshkad/troshkad.py:2253-2259 | Every device keeps everything but its own boot order. |
| `DomainXml.Domain.RemoveUnwanted` | src/troshkad/troshkad.py:2381-2388 | Removing elements from the list while going through it leaves exactly those that stay, in order. |
| `DomainXml.Domain.ParseBootDevices` | src/troshkad/troshkad.py:2086-2110 | The boot elements when there are any, else the kinds of device in the order of their own boot orders, each once. |
| `DomainXml.Domain.CollectDeviceBootEntries` | src/troshkad/troshkad.py:2063-2083 | The boot orders of disks, CD-ROMs and interfaces, in document order, and of nothing else. |
| `DomainXml.Domain.ParseMemory` | src/troshkad/troshkad.py:2113-2125 | RAM in MB: KiB are divided, anything else is taken as it is. |
| `DomainXml.SortSorts` | src/troshkad/troshkad.py:2105-2110 | The entries are in order of boot order and then kind, and the same as before. |
| `DomainXml.PathlessDiskIsAddedAgain` | src/troshkad/troshkad.py:2393-2398 | A requested disk without a path is added again by every call. |
| `DomainXml.EditedDistinct` | src/troshkad/troshkad.py:2373-2468 | A reconfiguration, with any combination of edits, keeps the target names of all disks and CD-ROMs apart. |
| `DomainXml.CdromsDistinct` | src/troshkad/troshkad.py:2451-2468 | Replacing the CD-ROMs keeps target names apart. |
| `DomainXml.AddedCdromsFresh` | src/troshkad/troshkad.py:2401-2436 | Every added CD-ROM has the bus of the ones there were, the name prefix that goes with it, and a name that no other device has. |
| `DomainXml.CdromBusIsLast` | src/troshkad/troshkad.py:2439-2448 | The bus is that of the last CD-ROM that names one. |
| `DomainXml.NoCdromBusIsSata` | src/troshkad/troshkad.py:2439-2448 | Without a CD-ROM that names a bus it is sata. |
| `DomainXml.AddedAsRequested` | src/troshkad/troshkad.py:2326-2361 | Every added disk is a requested one, with its path and bus and a `vd` name. |
| `DomainXml.NicDevicesAt` | src/troshkad/troshkad.py:2276-2292 | Every requested NIC is there with its bridge, MAC, model and trust, in order. |
| `DomainXml.RebootedPlace` | src/troshkad/troshkad.py:2241-2252 | The new boot elements stand in order right behind the first `type`. |
| `LiveCapture.NoWriteIsLost` | src/troshkad/troshkad.py:8394-8606 | On every run, with any failures, cancellation, retries, stuck commits, and snapshots or block jobs that outlive their command, the guest reads exactly what it wrote. |
| `LiveCapture.StepShowsWrites` | src/troshkad/troshkad.py:8394-8606 | No step but a guest's write changes what the guest reads, and that one changes one block. |
| `LiveCapture.PointInTime` | src/troshkad/troshkad.py:8723-8844 | Once a snapshot was taken, the image of the first disk is what the guest's writes up to the snapshot made of that disk, for every interleaving; so is the image of any later disk the guest left alone until it was flattened. |
| `LiveCapture.OnlyTheFirstIsSafe` | src/troshkad/troshkad.py:8797-8844 | For every capture that finds no overlay file, and every position with a disk of at least two blocks: the image there is in all runs one that its disk held if and only if the position is the first. |
| `LiveCapture.LaterDisksTear` | src/troshkad/troshkad.py:8797-8844 | For every capture that finds no overlay file, and every later position with a disk of at least two blocks: a run, in which all overlays are committed without a fault, gives an image that its disk never held. |
| `LiveCapture.RemovedOnlyAfterPivot` | src/troshkad/troshkad.py:8428-8436 | An overlay file goes away only in a state where the guest no longer runs on it; in every state a guest's overlay file exists. |
| `LiveCapture.NothingForgotten` | src/troshkad/troshkad.py:8590-8606 | When job and thread have ended, a disk still on its overlay is one that a committer gave up on, with one exact exception: if the snapshot command took effect after it had reported failure, no disk is ever committed or given up on. |
| `LiveCapture.LateSnapshotIsForgotten` | src/troshkad/troshkad.py:8518-8541 | That exception happens to every capture that finds no overlay file: a run in which the command times out, takes effect afterwards, and every disk is forgotten. |
| `LiveCapture.SnapIsVisible` | src/troshkad/troshkad.py:8497-8552 | The recorded snapshot is what the guest's disks held at the one snapshot step. |
| `LiveCapture.StepKeeps` | src/troshkad/troshkad.py:8723-8844 | Every step of guest, capture job, commit thread and block jobs keeps the invariant. |
| `LiveCapture.MoveKeepsCover` | src/troshkad/troshkad.py:8555-8606 | Every overlay in use stays on a committer's list or is given up. |
| `LiveCapture.RunKeeps` | src/troshkad/troshkad.py:8723-8844 | The invariant holds in every state of every run that begins over whatever earlier captures left behind. |
| `LiveCapture.MoveKeepsDisk` | src/troshkad/troshkad.py:8555-8587 | No move of a committer, successful or not, changes what the guest reads; only a removal takes a file away, from a disk that is not on its overlay. |
| `LiveCapture.StepKeepsBase` | src/troshkad/troshkad.py:8609-8669 | While the first disk is flattened no base image changes, and a disk without a write since the snapshot keeps it in its base. |
| `LiveCapture.AllCommitted` | src/troshkad/troshkad.py:8555-8606 | When no command of a committer fails, every overlay has been committed when everything is over, wherever the capture itself failed or was cancelled. |
| `LiveCapture.GivesUpAtTheSecondFailure` | src/troshkad/troshkad.py:8555-8606 | An overlay is given up on only when the list cannot be had, in a crash, or at its failure after a first abort. |
| `LiveCapture.TriesTwice` | src/troshkad/troshkad.py:8555-8587 | After a first failure the same overlay is aborted and tried again; after a second one the next overlay comes. |
| `LiveCapture.BlockJobFinishes` | src/troshkad/troshkad.py:8555-8587 | While the guest rests a block job can always copy what it has left, and the guest sees nothing of it. |
| `LiveCapture.FailureLeavesBehind` | src/troshkad/troshkad.py:8555-8606 | A pivot that is reported as failed may have taken effect, a failed block job may be gone or go on, and a list that cannot be had ends the thread. |
| `DiskReconcile.Pass.ReconcileDisks` | src/operator/handlers/vm.py:1558-1586 | Whatever the cluster answers, every call of a pass is safe. A pass that does not raise returns exactly the new disks with their names, requested the deletion of every removed one, and left every other disk alive, created and then cloned, or created blank, and every grown one large enough. |
| `DiskReconcile.Pass.ProvisionNewDisks` | src/operator/handlers/vm.py:1361-1408 | In any order of the disks: a known disk is left alone only when it was found bound, ready or in progress, and cleared only right after it was found neither bound nor alive; any other one is provided. |
| `DiskReconcile.Pass.NeedsReprovision` | src/operator/handlers/vm.py:1324-1345 | The answer is yes only after a read that was not bound and a failed or missing DataVolume, and no only after a bound read or a live one. |
| `DiskReconcile.Pass.CloneS3Disk` | src/operator/handlers/vm.py:1264-1321 | A clone counts as ready only when the wait, after this create, saw the DataVolume succeed; nothing but this disk's DataVolume is touched. |
| `DiskReconcile.Pass.ResizeExistingPvcs` | src/operator/handlers/vm.py:1446-1485 | Every grown disk is read and, unless gone or large enough, expanded at once to the new size; nothing is deleted. |
| `DiskReconcile.Pass.DeleteRemovedDisks` | src/operator/handlers/vm.py:1437-1443 | Both deletions are requested for every removed disk and for nothing else. |
| `DiskReconcile.BoundVolumesSurvive` | src/operator/handlers/vm.py:1324-1408 | Behind every safe log, in any cluster that does not itself unbind or delete: a kept disk's bound PVC is there, bound and no smaller at every moment, and neither its deletion nor that of its DataVolume, which would take it along, is ever requested. |
| `DiskReconcile.DeletedIffRemoved` | src/operator/handlers/vm.py:1437-1443 | A pass that does not raise requests the deletion of a bound PVC, and of its DataVolume, if and only if a removed disk has that volume name, whether or not a kept disk has it too. |
| `DiskReconcile.KeptAndRemovedCollide` | src/operator/helpers/k8s.py:89-104 | A kept disk and a removed one with one volume name. |
| `DiskReconcile.NumberedIdsCollide` | src/operator/helpers/k8s.py:89-104 | Disk ids that end in the same `-disk-<number>` do share a volume name. |
| `DiskReconcile.NamesApart` | src/operator/helpers/k8s.py:89-104 | Volume names are injective on a set of ids exactly when the short ids are. |
| `DiskReconcile.DigitsFrom` | src/operator/helpers/k8s.py:89-104 | The digits at the end of an id, all of them. |
| `DiskReconcile.RequestsNeverShrink` | src/operator/handlers/vm.py:1446-1485 | No call lowers the request of a PVC, bound or not, that is there before and after it and that it does not replace. |
| `DiskReconcile.Pass.KeepOrClear` | src/operator/handlers/vm.py:1378-1386 | A known disk is kept after it was found alive, or cleared after it was found dead, or the pass raises. |
| `DiskReconcile.Pass.Provide` | src/operator/handlers/vm.py:1388-1405 | A clone is created and seen ready, or a blank disk is created with its size, and nothing is deleted. |
| `DiskReconcile.Pass.ResizeDisk` | src/operator/handlers/vm.py:1452-1484 | An expansion follows a read that showed less, and nothing else is written. |
| `DiskReconcile.OthersStillServed` | src/operator/handlers/vm.py:1361-1408 | With distinct volume names, serving one disk takes nothing from the others. |
| `DiskReconcile.LateCallsDeleteNothingKept` | src/operator/handlers/vm.py:1580-1585 | Resizing, waiting and deleting the removed disks leave every other disk served. |
| `DiskReconcile.OtherIdsAreCut` | src/operator/helpers/k8s.py:89-99 | An id that does not end in `-disk-<number>` is cut to its first eight characters. |
| `DiskReconcile.CutIdsCollide` | src/operator/helpers/k8s.py:89-104 | Two such ids share a volume name if and only if their first eight characters agree. |
| `DiskReconcile.NewDiskIsProvided` | src/operator/handlers/vm.py:1348-1408 | A pass that does not raise has cloned a new disk and seen it ready, or created its blank volume with its size, which is 20 if none is given. |
| `DiskReconcile.GrownDiskFits` | src/operator/handlers/vm.py:1446-1485 | A pass that does not raise found a grown disk large enough or expanded it to its size, where no size and 0 count as 20. |
| `DataVolumes.TerminalIffSome` | src/operator/handlers/vm.py:177-209 | The conditions are terminal iff one of them is a rejected clone or a size that cannot fit. |
| `DataVolumes.StatusMeans` | src/operator/handlers/vm.py:212-243 | A phase of success wins; else a phase of failure or a terminal condition means failure; no volume means deleted. |
| `CloneHealing.CreateLeavesHope` | src/operator/handlers/vm.py:380-451 | The create part of an attempt ends, unless an API call failed, having seen success, or with a DataVolume that is absent, not failed, or marked for deletion. |
| `CloneHealing.ProceedsOnlyOnSuccess` | src/operator/handlers/vm.py:519-531 | A run proceeds only after a look in the same attempt that found the DataVolume succeeded. |
| `CloneHealing.NoBlindRetry` | src/operator/handlers/vm.py:380-451 | Of all attempts that one failed clone ends, every one but the first ends with its deletion already requested, unless the API refused that. |
| `CloneHealing.AtMostTwoAttempts` | src/operator/handlers/vm.py:380-451 | If deletions are accepted and complete before the next attempt, no clone ends more than two attempts, however the importer behaves. |
| `CloneHealing.GoneIsGone` | src/operator/handlers/vm.py:399-435 | A clone that is gone is never seen again. |
| `CloneHealing.StepKeeps` | src/operator/handlers/vm.py:380-451 | Every step of importer, operator and deletions keeps the invariant. |
| `CloneHealing.StepKeepsPlace` | src/operator/handlers/vm.py:399-435 | Without an API error the wait begins only with a clone that is new, not known to have failed, or on its way out. |
| `CloneHealing.FailedCloneIsHealed` | src/operator/handlers/vm.py:380-451 | From every attempt that begins with a failed clone a run leads through within that attempt, with a clone of its own, and without a deletion by anybody else. |
| `UpdatePath.OneFailureIsForGood` | src/operator/handlers/vm.py:1296-1321 | Over every run of importer, create, wait and retries that nobody else's deletion breaks: once the failure of a clone ended one attempt, that clone stays and stays failed, every later attempt that a failure ends is ended by it, and none gets through. |
| `UpdatePath.StuckIffFailed` | src/operator/handlers/vm.py:1296-1321 | An update that nobody's deletion helps can still get through if and only if the volume there is has not failed. |
| `UpdatePath.StuckIffSeenFailed` | src/operator/handlers/vm.py:246-267 | A run gets stuck, on a clone from which no continuation gets through, if and only if one of its looks finds the clone failed. |
| `UpdatePath.AbsentVolumeGetsStuck` | src/operator/handlers/vm.py:1296-1321 | A run from an absent volume: the first attempt creates the clone, the importer fails it, and any number of attempts are ended by it. |
| `UpdatePath.FailsAgain` | src/operator/handlers/vm.py:1296-1321 | From any failed clone, a run in which any number of further attempts are ended by it. |
| `UpdatePath.DeletionHelps` | src/operator/handlers/vm.py:1296-1321 | Somebody else's deletion helps a stuck update: once the clone is gone, an attempt can get through again. |
| `CephFreeze.Cluster.Freeze` | src/operator/helpers/ceph_freeze.py:35-59 | At every step, and so after a crash at any step, each deployment is as it was or scaled to nothing; whatever is scaled down is so under all five flags and after the OSDs were told to flush, and no mon is scaled down before the OSDs have stopped. A completed freeze has saved every count, scaled everything to nothing and ends with no pod of either kind Running or Pending. Without a running mon it fails and changes nothing. |
| `CephFreeze.Cluster.Unfreeze` | src/operator/helpers/ceph_freeze.py:62-90 | Until it has seen a list of mon pods and then one of OSD pods, not empty and every pod Running, nothing is below its count without the flags; from then on the deployments are at their targets. A completed one has restored the saved counts, cleared the flags and forgotten the saved state. |
| `CephFreeze.CaptureRoundTrip` | src/operator/helpers/ceph_freeze.py:35-90 | Freezing again fails; freeze then thaw gives back every replica count and leaves none of the five flags; at every step, whatever is below its original count is so under all flags. |
| `CephFreeze.ThawRestores` | src/operator/helpers/ceph_freeze.py:195-208 | Restoring the saved counts after scaling everything to nothing gives exactly the counts there were. |
| `CephFreeze.RetriedFreezeForgets` | src/operator/helpers/ceph_freeze.py:35-59 | After a crash at any point before saving, a retried freeze leads to a thaw that restores the original counts if and only if every deployment the crashed one had scaled was at nothing already. |
| `CephFreeze.RetryLosesAnOsd` | src/operator/helpers/ceph_freeze.py:35-59 | An OSD scaled before the crash comes back with nothing, although a mon ran and the retry could succeed. |
| `CephFreeze.Cluster.ScaleDeployments` | src/operator/helpers/ceph_freeze.py:161-192 | In any order and stopping anywhere, only deployments of the kind change and only to the wanted count; completed, it returns exactly the counts before. |
| `CephFreeze.Cluster.RestoreDeployments` | src/operator/helpers/ceph_freeze.py:195-208 | In any order and stopping anywhere, only saved deployments change and only to their saved count; completed, all of them have it. |
| `CephFreeze.Cluster.WaitForPods` | src/operator/helpers/ceph_freeze.py:211-243 | It succeeds at the first look, of at most 150, that finds the pods as wanted: some pod there and every one Running, or none Running or Pending. It changes nothing but the pods, and what is halted stays halted. |
| `CephFreeze.Cluster.SetFlags` | src/operator/helpers/ceph_freeze.py:47-51 | Flags are only added, all five by the time it succeeds, and then one flush; nothing happens without a running mon. |
| `CephFreeze.BothKinds` | src/operator/helpers/ceph_freeze.py:53-58 | Scaling one kind and then the other is scaling everything, and the two prior counts together are all the counts. |
| `CephFreeze.Cluster.Exec` | src/operator/helpers/ceph_freeze.py:109-158 | A ceph command needs a running mon; it may fail before or after it took effect. |
| `CephFreeze.Cluster.StopKind` | src/operator/helpers/ceph_freeze.py:161-192 | One kind is scaled to nothing and seen stopped, the counts before are returned, and a kind that was halted stays so. |
| `CephFreeze.Cluster.StopDaemons` | src/operator/helpers/ceph_freeze.py:53-58 | Both kinds are halted and every count is saved, under flags that do not change. |
| `CephFreeze.Cluster.ScaleBack` | src/operator/helpers/ceph_freeze.py:72-81 | The deployments move to the saved counts, or to 1 without any, each only from what it was to its target. |
| `CephFreeze.Cluster.UnsetFlags` | src/operator/helpers/ceph_freeze.py:86-87 | The five flags go, others stay, and no deployment changes. |
| `CephFreeze.TowardsCovered` | src/operator/helpers/ceph_freeze.py:62-90 | On the way from a frozen cluster to the targets nothing is below its count without the flags. |
| `CephFreeze.NotMatched` | src/operator/helpers/ceph_freeze.py:211-214 | Running is wanted: there is a pod, and every one is Running. Not wanted: none is Running or Pending. |
| `CephFreeze.ThawTargets` | src/operator/helpers/ceph_freeze.py:62-90 | A thaw brings a deployment to its saved count, to 1 if nothing was saved, and leaves one alone that is not among those saved. |
| `Jobs.NeverRunsAgain` | src/troshkad/troshkad.py:394-436 | A job that does not run never runs again, whatever dispatches, cancels, finishes and cleanups interleave, also when cancel and completion overwrite each other. |
| `Jobs.NeverTooMany` | src/troshkad/troshkad.py:717-740 | With N handler threads at most max_jobs - 1 + N jobs run or are about to be created, at any time. |
| `Jobs.RestartIsClean` | src/troshkad/troshkad.py:9300-9334 | A drain ends cleanly on every continuation, that is restarts only with nothing blocking or after its timeout, if and only if no dispatch with a blocking command that the job limit can still admit is in flight when it begins. |
| `Jobs.RestartKillsFew` | src/troshkad/troshkad.py:9300-9334 | A restart without a timeout only kills jobs that were created during the drain, no more than were in flight when it began. |
| `Jobs.BlockingOnlyShrinks` | src/troshkad/troshkad.py:9274-9334 | With no dispatch in flight when it began, a drain creates no job and its blocking jobs only become fewer. |
| `Jobs.CancelPreventsRestart` | src/troshkad/troshkad.py:9300-9334 | A cancel prevents this drain's restart on every continuation if and only if it is set between the clearing of the flag and the last check, or when the drain is over anyway. |
| `Jobs.RestartCanKillAJob` | src/troshkad/troshkad.py:717-740 | A run in which a dispatch has passed the checks when the drain begins, creates a blocking job after the last check, and the restart comes without a timeout. |
| `Jobs.CancelCanBeLost` | src/troshkad/troshkad.py:9300-9334 | Runs to a state in which a cancel that is set now, before the flag is cleared or after the last check, does not prevent the restart. |
| `Jobs.StepKeeps` | src/troshkad/troshkad.py:717-740 | Every step keeps the limit, the count of late jobs and what is known once nothing blocked. |
| `Jobs.StepRunning` | src/troshkad/troshkad.py:394-411 | Only the creation of a job makes a job run or block. |
| `Jobs.NoneInFlight` | src/troshkad/troshkad.py:717-740 | While a drain that began with no dispatch in flight lasts, no job is created. |
| `Jobs.LimitCanBeExceeded` | src/troshkad/troshkad.py:717-740 | For every limit: more jobs can run than are allowed if and only if there are at least two handler threads. |
| `Jobs.BoundIsReached` | src/troshkad/troshkad.py:717-740 | For every limit and every number of threads a run reaches the bound max_jobs - 1 + N. |
| `Jobs.CancelledForGood` | src/troshkad/troshkad.py:420-436 | A cancelled job reads as cancelled for good if and only if its worker has returned; else the worker's end replaces that. |
| `Jobs.MarkingCancels` | src/troshkad/troshkad.py:420-436 | A job that was found running is marked as cancelled, whatever became of it in between, and nothing else changes. |
| `Jobs.SentAway` | src/troshkad/troshkad.py:722-727 | While the daemon drains, or at the limit, a dispatch is sent away and changes nothing. |
| `Jobs.CancelEndsDrain` | src/troshkad/troshkad.py:9313-9331 | At either look a cancel ends the drain and the daemon takes jobs again; without one the drain goes on. |
| `Jobs.CancelsAndGoesOn` | src/troshkad/troshkad.py:974-983 | A request that finds the daemon draining sets the cancel and goes on to its dispatch. |
| `Jobs.ForgetsOld` | src/troshkad/troshkad.py:450-467 | Only completed and failed jobs are dropped from the table. |
| `VmStates.Agent.Reconcile` | src/troshkad/troshkad.py:8929-8949 | The cache then says exactly what the hypervisor said; a domain whose state it already had right keeps the time since when, any other one gets the present time. |
| `VmStates.Agent.AppendVmEvent` | src/troshkad/troshkad.py:8990-8995 | The event list is always the last 500 events ever appended, in order. |
| `VmStates.Agent.Lifecycle` | src/troshkad/troshkad.py:9055-9065 | A lifecycle event of one of our domains updates cache and log; any other one changes neither. |
| `VmStates.Agent.VmEvents` | src/troshkad/troshkad.py:8976-8987 | The loop returns exactly the retained events that are later than the given time, in order. |
| `VmStates.PollExact` | src/troshkad/troshkad.py:8976-8995 | A poller that has seen the first p events gets exactly the others, none lost and none twice, if and only if at most 500 arrived since and the next one is later than the last it saw. |
| `VmStates.Poller.Poll` | src/troshkad/troshkad.py:8976-8987 | However often it polls: what it has seen is the whole log, in order and once, iff it kept up, and then it can go on. |
| `VmStates.NewerAppend` | src/troshkad/troshkad.py:8985-8987 | Filtering by time goes through the list in order. |
| `VmStates.EqualTimesLoseAnEvent` | src/troshkad/troshkad.py:8985-8987 | Of two events at one time, the first of them seen, the second is never delivered. |
| `ConsoleTokens.Daemon.HandleConnection` | src/troshka-vncd/troshka-vncd.py:114-150 | The reply is the one path, claims, tables and time determine; a token is consumed by its first connection and by no check, and no token ever twice, although consumed tokens are pruned. |
| `ConsoleTokens.Daemon.OpenRelay` | src/troshka-vncd/troshka-vncd.py:150-163 | A token that opens a relay never opened one before; exactly its domain becomes active. |
| `ConsoleTokens.Daemon.EndRelay` | src/troshka-vncd/troshka-vncd.py:188-199 | The relay is gone and its domain inactive; nothing else changes. |
| `ConsoleTokens.Daemon.PruneConsumed` | src/troshka-vncd/troshka-vncd.py:91-96 | Exactly the expired tokens go from both tables, and no answer, to any path at any later time, is another for it. |
| `ConsoleTokens.ConsumedOnce` | src/troshka-vncd/troshka-vncd.py:61-63 | A token that still verifies and is not in the table was never consumed, and consuming it keeps the two tables equal. |
| `ConsoleTokens.ActiveMeansLive` | src/troshka-vncd/troshka-vncd.py:165-199 | A domain in `_active_sessions` has a live relay. |
| `ConsoleTokens.RelayEnded` | src/troshka-vncd/troshka-vncd.py:188-199 | A domain stays active exactly while it has a live relay during which no relay on it ended. |
| `ConsoleTokens.OverlappingRelays` | src/troshka-vncd/troshka-vncd.py:165-199 | The converse fails: when the first of two relays on a domain ends, the second is live and its domain inactive. |
| `ConsoleTokens.SessionOpened` | src/troshka-vncd/troshka-vncd.py:165-165 | A session that opens its relay does so with a token of its own, and makes its domain active. |
| `ConsoleTokens.Answers` | src/troshka-vncd/troshka-vncd.py:114-150 | What every path is told, said from its text, the token's claims, the consumed tokens and the active domains. |
| `SharedDelivery.RunKeeps` | src/troshkad/troshkad.py:5690-5818 | Over any run of setups and teardowns of any projects, by their whole ids, the host's chains are right, every project's chain holds the rules of its forwards, and every route leads to a namespace that is there. |
| `SharedDelivery.WhereItArrives` | src/troshkad/troshkad.py:5821-5884 | Whose chain takes a packet first decides where it arrives: at the namespace its transit subnet is routed to, and there where that namespace's rules lead. |
| `SharedDelivery.ArrivesAsDeclared` | src/troshkad/troshkad.py:5821-5884 | With no assumption about subnets: a packet that a project claims arrives as the project declares if and only if the chain that takes it first is that of a project, its own or another, from which the route leads to this project's namespace and the rules there to the declared target. |
| `SharedDelivery.ArrivesIfFirst` | src/troshkad/troshkad.py:5746-5762 | The usual case, where no other project shares the octet of the subnet or of the target, which may lie in the project's own subnet: a packet arrives as declared if and only if nothing before the project's jump takes it and its subnet is routed to the project. |
| `SharedDelivery.ServesItself` | src/troshkad/troshkad.py:5911-5918 | A project's own chain serves it if and only if its subnet's route is its own and the forward's two hops work. |
| `SharedDelivery.TakesWhatIsClaimed` | src/troshkad/troshkad.py:5821-5884 | A project's chain takes a packet exactly when one of its complete forwards claims it, and sends it to that forward's transit address. |
| `SharedDelivery.NamespaceLeads` | src/troshkad/troshkad.py:5594-5679 | What a namespace makes of a packet for any transit address, of its own subnet or another. |
| `SharedDelivery.SharedSubnetMisroutes` | src/troshkad/troshkad.py:4779-4784 | A run of two setups whose first VNIs, 1000 and 1256, agree in the low byte: what the second project claims, and nothing takes before it, ends with the first, whose route to the common subnet came first. |
| `SharedDelivery.HasItsPlace` | src/troshkad/troshkad.py:5746-5762 | In a right host the jump of every active project stands at exactly one place. |
| `SharedDelivery.SetupInstalls` | src/troshkad/troshkad.py:5690-5818 | A setup installs the rules of its project's forwards and leaves those of every other project. |
| `SharedDelivery.TeardownKeepsInstalled` | src/troshkad/troshkad.py:6237-6256 | A teardown leaves the rules of every other project. |
| `SharedDelivery.FirstComeFirstServed` | src/troshkad/troshkad.py:5860-5879 | A run of two setups of projects that claim one port of the host: the first one gets the connections of both. |
| `SharedDelivery.SetupRoutes` | src/troshkad/troshkad.py:4763-4784 | A setup routes a subnet that has no route to its project, changes no route there is, and with a new namespace leaves a route of its own behind the others. |
| `SharedDelivery.TeardownRoutes` | src/troshkad/troshkad.py:4584-4595 | Taking a project's namespace away changes no other subnet's route; its own subnet goes to a project that shares it, if there is one. |
| `AddedPorts.Gate.AddDnat` | src/troshkad/troshkad.py:6625-6760 | The port gets the first free octet from 10 on, one rule in the host chain and two in the namespace, behind all others; if no octet up to 255 is free it fails and no rule is added. |
| `AddedPorts.Gate.FirstFree` | src/troshkad/troshkad.py:6669-6672 | The octet found is free, and every one from 10 up to it is taken. |
| `AddedPorts.WhereItGoes` | src/troshkad/troshkad.py:6625-6760 | Where a packet from outside goes after a setup and any sequence of added ports: as a forward that claims it leads, a stranded one on to the first port added with its number; else to the first port added with its number; else nowhere else. |
| `AddedPorts.AsAddedIff` | src/troshkad/troshkad.py:6694-6755 | A packet for an added port goes as added if and only if that port is the first one of its number and either no forward of the setup claims the packet and the port has a host address, or the forward that claims it would have been stranded. |
| `AddedPorts.SecondOfANumberIsLost` | src/troshkad/troshkad.py:6694-6755 | Of two ports added with one number the packets all go to the first, to another destination than the second was added with. |
| `AddedPorts.DirectlyByPort` | src/troshkad/troshkad.py:6734-6755 | A packet that reaches the namespace directly for an address outside its subnet goes to the first port added with its number. |
| `AddedPorts.HostTakes` | src/troshkad/troshkad.py:6694-6712 | Of the added rules of the host the first with the packet's port takes it, to that port's transit address. |
| `AddedPorts.SpaceTakes` | src/troshkad/troshkad.py:6714-6755 | Of the added rules of the namespace the first with the packet's port takes it, by address or by port alone. |
| `OutboundEntries.EntriesOfText` | src/troshkad/troshkad.py:5553-5564 | The text of pieces joined by commas, each with blanks around it, holds exactly what counts of the pieces, in order, without the empty ones. |
| `OutboundEntries.EveryTextHasPieces` | src/troshkad/troshkad.py:5553-5564 | Every text is made of such pieces, so what its entries are is said of every text; one without a comma has one piece. |
| `OutboundEntries.OneEntryWithoutComma` | src/troshkad/troshkad.py:5553-5564 | A text without a comma holds at most one entry. |
| `OutboundEntries.StripExact` | src/troshkad/troshkad.py:5561-5561 | Stripping takes only blanks off, from both ends, and leaves none at either end. |
| `OutboundEntries.StripsToCore` | src/troshkad/troshkad.py:5561-5561 | Whatever blanks are put around a text without blanks at its ends, stripping gives that text. |
| `OutboundEntries.EntryMeans` | src/troshkad/troshkad.py:5472-5550 | A bare port lets tcp and udp to it through, `port/proto` that protocol, `icmp` all of ICMP and `icmp/type` that type. |
| `OutboundEntries.RestrictedOut` | src/troshkad/troshkad.py:5553-5568 | With the policy `restrict` and some text, a packet gets from a lab bridge to the gateway if and only if one of the text's entries lets it through. |
| `OutboundEntries.FreelyOut` | src/troshkad/troshkad.py:5569-5591 | Without a gateway, with any other policy or without text, everything gets out of a lab bridge. |
| `OutboundEntries.DnsAndHttps` | src/troshkad/troshkad.py:5553-5591 | The text `53/udp, 443` lets out udp to 53 and tcp and udp to 443, and nothing else. |
| `OutboundEntries.InOnlyForTargets` | src/troshkad/troshkad.py:5594-5679 | From the gateway's veth a packet of no known connection gets in if and only if it is tcp to the inner port of a complete forward of a `nat-portforward` gateway. |
| `OutboundEntries.RoutersLink` | src/troshkad/troshkad.py:5399-5447 | What goes from the bridge of one network of a router to that of another is let through. |
| `HostTraffic.OwnChainsServe` | src/troshkad/troshkad.py:5750-5806 | After any run of setups and teardowns, the forward chain of a project that is set up accepts exactly what comes in by or goes out to its veth, and its postrouting chain masquerades exactly what is from its transit subnet. |
| `HostTraffic.OthersDoNeither` | src/troshkad/troshkad.py:5750-5806 | Another project's chains do not accept what uses this project's veth, and masquerade its subnet only if the first VNIs of both agree in the low byte. |
| `HostTraffic.HostServesItsProjects` | src/troshkad/troshkad.py:5741-5806 | After any run the host as a whole lets a packet through for its projects if and only if it uses the veth of one that is set up, and masquerades it if and only if it is from the subnet of one. |
| `HostTraffic.JumpIffServed` | src/troshkad/troshkad.py:5741-5758 | After any run the base chain of every hook jumps to a project's chain if and only if the project is set up in a NAT mode. |
| `TunnelEffects.NobodyIsLeftHanging` | scripts/troshka_oc.py:345-403 | Over any run a stream in the table stays there or its client's writer is closed, and an opening that waits goes on waiting or is settled, unless a step pops its bare id because writing to it failed or a client of that id goes away. |
| `TunnelEffects.StepHangsNone` | scripts/troshka_oc.py:303-511 | The same of every single step, with what is closed or settled staying so. |
| `TunnelEffects.NothingIsHeldBack` | scripts/troshka_oc.py:345-403 | In every reachable state the server has all that a streaming client's task read and sent on, and an open stream in the table got all that its pump has read. |
| `TunnelEffects.ClosingCloses` | scripts/troshka_oc.py:366-372 | A close message takes its stream out of the table and closes its owner's writer, and changes nothing else; for an id that is not there it does nothing. |
| `TunnelEffects.AnswersSettle` | scripts/troshka_oc.py:359-365 | An answer settles the pending future that waits under its id in this session, granted or failed, and no other. |
| `TunnelEffects.FramesAreWritten` | scripts/troshka_oc.py:374-385 | A frame's payload is written to the open writer of its stream, and to no other. |
| `TunnelEffects.EndReleasesAll` | scripts/troshka_oc.py:386-403 | However a pump ends, every writer in the table is closed, every waiting opening fails, both tables are empty, and the session is no longer used. |
| `TunnelEffects.ClosedBeforeRedial` | scripts/troshka_oc.py:334-343 | A forced drop closes every writer and fails every waiting opening before the next session is dialled. |
| `TunnelEffects.DropLetsGo` | scripts/troshka_oc.py:317-333 | From the moment a drop begins the session is not used, and its pump is cancelled or never runs. |
| `TunnelEffects.LeavesCleanly` | scripts/troshka_oc.py:495-511 | A client that leaves closes its writer and takes its id, and nothing else, out of both tables. |
| `TunnelEffects.RelaysUp` | scripts/troshka_oc.py:487-491 | What a client's task reads and sends arrives on its own stream, after what was there, and on no other. |
| `TunnelEffects.OpenIsRetried` | scripts/troshka_oc.py:477-486 | A first failed opening goes from the tables, and is tried again on a fresh session if and only if no other stream is in use. |
| `TunnelEffects.OpenGivesUp` | scripts/troshka_oc.py:484-494 | A second failed opening is not tried again. |
| `BootOrder.FallbackNames` | src/troshkad/troshkad.py:2063-2110 | Without boot elements a name is among the boot devices if and only if some device of its kind has a boot order. |
| `BootOrder.FallbackOrder` | src/troshkad/troshkad.py:2105-2110 | The names stand once each, in the order of the lowest boot orders of their kinds, and for equal orders CD-ROM, disk, network. |

## Left out

- Host nft failures: of the commands whose failure the source ignores only the ones that decide something are modelled (deleting a chain that is still jumped to, the BMC bridge rule, an invalid transit address). A host command that fails for another reason is not.
- nft rule handles: a listed line is deleted as that line, not by its handle number.
- NetworkSetup.NetworkFullSetup: stops before the refresh of the infra veth, and does not model what nft reads in a port or an ICMP type given as text, which is a parameter of the model.
- NetworkSetup.Strip: knows the blanks of the ASCII range only.
- HostTraffic.HostServesItsProjects: what other rules of the base chains drop or masquerade is not modelled.
- TunnelEffects.NobodyIsLeftHanging: of a stream whose id a step pops it says nothing; its own client may still close it.
- Everything about dnsmasq, HAProxy, chrony, PXE and BMC processes.
- PortForwards.TwoHopsAsDeclared: a forward that carries both a private address and a different transit port is stranded at its transit address; the source's own branches disagree there, and the model keeps them as they are. A forward at index 245 gets the broadcast address of its subnet, which nft takes but which does not reach the namespace.
- SharedDelivery.ArrivesAsDeclared: which packets the foreign rules of the base chain take is given by a parameter; a setup that fails half-way is not modelled, and a packet that is routed to a namespace which does not hold its address counts as arrived there untranslated.
- AddedPorts.WhereItGoes: the ports of one setup, in the transit subnet that setup used; a later setup flushes the namespace's rules. An added port whose rules nft takes only in part is not modelled.
- HostChains.TeardownUndoesSetup: the base chains that a first setup creates stay, as in the source.
- RateLimiter: the lock is taken for granted, so each call is one step, and the clock never goes back (the source uses a monotonic one).
- Tunnel: the last drop when the server shuts down and the probe at startup; authentication and TLS of the WebSocket.
- DomainXml.Domain.Reconfigure: edits of graphics and headless mode, the hot attach of disks to a running domain, driver format and rotation rate, and the calls that stop, define and start the domain. Elements that libvirt always writes (`os/type`, `vcpu`, `memory`, `devices`) are taken to be there.
- LiveCapture: a domain that does not run, the upload and the cache copy (one step that may fail), freezing and trimming the guest's file systems, and two captures of one domain at a time. The job waits at most 600 s for its commit thread, so it can end while the thread still commits; a next capture that starts beside that thread is not modelled: a capture begins without one.
- LiveCapture.PointInTime: says nothing of a later disk that the guest wrote to; `OnlyTheFirstIsSafe` shows that nothing can be said.
- DiskReconcile.DigitsFrom: knows the digits 0 to 9 only.
- DiskReconcile: the golden image (one step that may fail), the bodies of the created objects, and rounding of storage quantities. The disks are taken in any order where the source follows the order of the list.
- DiskReconcile.Provided: a blank disk counts as provided once its creation was asked for; that a conflict with a volume still being deleted is taken for success is the source's, and nothing is proved of the volume then.
- DiskReconcile.BoundVolumesSurvive: nobody else creates PVCs of these names or changes their requests; a PVC that was not bound when it was read and becomes bound before the deletion arrives is not protected by the source, nor by the model.
- UpdatePath: what is said of stuck updates is said of runs in which nobody else asks for the deletion of the volume; when somebody does, the next attempt creates it anew.
- CloneHealing: an attempt is one of a sequence; two operators on one DataVolume, and the delay between attempts, are not modelled.
- CephFreeze: quoting of the command line and the text of errors. Nobody else scales the deployments or sets the flags meanwhile.
- CephFreeze.Cluster.Unfreeze: from a cluster that was never frozen and has no saved counts the source scales to 1 without flags; the safety clause asks for the flags, or for targets that are not below the counts.
- Jobs: two updates at a time, which the source does not rule out, and the drain at shutdown. The subprocesses of jobs are not modelled, only their status.
- Jobs.NeverTooMany: `max_jobs` is fixed during a run.
- VmStates.Agent.Reconcile: a lifecycle event between listing the domains and taking the lock is overwritten by the older listing, until the next reconcile.
- VmStates: block-threshold events enter the log like any other; seeding the cache at startup is not modelled.
- ConsoleTokens: signature, base64 and JSON are one function from a token's text to its claims; the certificate reload and the bytes relayed are not modelled. The clock never goes back.
- Serial console, OCR, image cache lock, garbage collection, Kubernetes manifests, the web backend and the frontend are not part of this model.
