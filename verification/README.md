# Proofs about devvm

devvm is a Go command that manages development machines: local VMs, ssh boxes and
machines on a hub. This project models the parts of it whose correctness depends on
several functions, goroutines or processes agreeing, and proves what they keep.

Code that computes values is modelled as functions. Code that works step by step is
a method with the source's loops, proved equal to a function (its specification);
the source's objects that change in place are classes whose methods state their
whole new state. Concurrency is a transition system: one step for each critical
section (or each thing done between two of them), any interleaving, and theorems
about every run (`Possible`/`End` are "these steps can happen" and "where they
end"). A system call may fail at any point of a schedule of faults the theorems
quantify over.

| file | what it models |
|---|---|
| `FileSystem` | directories, files with shared inodes, symbolic links, permission bits, umask, failing calls |
| `Archive`, `Extract`, `CopyOut`, `RoundTrip` | `readArchive`, `extractArchive`, `copyOutWith`, `archiveTree` |
| `ExtractSafety`, `NoClobber`, `Arrival`, `CopyOutSafety` | what an extraction, making the destination and a whole copy keep |
| `Unpacking`, `WholeCopy` | what an extraction and a copy that answer true have put down, and when they do |
| `Drafting`, `Steering`, `Overwriting`, `QuietRun`, `Exposure` | exactly when a copy without force can change what was there |
| `TarStream` | the check that a tar stream is complete |
| `Daemon`, `DaemonState`, `DaemonRuns`, `DaemonRecords`, `OpenLimit` | the forward daemon: its critical sections as functions, as methods, and every interleaving of them; who holds which forward at which port; the rate limit |
| `Ports`, `PortsFile`, `Migration` | saved forwards: locked edits against a deletion, the file itself, the one-time seeding |
| `Watch`, `HubRows`, `Splitter` | the `status --watch` loop, a hub's rows and their cache, the stream splitter |
| `Shell` | quoting, and what the shells and `env` read back |
| `Keys`, `Toml`, `Headers`, `ConfigEdit`, `EntryFields`, `Version`, `LateBridge` | authorized_keys, table headers, structural edits, an entry's keys, version order, late bridge hand-off |
| `Wrappers`, `Lines`, `Text` | Option, splitting and joining, white space |

What the proofs found that the code's own comments do not say:

- A relay session whose transport died can subscribe once more (its worker reads a
  queued request) and is then a subscriber that is not registered
  (`DaemonRuns.UnregisteredSubscriber`). That is the only way
  (`DaemonRuns.SubsRegisteredStep`), it is always a relay, and it gets no event,
  because a delivery looks at the registration first.
- `delete HUB/NAME` does not stop an edit that waits for the lock: `stillThere`
  reads only the hub's entry, so the edit writes the file back
  (`Ports.HubMachineComesBack`). And `config rm HUB` can miss the first file of a
  HUB/NAME that an edit past its check is about to write
  (`Ports.HubEntryLeavesFile`). `Ports.CleanStep` says exactly when.
- The conflict pass of a copy reads every failed lookup as "not there", so a failing
  `lstat` of a path that is in the way can let a copy without `-f` overwrite it. No
  other failing call can (`CopyOutSafety.CopyOutIntact`), and
  `Exposure.CopyOutExposed` says exactly which disks and archives are open to it.
- `cp-out -f` of a directory onto a file answers that it copied, and the file stands
  there as before: the directory case of the extraction asks only whether what is there
  is a link (`WholeCopy.FileForDirectory`). Every other entry it answers for is there
  (`WholeCopy.TrueMeansWhole`).
- A request for an exact port whose transport dies under its bind is answered as
  pending, but its record is not exact: the forward can come up on another port
  (`DaemonRecords.ExactLost`). A record that is exact keeps its port in every run
  (`DaemonRecords.ExactKeepsPort`).
- A stream cut right behind extension records of two blocks or more passes for a
  complete archive (`TarStream.CutAfterExtension`); `TarStream.PrefixAccepted` says
  exactly which cuts do.
- Requests that read the clock in one order and take the lock in another shorten the
  window eleven opens must span by as much as they are out of order, and no more
  (`OpenLimit.ElevenSpanWindow`, `OpenLimit.OutOfOrderPassesEleven`).
- A guest command whose first word holds `=` is taken for one more variable when
  an environment is passed along (`Shell.GuestEnvExact`, both directions).
- A second `adopt` of a late bridge would forget the first session
  (`LateBridge.AdoptLosesNothing`, both directions); every holder has one adopter.

The straight-line critical sections (in `DaemonState.State`, `Watch.Watcher` and
`LateBridge.Late`) are methods too, each equal to the step of the same name that the
theorems about runs speak of; below are only those with a loop or an argument of
their own.

## Model

| member | source | states |
|---|---|---|
| FileSystem.WalkPlain | internal/cli/cp_tar.go:238-274 | a lookup that meets no symbolic link ends at the path as spelled, or nowhere, and only through searchable directories |
| FileSystem.WalkReaches | internal/cli/cp_tar.go:238-274 | it does end there when every directory on the way lets it |
| Archive.CleanNameIsNormal | internal/cli/cp_tar.go:194-200 | an accepted name has no component that is empty, `.`, `..` or holds a slash, whatever the name was |
| Archive.CleanNameExact | internal/cli/cp_tar.go:194-200 | a name is accepted as a path exactly if it is relative and its components, followed from any directory whatever, lead to that path below it and not to the directory itself |
| Archive.ListingExact | internal/cli/cp_tar.go:184-190 | the listing shows exactly the kept headers, one group for each top-level name |
| Archive.AcceptsExact | internal/cli/cp_tar.go:128-192 | accepting header by header with the four sets is the same as the archive-wide rules: clean names, no path twice, hard links only to an earlier file of their own entry |
| Archive.ReadArchive | internal/cli/cp_tar.go:115-192 | refuses exactly the broken or unacceptable archives, and else returns the listing |
| Extract.SafeParent | internal/cli/cp_tar.go:238-274 | the component loop with its cache is the recursive check of every proper prefix |
| Extract.ForgetUnder | internal/cli/cp_tar.go:227-233 | the cache keeps exactly the paths not at or below the removed one |
| Extract.ExtractArchive | internal/cli/cp_tar.go:213-373 | the whole loop, every error path and the deferred modes leave the disk and the answer of the specification, under any faults |
| ExtractSafety.CheckParentsSound | internal/cli/cp_tar.go:238-274 | everything above a target that passes exists, is no link and is in the cache, with all its own ancestors |
| ExtractSafety.ForgetKeeps | internal/cli/cp_tar.go:225-237 | after a forced removal the cache, pruned, is still right about the disk |
| ExtractSafety.StepKeeps | internal/cli/cp_tar.go:276-366 | one header of any kind, with or without force, succeeding or failing, keeps the cache right, the tree confined to the root, and the recorded modes on directories this run made |
| ExtractSafety.ChmodDirsKeep | internal/cli/cp_tar.go:367-371 | the deferred modes are set on directories below the root only |
| ExtractSafety.ExtractionConfined | internal/cli/cp_tar.go:202-373 | extracting any accepted archive, under any faults, changes nothing outside its root and no file that had no name in it |
| ExtractSafety.CacheRight | internal/cli/cp_tar.go:223-274 | at every point of such a run each cached path exists, is no link, has directories above it and all its ancestors in the cache, and every recorded mode is for a directory an extracted header names |
| NoClobber.OnlyNamedPathsChange | internal/cli/cp_tar.go:308-371 | an extraction, forced or not, changes no node the archive does not name and no mode of a directory that was there |
| NoClobber.ExtractionSpares | internal/cli/cp_tar.go:202-373 | without force, and with nothing of a disk in the way, everything of that disk is unchanged and none of its files is opened, whatever other extractions put there since, on success and on a failure part-way |
| NoClobber.ExtractionIntact | internal/cli/cp_tar.go:202-213 | so everything that was there when it started is unchanged |
| Unpacking.CopyPuts | internal/cli/cp_tar.go:375-405 | where a hard link is refused, what stands in its place is a file with its target's content and the header's mode as the umask leaves it |
| Unpacking.StepRuns | internal/cli/cp_tar.go:276-366 | under any failing calls a header that is extracted stands at its place, with kind, content, mode, target or shared file, and leaves all those before it standing |
| Unpacking.ModesSet | internal/cli/cp_tar.go:367-371 | when the deferred modes were all set, each directory made has the mode its header says, and nothing else changed |
| Unpacking.ExtractionPuts | internal/cli/cp_tar.go:202-373 | whatever failed on the way, with or without force: an extraction that answers true read the archive to its end and has put down every entry, if the places of its files and links were free |
| Unpacking.ExtractionQuiet | internal/cli/cp_tar.go:202-373 | with nothing failing an archive whose entries can all be put down is extracted, with force over files and links, and every entry stands |
| CopyOut.GatherSome | internal/cli/cp_out.go:131-148 | what the download loop lets through: one entry for each source, of different names, each from an accepted archive |
| CopyOut.GatherExact | internal/cli/cp_out.go:131-148 | downloads are let through exactly if each is whole, acceptable and holds one top-level entry, all of different names |
| WholeCopy.RefusedFirst | internal/cli/cp_out.go:113-148 | with no source, several and no directory, or a download that is not let through, the copy is refused with the disk not even looked at |
| CopyOut.ReadAll | internal/cli/cp_out.go:128-148 | the download loop, with its one-entry and same-name refusals |
| CopyOut.MakeAll | internal/cli/cp_out.go:149-153 | making the destination and every missing directory above it |
| CopyOut.FindPlace | internal/cli/cp_out.go:149-159 | making the destination, and whether entries go into it or under its name |
| CopyOut.FindConflicts | internal/cli/cp_out.go:160-177 | the conflict pass over every root and path |
| CopyOut.CopyOutWith | internal/cli/cp_out.go:112-190 | the whole copy after the downloads: refusals, destination, conflicts, extraction in order |
| Arrival.WalkStill | internal/cli/cp_out.go:113-116 | a destination's path leads where it led while nothing that was there changes, so resolving it once is resolving it at each call |
| Arrival.MkdirAllMakes | internal/cli/cp_out.go:149-153 | making the destination adds only directories, at or below the topmost missing one, none if the path led somewhere; on success it leads to a directory |
| Arrival.DestinationChosen | internal/cli/cp_out.go:149-159 | under any failing calls the place chosen is the destination if that is a directory, and else lies below what the path above leads to |
| CopyOutSafety.ConflictsExact | internal/cli/cp_out.go:167-176 | one entry's conflict list is empty exactly if each path is free (or both are directories) or its own lookup failed |
| CopyOutSafety.AllConflictsExact | internal/cli/cp_out.go:160-177 | the copy finds no conflict exactly if that holds of every path of every source, the n-th path looked up by the n-th call |
| CopyOutSafety.FreeIsConflictFree | internal/cli/cp_out.go:160-180 | a listing with no conflict is an archive with no conflict: the check and the extraction agree on where things go |
| CopyOutSafety.CopyOutConfined | internal/cli/cp_out.go:106-190 | whatever the sources hold and whatever fails, a copy changes nothing outside the place its destination leads to, the topmost directory made for it, or its own name, and the disk stays a tree |
| CopyOutSafety.CopyOutIntact | internal/cli/cp_out.go:160-187 | without force every node, mode and content that existed is unchanged and no file opened, across all sources, on success, refusal or failure, under every schedule in which no lookup of a path that is in the way fails |
| WholeCopy.TrueMeansWhole | internal/cli/cp_out.go:149-190 | whatever fails, with or without force: a copy that answers true has put down everything its sources hold, kinds, contents, targets and modes, if the places of their files and links were free and each source has a root of its own |
| WholeCopy.CopyPuts | internal/cli/cp_out.go:149-190 | with nothing failing a copy succeeds and puts down everything if the sources' entries can be put down: where nothing stands, or with force where files and links stand |
| WholeCopy.InTheWayRefused | internal/cli/cp_out.go:160-178 | with nothing failing a copy without force is refused when any listed path of any source is in the way, and the disk is as it was |
| WholeCopy.ForcedLeaf | internal/cli/cp_out.go:178-187 | with force a copy of one file or link onto a file or link, in a directory that can be written, succeeds, and the place holds the content and mode, or the target, of what was copied |
| WholeCopy.FileForDirectory | internal/cli/cp_tar.go:306-320 | with force a copy of a directory onto a file answers true and leaves the file |
| WholeCopy.MkdirAllQuiet | internal/cli/cp_out.go:149-153 | with nothing failing a destination is made whenever the first directory above it that is there can be written; it then is new and empty, with mode 0755 less the umask, or was there and nothing changed |
| WholeCopy.LeafIntoNew | internal/cli/cp_out.go:149-190 | so one entry copied into a destination that has to be made is there |
| Overwriting.StepTracks | internal/cli/cp_tar.go:276-366 | under any failing calls a header that is extracted satisfies what the disk and the archive alone say it must, and leaves the disk they say |
| Overwriting.StepsTrack | internal/cli/cp_tar.go:276-366 | so, unless some header names a file its owner may write and all before it can be extracted, a whole run without force and without a conflict pass spares the disk |
| QuietRun.StepsCalm | internal/cli/cp_tar.go:276-366 | when nothing fails, an archive whose headers all can be extracted is, and a run that comes to such a file opens it |
| QuietRun.ChmodDirsCalm | internal/cli/cp_tar.go:367-371 | the deferred modes can all be set, because no directory is above one made before it |
| Drafting.StepDrafts | internal/cli/cp_tar.go:276-366 | under any failing calls a header that is extracted is one that can be, by the nodes, modes and headers alone, and leaves the nodes and modes they say, its hard link made or refused |
| Drafting.StepsDraft | internal/cli/cp_tar.go:276-366 | so an archive worked out on paper to come to no file of the disk leaves the disk alone in every run, and goes as worked out |
| Steering.GoingNext | internal/cli/cp_tar.go:276-366 | the other way: for a header that can be extracted on paper, the schedule of its calls under which it is, with its hard link refused or not |
| Steering.Drive | internal/cli/cp_out.go:179-185 | what several sources come to on paper a run of them comes to, under a schedule that fails the chosen hard links only |
| Exposure.OwnRoots | internal/cli/cp_out.go:160-167 | for sources with a root each the account needs no working out: one header overwrites, by the disk and the archive, and all before it can be extracted |
| Exposure.ExposedBreaks | internal/cli/cp_out.go:153-172 | for every exposed disk and any number of sources, also under one name, a schedule of failing calls that makes a copy without force open a file that was there |
| Exposure.UnexposedIntact | internal/cli/cp_out.go:160-187 | on a disk that is not exposed no schedule makes any number of sources change anything that was there |
| Exposure.CopyOutExposed | internal/cli/cp_out.go:153-187 | some schedule makes a copy without force change what was there if and only if, from a place it may choose and with some hard links refused, a regular file or hard link of a source comes to a file of that disk which its owner may write, everything before it having been extracted |
| Exposure.OneFileExposed | internal/cli/cp_out.go:153-177 | a copy of one file is exposed exactly where a file its owner may write stands in its place |
| Exposure.FailedLookupOverwrites | internal/cli/cp_out.go:169-172 | on every disk a copy of one file to the name of another that its owner may write can rewrite it without force |
| Exposure.SharedNameOverwrites | internal/cli/cp_out.go:153-166 | several sources whose destination directory is taken for none share its name: a file in the first can then rewrite one of the destination, though nothing there bears the name of a source |
| RoundTrip.CleanJoin | internal/cli/cp_tar.go:49-75 | the name an entry is given reads back as its path |
| RoundTrip.ArchiveAcceptable | internal/cli/cp_tar.go:39-92 | what archiveTree writes, readArchive accepts |
| RoundTrip.TreeBuilt | internal/cli/cp_tar.go:305-365 | extracting a tree's archive where nothing stands builds the tree, directories still with the owner's bits |
| RoundTrip.ModesOfTree | internal/cli/cp_tar.go:367-371 | setting the modes last directory first reaches every one, read-only and unsearchable ones included |
| RoundTrip.ArchiveRoundTrip | internal/cli/cp_tar.go:39-373 | archiving any tree and extracting it into an absent root succeeds and rebuilds kinds, contents, link targets and permission bits, and nothing else |
| RoundTrip.ArchiveRefused | internal/cli/cp_tar.go:59-71 | an archive is refused exactly when an entry that is not special has a line break in its name |
| TarStream.NextReads | internal/cli/cp_hub.go:296-308 | one step of the tar reader is one step of reading on from the padded position |
| TarStream.ReadTarStream | internal/cli/cp_hub.go:292-314 | the counting loop with its padding arithmetic computes the specification |
| TarStream.RequireComplete | internal/cli/cp_hub.go:316-348 | accepted exactly if the archive is complete and only zeros follow |
| TarStream.CompleteAccepted | internal/cli/cp_hub.go:282-314 | a complete archive is accepted and the count is exactly its end, whatever follows |
| TarStream.PrefixAccepted | internal/cli/cp_hub.go:282-314 | a proper prefix is refused, whatever the entries hold, exactly unless two blocks of extension records hide the cut |
| TarStream.PlainPrefixRefused | internal/cli/cp_hub.go:282-314 | an archive without extension records: every proper prefix is refused, cuts inside padding included |
| TarStream.CutAfterExtension | internal/cli/cp_hub.go:309-312 | the exception is real: a stream cut behind one extension record is accepted |
| DaemonState.State.ReleaseLocked | internal/session/daemon.go:154-160 | deletes an ownerless forward unless it is being bound, and returns its closer |
| DaemonState.State.DropOwnersLocked | internal/session/daemon.go:1412-1425 | the loop that deletes from the table it walks leaves the specified table, and returns exactly the released listeners |
| DaemonState.State.BridgeHeldLocked | internal/session/bridge.go:299-314 | no conf owner, and a ttl or a local session's |
| DaemonState.State.EphemeralRoomLocked | internal/session/bridge.go:288-296 | room exactly while fewer than twenty forwards are held by the bridge |
| DaemonState.State.AddLocked | internal/session/daemon.go:1196-1254 | the critical section of an add leaves the state and gives the outcome that the next three rows fix |
| DaemonRecords.AddRecords | internal/session/daemon.go:169-180 | an add that is answered makes its owner one of the forward's, until the later of the two times if it was one already, and says whether it was; all other owners and forwards are unchanged; an add that is not answered changes nothing |
| DaemonRecords.AddAnswers | internal/session/daemon.go:1196-1254 | which port it answers with, and whether pending, live or claimed; an exact add gets the port it asks for or an error; a record that was there keeps its identity, port and listener |
| DaemonRecords.AddAdmits | internal/session/daemon.go:1215-1218 | a capped add makes a new forward exactly while there is room, so no add leaves more than twenty held by the bridge |
| DaemonRecords.BindFailAnswers | internal/session/daemon.go:1262-1289 | a failed bind answers pending exactly if its record is there still, held and not bound by another, and the transport died under it: then everybody keeps it; else the add's own new owner holds it no more |
| DaemonState.State.RemoveSess | internal/session/daemon_session.go:336-344 | the list without the session |
| DaemonState.State.CloseSession | internal/session/daemon_session.go:295-305 | registration, subscription, awaited replies and owners go together |
| DaemonState.State.Unsubscribe | internal/session/daemon_session.go:330-334 | off the list |
| DaemonState.State.OnDead | internal/session/daemon.go:599-620 | the loop over the relays, their owners and the transport, in one section |
| DaemonState.State.DetachLocked | internal/session/daemon.go:651-657 | every forward pending, the transport taken |
| DaemonRuns.SubsStep | internal/session/daemon_session.go:261-344 | every step keeps: subscribers are served sessions without repeats, and an unregistered one is a relay |
| DaemonRuns.OwnersStep | internal/session/daemon.go:140-160 | every step keeps: a connection that owns a forward is registered, an ownerless forward is being bound |
| DaemonRuns.ListenersStep | internal/session/daemon.go:977-1312 | every step keeps: one binder for a slot, and each listener in one hand |
| DaemonRuns.EventsStep | internal/session/daemon_session.go:368-412 | every step keeps: an awaited event has had no reply, a reply on its way is its event's only one |
| DaemonRuns.StepKeepsGood | internal/session/daemon_session.go:183-247 | any one step of reader, worker, binder, bridge, reconnect loop or ticker keeps all of these together |
| DaemonRuns.OwnersRegistered | internal/session/daemon.go:1189-1202 | in every interleaving a connection owner implies its session is registered |
| DaemonRuns.ListenersAccounted | internal/session/daemon.go:1050-1072 | in every interleaving a listener is closed, gone with its transport, or held by one forward on the live transport or by one binder: none leaks, none is held twice |
| DaemonRuns.OneBinder | internal/session/daemon.go:147-160 | two binds never work on one slot |
| DaemonRuns.RepliesMatch | internal/session/daemon_session.go:368-412 | in every interleaving a send finds its channel empty, so routeReply never blocks; a delivery returns only a reply its own session sent naming its id; event ids do not repeat |
| DaemonRuns.LateReplyIgnored | internal/session/daemon_session.go:399-412 | a reply nobody awaits from this session changes nothing |
| DaemonRuns.SubsRegisteredStep | internal/session/daemon_session.go:224-247 | subscribers stay registered exactly unless the step is a subscribe by a session no longer registered |
| DaemonRuns.UnregisteredSubscriber | internal/session/daemon.go:604-610 | every run with a registered relay goes on to one in which that relay is the first subscriber and not registered |
| DaemonRuns.FirstRelay | internal/session/daemon_session.go:261-274 | such runs exist: a relay opens on a daemon that just came up |
| DaemonRuns.SubsNewestFirst | internal/session/daemon_session.go:321-344 | in every run the subscribers are in the order of their last subscribe, the newest first |
| DaemonRecords.OwnersExactly | internal/session/daemon.go:140-180 | one step of anything changes who holds a forward exactly by whom it adds to it and whom it takes from it, and shortens nobody's time |
| DaemonRecords.HeldExactly | internal/session/daemon.go:1370-1425 | in every run a forward is held by exactly the owners whose add was answered and from whom no step took it since |
| DaemonRecords.HeldStaysOpen | internal/session/daemon.go:1398-1425 | while somebody holds a live forward no step closes its listener or moves it, closing another session included, unless the transport goes |
| DaemonRecords.RecordsExactly | internal/session/daemon.go:137-160 | what one step makes of a record that stays: its port and listener become those of a bind of its own that comes back on the current transport, the listener goes exactly with the transport, and it becomes exact exactly when a request for that was honoured |
| DaemonRecords.PortsInRuns | internal/session/daemon.go:1262-1367 | in every run a binder of an exact record binds at the record's port |
| DaemonRecords.ExactKeepsPort | internal/session/daemon.go:1057-1072 | in every run an exact forward keeps its port while its record is there, through any number of transports |
| DaemonRecords.ComesBack | internal/session/daemon.go:977-1072 | in every run a pending forward can be bound again exactly if somebody other than relays holds it, and then comes back with all its owners, at its own port if it is exact |
| DaemonRecords.ExactLost | internal/session/daemon.go:1239-1288 | for any two neighbouring ports, the run in which a request for an exact one ends on the other |
| DaemonRecords.SessionsExactly | internal/session/daemon_session.go:261-344 | a session is registered exactly from its opening to its close or, a relay, its transport's death; subscribed exactly from its last subscribe; and its number is new |
| DaemonRecords.AwaitedExactly | internal/session/daemon_session.go:368-412 | an event is awaited from exactly its delivery to its answer, its giving up or the session's close; an answer that finds it awaited, and only that, is sent on |
| DaemonRecords.RelaysOnlyUp | internal/session/daemon_session.go:261-276 | in every run no relay is registered once its transport was seen to die |
| DaemonRecords.UpExactly | internal/session/daemon.go:599-830 | in every run the daemon takes itself to be up exactly if its transport never died or was set up again since it last did |
| DaemonRecords.CarriesStep | internal/session/daemon.go:599-830 | one step of anything: the transport goes exactly when it dies or is shut down, and is another exactly when restored |
| OpenLimit.Limiter.AllowOpen | internal/session/bridge.go:326-342 | the in-place compaction and the append leave the list and the answer of the specification |
| OpenLimit.ListIsRecent | internal/session/bridge.go:330-336 | the compacted list is always what is recent of every open ever admitted |
| OpenLimit.RefusedExactly | internal/session/bridge.go:337-341 | an open is refused exactly when ten admitted ones lie inside the window ending at it, and a refusal leaves the history as it was |
| OpenLimit.OpensSpaced | internal/session/bridge.go:326-342 | if no request is more than a skew earlier than one locked before it, fewer than ten earlier opens lie less than the window less the skew before any admitted one |
| OpenLimit.ElevenSpanWindow | internal/session/bridge.go:324-342 | then any eleven admitted opens span at least the window less the skew |
| OpenLimit.OrderedSpanWindow | internal/session/bridge.go:324-342 | for times in order any eleven admitted opens span at least the window, first to last |
| OpenLimit.OutOfOrderPassesEleven | internal/session/bridge.go:326-329 | no bound is better: for every skew up to the window, twelve requests all admitted of which eleven span exactly the window less the skew |
| Ports.LockStep | internal/config/ports.go:142-158 | every step keeps: one holder of the lock, and what an edit read is still what the file holds |
| Ports.EditsInLockOrder | internal/cli/hubforwards.go:105-127 | in every run the file holds the landed edits applied in the order of their locks, none lost, none twice |
| Ports.CleanStep | internal/cli/hubforwards.go:118-143 | a finished deletion stays final exactly until one of the two steps named |
| Ports.DeletionFinal | internal/cli/config_cmd.go:663-728 | a deleted entry and a deleted smol VM: once the deletion is over no edit that saw the machine has left a file or will |
| Ports.HubMachineComesBack | internal/cli/machine_cmds.go:446-473 | after `delete HUB/NAME` any edit waiting for the lock writes the file back |
| Ports.HubMachineRun | internal/cli/machine_cmds.go:446-473 | such a run exists for every edit |
| Ports.HubEntryLeavesFile | internal/cli/config_cmd.go:677-690 | a hub's entry removed while an edit of HUB/NAME is past its check leaves that edit's file |
| Ports.HubEntryRun | internal/cli/config_cmd.go:677-690 | such a run exists for every edit that adds something |
| PortsFile.ParsePorts | internal/config/ports.go:68-78 | the line loop |
| PortsFile.FileRoundTrip | internal/config/ports.go:68-111 | a list written is read back as it was exactly if each entry is trimmed, not empty, no comment and one line |
| PortsFile.Host.EditPorts | internal/cli/hubforwards.go:113-127 | refuses a machine gone meanwhile, writes nothing for no change, else the list read back is the edited one; other files untouched |
| Migration.RuntimeNameInverse | internal/config/hubname.go:42-53 | HUB/NAME and HUB@NAME are one another's inverse |
| Migration.FilesApart | internal/config/ports.go:298-321 | no two old confs seed the same file |
| Migration.Build | internal/config/ports.go:298-321 | the loop over the confs yields exactly what they all seed, or nothing if one does not parse |
| Migration.SeededOnceAndWhole | internal/config/ports.go:266-332 | in every interleaving of first runs, crashes included, the directory appears in one step, holding what every old conf had and nothing else, and no first run ever replaces it |
| Migration.FirstRunFinishes | internal/config/ports.go:298-332 | while every conf parses, any first run that builds can go on to a whole directory |
| Migration.DoneMeansThere | internal/config/ports.go:266-291 | a run that reports success leaves a directory |
| Migration.NoneUntilAllParse | internal/config/ports.go:298-303 | while one old conf does not parse no run makes the directory |
| Watch.LoopInvariants | internal/cli/status_watch.go:316-391 | in every run a refresh wanted implies a change implies an armed debounce, at most one round runs, consecutive blocks differ |
| Watch.NeverMissesAChange | internal/cli/status_watch.go:100-136 | in every run, when nothing is armed, queued or running and the last snapshot did not fail, the last block is the current snapshot |
| Watch.BlocksExactly | internal/cli/status_watch.go:257-300 | in every run the blocks written are exactly the listings the snapshots gave, in order, without those equal to the one before; a devvm.toml that does not parse is its one row |
| Watch.RefreshRunsOrJoins | internal/cli/status_watch.go:316-391 | in every run: from an event that asks for a refresh the debounce stays armed; when it fires, and at no other step, a round starts, exactly if one was asked for since it last fired and none is in flight |
| Watch.RefreshAnswered | internal/cli/status_watch.go:329-384 | so after an event that asks for a refresh, whatever happens in between, the next firing leaves a round running: a new one, or the one in flight |
| Watch.SnapshotsOnChange | internal/cli/status_watch.go:361-386 | a firing debounce takes a snapshot exactly if the loop was told of a change since the last one fired or finds the link moved |
| HubRows.ParseHubRows | internal/cli/hublist.go:107-138 | the row loop computes what the next row fixes line by line |
| HubRows.LineRead | internal/cli/hublist.go:107-138 | every line, from its columns: no row for fewer than three or no valid name; missing columns `-`; `remote-managed` and `remote-unmanaged` read as `remote`, with that managed column unless the line has its own |
| HubRows.BrokenIsNoRow | internal/cli/status.go:207-213 | the row a hub lists while its devvm.toml does not parse never becomes a machine |
| HubRows.LeadingNewline | internal/cli/hublist.go:107-113 | a blank line before a listing changes nothing |
| HubRows.CacheRoundTrip | internal/cli/hublist.go:232-242 | whatever text a hub sent, the rows cached are the rows read back |
| Splitter.BlockSplitter.Write | internal/cli/hublist.go:549-575 | one write: the buffer, the blocks handed on and the overflow are the specification's |
| Splitter.DrainStream | internal/cli/hublist.go:554-574 | one run of the loop, on a buffer holding any number of whole blocks and part of one |
| Splitter.DrainBounded | internal/cli/hublist.go:549-575 | never more than a block's limit is held, and the stream is given up exactly when more than that came without a blank line |
| Splitter.ChunksDoNotMatter | internal/cli/hublist.go:532-575 | for any stream of listings and any split into writes, after any banner of newlines: no overflow, listings with rows handed on in order, each once, and at each listing's end the last rows are its rows |
| Splitter.RowsHandedOnExactly | internal/cli/hublist.go:549-575 | a stream with no empty listing is handed on block by block, byte for byte |
| Shell.Join | internal/backend/ssh.go:184-190 | the quoting loop |
| Shell.JoinReadBack | internal/backend/exec.go:107-109 | a POSIX shell reads a joined line back as exactly the tokens, whatever they hold |
| Shell.RemoteRunExact | internal/backend/ssh.go:172-182 | a run on a host: the remote shell, or for a login run the `bash -lc` it starts, reads back the environment and the tokens |
| Shell.ProxyExact | internal/backend/hub.go:67-91 | through the remote shell, `sh -c` and the login shell a proxied command arrives token for token, with and without a terminal |
| Shell.GuestEnvArgv | internal/backend/hub.go:176-193 | refused exactly for a name that is not a variable's; else `env` with the names sorted |
| Shell.SortedUnique | internal/backend/hub.go:180-188 | that order is the only one, so the argv is the same for every order of the map |
| Shell.BeforeByBytes | internal/backend/hub.go:180-188 | the order is the one of bytes, a prefix before what it begins |
| Shell.GuestEnvExact | internal/backend/hub.go:154-193 | the guest gets exactly the environment and runs exactly the command if and only if there is no environment or the command's first word has no `=` |
| Shell.HubRunExact | internal/backend/hub.go:154-170 | a proxied exec end to end: the hub runs `devvm exec NAME --`, `sudo` for root, and the command, under the one variable that keeps it from subscribing |
| Keys.KeyLineRead | internal/keys/keys.go:28-56 | of any line of words the key is the first word that names a key type and the one after it, options before, comment after; without both there is none |
| Keys.CommentRead | internal/keys/keys.go:39-42 | a comment or blank line is for no key, whatever it holds |
| Keys.AdoptedParses | internal/keys/keys.go:39-56 | a line rebuilt from a key's prefix and another line's comment is that key's, with that comment |
| Keys.DedupLines | internal/keys/keys.go:101-133 | the loop, its counts included |
| Keys.DedupAbsorbs | internal/keys/keys.go:95-133 | deduplicating what was deduplicated together with more is deduplicating it all at once |
| Keys.DedupIdempotent | internal/keys/keys.go:95-133 | a second pass changes and drops nothing |
| Keys.MergeInStages | internal/keys/keys.go:141-144 | merging in stages is merging at once |
| Keys.MergeKeepsBoth | internal/keys/keys.go:141-144 | of both sides each key is there once and every other line is kept, the lines there first |
| Keys.CountsAddUp | internal/keys/keys.go:95-133 | kept, duplicates and own lines add up to the input |
| Keys.OwnsCounted | internal/keys/keys.go:108-112 | the count of own lines is of those whose key is own |
| Keys.FirstOccurrencesSurvive | internal/keys/keys.go:95-133 | each identity that is not own survives once, at its first occurrence, among the other lines, all kept in order |
| Keys.SurvivorReads | internal/keys/keys.go:101-133 | a surviving key's line is the first one for it, options and all; if that had no comment it ends in the first one any of its lines had |
| Keys.FileRoundTrip | internal/keys/keys.go:202-216 | lines written are read back exactly if none holds a newline and the last is not empty |
| Keys.Revoke | internal/keys/keys.go:157-187 | the one matching line, unless none, several, or a protected key's |
| Toml.WriteString | internal/config/edit.go:255-276 | the escaping loop |
| Toml.ClosingBracket | internal/config/edit.go:372-390 | the bracket scan, quotes and escapes skipped |
| Toml.ReadKey | internal/config/edit.go:393-444 | the segment loop |
| Toml.UnquoteEscape | internal/config/edit.go:255-276 | what is escaped is unquoted to itself |
| Toml.KeyRead | internal/config/edit.go:246-251 | a key written, bare or quoted, is read as the one segment it was |
| Toml.HeaderRoundTrip | internal/config/edit.go:238-370 | the header written for any name is read as that name's, whatever it holds |
| Headers.HeaderRead | internal/config/edit.go:342-444 | a dotted key in one pair of brackets or two, each segment bare, escaped or in single quotes, any white space around them, is read as its segments exactly if nothing but white space or a comment follows |
| ConfigEdit.CutTable | internal/config/edit.go:280-337 | the five loops find the cut the specification defines |
| ConfigEdit.CutIsTheTable | internal/config/edit.go:280-337 | there is a cut exactly if there is such a header; it is one range of lines: the first header of that name and no other, all of the table's own lines, the comments glued to them, the blank lines after, at the end of the file the blank lines above; a comment after a blank line or right above the next header stays, and nothing before it does |
| ConfigEdit.CutKeepsTheRest | internal/config/edit.go:335-336 | cutting a table is taking one stretch of bytes, its range of lines, out of the file |
| ConfigEdit.AppendedLines | internal/config/edit.go:53-67 | the file appended to is its old lines, a blank line and the entry's, in the file's own line ending |
| ConfigEdit.AppendThenCut | internal/config/edit.go:53-67 | an entry appended and cut again leaves the file, up to its trailing blank lines and final newline |
| ConfigEdit.EndingKept | internal/config/edit.go:53-67 | every line appended ends in CR LF if some line of the file does, and else in LF |
| EntryFields.EntryRoundTrip | internal/config/edit.go:211-234 | the lines written for an entry, read key by key, are the entry |
| Version.Split | internal/cli/update.go:612-634 | the digit loops, numbers too large clamped |
| Version.CompareVersions | internal/cli/update.go:558-582 | the component loop computes the order the rows below fix |
| Version.LargerIsNewer | internal/cli/update.go:561-573 | the tag with the larger number at the first difference is the newer, whatever suffixes follow |
| Version.VersionsOrdered | internal/cli/update.go:551-582 | a total preorder: reflexive, antisymmetric in sign, transitive |
| Version.TrailingZerosBlind | internal/cli/update.go:561-573 | any number of trailing zero components compares as none, with or without the `v`, however large the components are |
| Version.SuffixesInOrder | internal/cli/update.go:551-599 | at equal numbers prerelease, release, build; builds by their commits |
| Version.PrereleasesByText | internal/cli/update.go:581-581 | at equal numbers prereleases are in the order of their text |
| Version.BuildsExactly | internal/cli/update.go:549-599 | a suffix is a build with a commit count exactly if git describe writes it for that count, or it is a dirty tree on the tag |
| LateBridge.AdoptLosesNothing | internal/cli/bridge.go:72-81 | an adopt forgets a session exactly if it finds another one kept |
| LateBridge.EachInOnePlace | internal/cli/bridge.go:57-121 | in every run each opened session is in one place, none is closed twice, the stop channel is closed once |
| LateBridge.ClosedOnceAtTheEnd | internal/cli/bridge.go:57-121 | when all is over every session opened was closed, exactly once |

## Left out

- CopyOutSafety.CopyOutIntact: asks that no lookup of a listed path that is in the way fails, because with one failing the property is false of every exposed disk (Exposure.CopyOutExposed).
- WholeCopy.TrueMeansWhole: asks, when calls may fail, for free places and for a root for each source; what stood there is CopyOutIntact's and Exposure's subject, and sources that share a root (a destination directory taken for none) overwrite one another (Exposure.SharedNameOverwrites). With force, a place that holds a directory is not covered, because `-f` of a directory onto a file copies nothing (FileForDirectory).
- WholeCopy.CopyPuts: with nothing failing; hard links within an archive are then links, not copies.
- Headers.HeaderRead: in two pairs of brackets the key holds no `]]` itself; the source looks for the first one.
- CopyOutSafety.CopyOutConfined: the destination's path is resolved once, after the directory is made; without force that is the same as at each call (Arrival.WalkStill), with force it is not when the path leads through what is being replaced. A destination of `/` is not modelled.
- DaemonRecords.PortsInRuns: a bind that is not exact may return any of the ports the bind loop tries.
- Watch.NeverMissesAChange: every change raises an event the loop finds relevant, a nudge, or an error, or is a relink away from the watched target with an event of the config directory still to come; a relink back before the loop looked must raise an event of its own.
- Splitter.ChunksDoNotMatter: a listing together with its blank line is at most the block limit; the banner before the first is newlines only.
- Shell.JoinReadBack: the shell is the one of POSIX, sections 2.2.1 and 2.2.2 of the Shell Command Language; fish is not modelled, and the two fixed scripts are primitives that run their `$0` under a login shell.
- OpenLimit.RefusedExactly: for request times that reach the lock in order; out of it a request can be let through with ten admitted ones inside the window (OutOfOrderPassesEleven).
- Toml.UnquoteEscape: reading `\x` and octal escapes past ASCII, which make single bytes rather than text, is modelled as a refusal; nothing devvm writes has one.
- Modification times, ownership, special files on extraction, case-insensitive file systems, and other processes changing the destination during a copy.
- The tar and TOML libraries: an archive is a sequence of typed headers with their data, a header block's meaning is a parameter, and the re-parse checks around the two config edits are not modelled.
- In the daemon: transports, backoff, timeouts and the upstream subscription; forwards are identified by a number where the source compares pointers; rebindPending claims its batch slot by slot, which allows more runs than the source has; the [::1] side and the log of bind errors.
- A forward port is any natural number; `acquireLock`, socket handling and shutdown's waits are not part of this model.
- `hubWatcher`'s pipes and their backoff, fsnotify itself, rewatching a removed directory, and the messages written to stderr.
- Liveness: that a step which can happen eventually does.
- The guest's shell scripts, process spawning, ssh options, prompts and rendering, template layering and the menu bar app.
