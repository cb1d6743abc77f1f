# A verified model of ulatencyd-rs

`ulatencyd` is a Linux daemon that watches processes come and go and keeps the desktop responsive: it
classifies processes by rules, moves them between cgroup tiers, boosts the tree of the process in the
foreground, throttles fork bombs and undoes its moves when it shuts down.  This project models the part of it
that decides: the process table and its children index, the foreground tracker, the fork-bomb detector, the
rule engine and its loader, the event loop that drives them, and the three readers of kernel data (the netlink
datagram walk, the scan of `/proc`, the stat line).  It proves properties of that model for every input and
every run.

`dafny verify dfyconfig.toml` checks all of it.

## How the model is built

- Every component that the program updates in place is a class with the program's fields, and every loop is a
  loop.  Each method is proved against a function on the *value* of its object (`View() == F(old(View()))`);
  the theorems are lemmas about those functions and invariants of the values.
- What the outside world answers is an input: the clock, `/proc`, cgroup and environment reads, tier members,
  the files on disk.  The order in which a hash table is iterated is an input too (`Covers`, `Fits`), so a
  result holds for every order.  What a read of a cgroup finds is not tied to the moves made before; results
  that need it to be say so (`OnlyDaemonMoves`).
- What the daemon asks of the kernel is a log (`Effects.Log`): nice values, cgroup moves with their cause,
  scheduling and oom settings, the cgroup reads before a move, restores, and the ends of table lifetimes.
- History that the program does not keep but the theorems need is explicit: the links and removals of the table
  (`Table.hist`), all forks ever made (`ForkEvents`), the log, and the pids reset since the last scan
  (`Brain.reset`).
- A request to focus a process never returns when the walk up its parents does not end; a run (`Possible`) is
  one in which every step completes.  `Foreground.WalkEndsIffAcyclic` says exactly when a walk ends.

| file | contents |
|---|---|
| `Types.dfy`, `Effects.dfy`, `Bytes.dfy` | shared values, the request log and what it says about a pid, bytes and UTF-8 |
| `ProcessTable.dfy`, `Forest.dfy` | the table and its index; descendants by levels |
| `Focus.dfy`, `ForkBomb.dfy` | the two walks and the tracker; the windows and the bounded subtree |
| `Rules.dfy`, `RuleLoading.dfy`, `RuleRecords.dfy` | classification; loading and ordering of rules; what is loaded in terms of the files |
| `Scan.dfy`, `Netlink.dfy`, `Stat.dfy` | the readers of kernel data |
| `DaemonSpec.dfy`, `DaemonInvariants.dfy`, `DaemonRequests.dfy`, `Daemon.dfy` | the daemon's steps as functions, what they keep, what an action asks for, and the daemon object |
| `DaemonProperties.dfy`, `DaemonClassification.dfy`, `DaemonOrder.dfy`, `DaemonRecords.dfy`, `DaemonForeground.dfy`, `DaemonUndo.dfy`, `DaemonEvents.dfy`, `DaemonApplied.dfy` | what follows for every reachable state: maps, boosts, phases and throttling; which rule is applied to whom; what the order of a scan decides; managed records without a rule; foreground and table; undo at shutdown; rules, profile and processes after each event; what was last asked for a process |
| `DaemonWitnesses.dfy` | short runs in which something a comment promises does not hold |

## Where the code and its comments differ

The model follows the code; each item names the lemma that shows the difference.

- `find_app_root` says it stops on a cycle, but it only notices a process that is its own parent: on a longer
  cycle it never ends (`FocusOnCircleNeverEnds`; exactly when, `WalkEndsIffAcyclic`).
- The children index is not the inverse of the parent pids: removing a parent forgets its children for good,
  even if the parent pid comes back (`OrphanIsNotIndexed`; the exact agreement is `EveryRunAgrees`).  So a hint
  is not always in its own foreground tree: it is exactly when every link walked is live (`WalksMeet`).
- Processes marked as classified during the grace period are not made up for by the scan that ends it
  (`MarkedInGraceIsSkipped`; exactly when, `GraceEndsWithVerdictIffUnmarked`).
- A managed record does not mean that a rule is applied: a process that no rule matches any more keeps its old
  record (`RecordOutlivesRule`), and so does one that is forked over or reset by a recovery.  After every event
  and run, exactly which: `PartedStep`, `ManagedHasRuleExcept`.
- The foreground set can hold processes the table has lost (`ForegroundOutlivesEntry`).  It lies within the table
  until a scan misses a foreground process (`ForegroundOutlivesEntryIffMissed`, `ForegroundIsKnownExcept`).
- A process may be moved by its parent's rule, the focus or a throttle before its own cgroup is first read; it
  is then restored to where it was put (`ChildIsNotTakenHome`; exactly when it goes home, `ShutdownGoesHomeIff`).
- The order in which a scan goes through the hash table decides which of parent and child is read and moved
  first, and so where the child is restored to (`ScanOrderDecidesPlace`; exactly when, `OrderDecidesRecordIff`).
  Nothing else in the table or the managed records depends on it (`ScanOrderDecidesRecordsOnly`).
- Where a process is is put on record before a rule is applied, even if the rule names a tier that does not exist
  and so moves nothing.  A process that changes its place after that is not restored to the place it had right
  before its first move (`UnknownTierSpoilsRecord`; exactly when, `RestoredPathIsFromBeforeTheMove`).  With rules
  that name known tiers only, it is whenever that place could be read (`FirstMoveIsUndone`).
- Classification is said never to override the placement of a foreground process.  Its own rule does not
  (`BoostIsNeverOverridden`), but a rule of its parent that takes the children along moves it
  (`ParentMovesForeground`; exactly when, `VerdictMovesForeground`).
- Recovery from pressure happens only on a direct step from critical to normal (`RecoveryIsFromCritical`).
- Within equal priority the *earlier* rule directory wins (`AnswerIsNamedByBestRule`), and profiles never change
  a rule (`ProfilesChangeNoRule`).
- Children of firefox and pipewire are not exempt from cgroup moves, although two unit tests expect it
  (`FirefoxAndPipewireChildrenMove`; exactly which names count, `AncestorExemptsIffListed`).
- The message decoder is handed everything that follows a header; a message that is cut off is completed from
  the next one, and an event is reported that nobody sent (`PhantomEvent`; exactly when, `RestIgnoredIffComplete`).
- The nice value of a process is taken from the wrong column of the stat line (`NiceIsLost`), and the parser
  panics on some lines the kernel does not print (`PanicsIff`).

## Model

| member | source | states |
|---|---|---|
| ProcessTables.EveryRunAgrees | crates/core/src/process_table.rs:39-179 | over every run from the empty table, c is indexed below p exactly when c is an entry with parent pid p and p was not removed since c was last inserted; and c is an entry exactly when inserted after its last removal |
| ProcessTables.EveryRunIsForest | crates/core/src/process_table.rs:22-25 | in every run each pid has at most one indexed parent, and every indexed child is a live entry |
| ProcessTables.OrphanIsNotIndexed | crates/core/src/process_table.rs:63-70 | a run after which a known child of a known parent is not indexed below it |
| ProcessTables.OriginalCgroupIsSticky | crates/core/src/process_table.rs:43-93 | a recorded original cgroup survives every operation, re-insertion included, until the entry is removed |
| ProcessTables.RemoveIsWithout | crates/core/src/process_table.rs:172-177 | removing one entry is the sweep of a single pid, so a sweep does not depend on its order |
| ProcessTables.AncestorCommsAreAncestors | crates/core/src/process_table.rs:121-137 | the listed names are those of the ancestors that exist, in order, exactly up to the depth |
| ProcessTables.RecheckIsDue | crates/core/src/process_table.rs:95-104 | after an action is applied its process is due exactly when the action asks for a recheck and its seconds have passed |
| ProcessTables.ProcessTable.constructor | crates/core/src/process_table.rs:28-33 | the empty table agrees with the empty history |
| ProcessTables.ProcessTable.Insert | crates/core/src/process_table.rs:39-61 | the new table is the insertion of the old value, original cgroup kept, old link undone; agreement with history kept |
| ProcessTables.ProcessTable.Remove | crates/core/src/process_table.rs:63-70 | entry, link to the parent and links of the children go; agreement kept |
| ProcessTables.ProcessTable.MarkClassified | crates/core/src/process_table.rs:72-76 | sets the flag of a known pid and nothing else |
| ProcessTables.ProcessTable.MarkUnclassified | crates/core/src/process_table.rs:79-84 | clears flag and applied action of a known pid and nothing else |
| ProcessTables.ProcessTable.SetOriginalCgroup | crates/core/src/process_table.rs:87-93 | only the first path is kept |
| ProcessTables.ProcessTable.SetApplied | crates/core/src/process_table.rs:95-104 | action, flag and recheck deadline of a known pid |
| ProcessTables.ProcessTable.MergeScan | crates/core/src/process_table.rs:155-179 | unknown processes inserted, known ones untouched, everything not live swept; agreement kept |
| ProcessTables.ProcessTable.Sweep | crates/core/src/process_table.rs:172-177 | removing the stale pids one by one in any order is removing them at once |
| ProcessTables.ProcessTable.ExpiredRechecks | crates/core/src/process_table.rs:139-146 | exactly the entries whose deadline has passed, in iteration order |
| ProcessTables.ProcessTable.UnclassifiedPids | crates/core/src/process_table.rs:190-196 | exactly the unclassified entries, in iteration order |
| ProcessTables.ProcessTable.MovedPids | crates/core/src/process_table.rs:199-205 | exactly the entries whose applied action has a cgroup, each with its original cgroup, in iteration order |
| ProcessTables.MovedHolds | crates/core/src/process_table.rs:199-205 | a pair is listed exactly when its pid is an entry under a rule with a cgroup and its path is the original cgroup of that entry |
| ProcessTables.ProcessTable.AncestorComms | crates/core/src/process_table.rs:121-137 | the loop computes the ancestor names |
| Foreground.WalkEndsIffAcyclic | crates/core/src/focus.rs:171-215 | the walk up ends exactly when no pid is met twice, and then within as many steps as there are entries |
| Foreground.TwoCycleNeverEnds | crates/core/src/focus.rs:171-194 | on a cycle of two ordinary processes the walk never ends |
| Foreground.WalkIsFirstStop | crates/core/src/focus.rs:175-215 | the walk stops at the first ancestor at which a stop condition holds and crosses no session root |
| Foreground.AppRootOnChain | crates/core/src/focus.rs:175-215 | from a hint that is no session root the walk ends exactly when the plain chain of parent pids has a pid without an application parent, and the application root is the first such pid; an application parent is none of 0, 1 and the pid itself, is known, no session root and in no cgroup whose path ends in "/rt" |
| Foreground.NeverEndsOnSessionRoot | crates/core/src/focus.rs:84-97 | from a hint that is not a session root the None answer cannot occur |
| Foreground.WalksMeet | crates/core/src/focus.rs:175-229 | the hint is in the tree collected from its application root exactly when every parent link walked is live |
| Foreground.HintIsForeground | crates/core/src/focus.rs:78-157 | a known ordinary hint makes exactly the movable part of its application tree the foreground |
| Foreground.SetForegroundKeepsBoosts | crates/core/src/focus.rs:123-156 | after the focus moves, the tracker's last write is the boost exactly for foreground pids, and theirs is the last of anyone |
| Foreground.OnExitKeepsBoosts | crates/core/src/focus.rs:159-164 | an exit keeps both facts |
| Foreground.LeavingIsDemoted | crates/core/src/focus.rs:123-156 | a process that leaves the foreground with a new focus ends with nice 0 and in the system tier |
| Foreground.ExitIsReset | crates/core/src/focus.rs:159-164 | a foreground process that exits ends with nice 0 and leaves the foreground; any other exit changes and asks nothing |
| Foreground.RuleWritesKeepBoosts | crates/core/src/daemon.rs:466-475 | writes of rules that spare the foreground keep both facts |
| Foreground.FindAppRoot | crates/core/src/focus.rs:175-215 | the loop returns None exactly on a session root, and else the first pid on the parent chain without an application parent |
| Foreground.CollectTree | crates/core/src/focus.rs:218-229 | the worklist collects exactly what is reachable through the index |
| Foreground.ForegroundTracker.SetForegroundProcess | crates/core/src/focus.rs:78-157 | new foreground, and demotions before promotions |
| Foreground.ForegroundTracker.Exit | crates/core/src/focus.rs:159-164 | a foreground pid leaves and gets nice 0; others are not touched |
| Foreground.Demote | crates/core/src/focus.rs:128-137 | nice 0 and the system tier for each pid |
| Foreground.Promote | crates/core/src/focus.rs:146-152 | nice -5 and the interactive tier for each pid |
| Descendants.DeepEnoughIsTree | crates/core/src/forkbomb.rs:104-124 | once the depth reaches the number of known pids, at most that many steps reach everything reachable |
| ForkBombs.AnswerIsHistory | crates/core/src/forkbomb.rs:79-101 | a fork is reported exactly when its parent is not throttled and at least threshold counted forks lie in the last second, however collections are interleaved |
| ForkBombs.EveryRunRefines | crates/core/src/forkbomb.rs:34-167 | over every run the window is the recent tail of the complete history and the throttled set is what the history says |
| ForkBombs.WindowsStaySmall | crates/core/src/forkbomb.rs:58-101 | throttled parents own a window; no window outgrows max(threshold, 1), an unthrottled one stays below threshold |
| ForkBombs.CollectLeavesWarm | crates/core/src/forkbomb.rs:153-167 | after a collection every window and throttle has a stamp of the last ten seconds |
| ForkBombs.DetectionsAreFarApart | crates/core/src/forkbomb.rs:79-167 | two detections of the same parent are more than ten seconds apart |
| ForkBombs.SubtreeIsWithin | crates/core/src/forkbomb.rs:104-124 | the collected pids are exactly those at most depth child steps below the root |
| ForkBombs.SubtreeDistinctIffNoLoop | crates/core/src/forkbomb.rs:110-123 | no pid is collected twice exactly when the root is not its own descendant within the depth |
| ForkBombs.DeepSubtreeIsTree | crates/core/src/forkbomb.rs:104-124 | the collected pids lie in the full tree, and are the full tree once the depth reaches the number of entries |
| ForkBombs.ThrottleMovesOnly | crates/core/src/forkbomb.rs:142-146 | each collected pid, and no other, is moved to the swapstorm tier |
| ForkBombs.ForkWindow.Record | crates/core/src/forkbomb.rs:34-45 | evicts from the front, appends, and compares with the threshold |
| ForkBombs.ForkWindow.Rate | crates/core/src/forkbomb.rs:48-51 | counts the stamps of the last second |
| ForkBombs.ForkBombDetector.RecordFork | crates/core/src/forkbomb.rs:79-101 | the object's windows, throttles and answer are those of the value |
| ForkBombs.ForkBombDetector.Gc | crates/core/src/forkbomb.rs:153-167 | exactly the cold windows and their throttles go |
| ForkBombs.ForkBombDetector.CollectPids | crates/core/src/forkbomb.rs:104-124 | the level loop collects the levels one after the other |
| ForkBombs.ForkBombDetector.ThrottleSubtree | crates/core/src/forkbomb.rs:130-148 | one move per collected pid, and their number |
| Rules.Classify | crates/rules/src/lib.rs:347-407 | the loop's answer is the declarative one: field by field the first value among the stripped matching rules up to the first that does not go on; None exactly for kernel, exempt, unmatched or effectless |
| Rules.AnswerAsWritten | crates/rules/src/lib.rs:347-407 | the answer in terms of the rules as written: no cgroup for a process exempt from moves itself or by an ancestor, else that of the first reached rule that names one; under a real-time policy the first policy other than "normal"; every other field that of the first reached rule that sets it, name and propagation those of the first match; no answer exactly for kernel threads, exempt processes, no match, or none of the five effects left |
| Rules.MatchesIff | crates/rules/src/lib.rs:150-209 | a rule matches exactly when every given criterion is met: any of the names, prefixes, texts, paths, uids and parents, all of the variables, the four bounds, and the cgroup path criteria |
| Rules.GlobByFirst | crates/rules/src/lib.rs:199-201 | a pattern matches by its first character: `*` any text, `?` any one character, any other itself |
| Rules.ContainsIffSplit | crates/rules/src/lib.rs:157-162 | a part is contained exactly when the text is something, the part and something |
| Rules.AnswerWithoutEnviron | crates/core/src/daemon.rs:477-482 | if no rule asks for the environment, the answer does not depend on it |
| Rules.GatherRules | crates/rules/src/lib.rs:371-395 | merging while looping is combining the matching rules |
| Rules.CombinedOfConcat | crates/rules/src/lib.rs:550-559 | merging is left-biased combination of every field; name and propagation of the first stay |
| Rules.FirstOfIsFirst | crates/rules/src/lib.rs:550-559 | a combined field is the value of some action before which all actions are silent |
| Rules.HitsAreReached | crates/rules/src/lib.rs:375-394 | a rule counts exactly when it matches and no matching rule before it ends the search |
| Rules.AnswerIsFirstSaid | crates/rules/src/lib.rs:371-406 | every field of an answer is that of the first reached rule, in order, whose stripped action sets it, and None if none does |
| Rules.FirstHit | crates/rules/src/lib.rs:375-394 | the first rule that counts is the first that matches |
| Rules.AppendedRuleOnlyFills | crates/rules/src/lib.rs:371-406 | a rule below all others changes nothing once the search has ended, and otherwise only fills open fields of an answer |
| Rules.UnknownCgroupIsPathFree | crates/rules/src/lib.rs:193-207 | a process whose cgroup is unknown gets from any rules the answer it would get if `cgroup_path_contains` were not written in them and the rules with one of the other two path criteria did not exist |
| Rules.FirefoxAndPipewireChildrenMove | crates/rules/src/lib.rs:612-628 | firefox and pipewire among any ancestors make no difference to the exemption of any process from cgroup moves under the default lists |
| Rules.AncestorExemptsIffListed | crates/rules/src/lib.rs:288-310 | an ancestor name decides about some exemption from cgroup moves exactly when the list holds it |
| RuleLoading.LoadRules | crates/rules/src/lib.rs:432-470 | the loops load what the specification loads, or fail with it |
| RuleRecords.LoadedAreRecords | crates/rules/src/lib.rs:432-548 | if loading succeeds there is for every record of every JSON file of every listed directory a rule from that place with the name, priority, flag, criteria and action of the record, its path a pattern exactly when it holds `*` or `?`; and there are no other rules |
| RuleRecords.LoadedOnce | crates/rules/src/lib.rs:436-469 | no two loaded rules come from the same place |
| RuleRecords.LoadFailsIff | crates/rules/src/lib.rs:432-495 | loading fails exactly when a directory is unreadable, a JSON file of a listed directory is malformed, or a profile inherits from a name that no profile read before it has |
| RuleRecords.ReadInOrder | crates/rules/src/lib.rs:436-445 | the files of a directory are read by name, and after those of the directories before it |
| RuleLoading.LoadedInOrder | crates/rules/src/lib.rs:436-469 | loaded rules stand by priority, ties by directory, file name and position, and none is lost or added by sorting |
| RuleLoading.AnswerIsNamedByBestRule | crates/rules/src/lib.rs:321-406 | an answer bears the name of the matching rule that precedes every other matching rule |
| RuleLoading.SortIsStable | crates/rules/src/lib.rs:466-467 | the sort orders by priority and keeps the order of equals |
| RuleLoading.ProfilesChangeNoRule | crates/rules/src/lib.rs:452-497 | whatever directories are loaded, the rules are those loaded from the same files without their profiles |
| Scanning.ScanProc | crates/procmon/src/scan.rs:9-38 | every readable numeric entry, in listing order |
| Scanning.ScanProcIncremental | crates/procmon/src/scan.rs:77-118 | every readable numeric entry that is not known, and all live pids |
| Scanning.IncrementalRefinesFull | crates/procmon/src/scan.rs:52-118 | merging the incremental scan gives the same entries, index and history as merging the full scan |
| Scanning.ScanLeavesLive | crates/core/src/process_table.rs:155-187 | after a merge the table holds exactly the live pids that were known or could be read |
| Netlink.WalkDatagram | crates/procmon/src/netlink.rs:269-292 | on arbitrary bytes the walk ends with every read in bounds and yields the specified events |
| Netlink.WalkLoop | crates/procmon/src/netlink.rs:269-292 | the loop over offsets reads one message after the other and always advances |
| Netlink.WalkInvertsEncoding | crates/procmon/src/netlink.rs:269-292 | for any padded frames whose event bodies are complete, whatever follows, the walk yields their events in order and goes on |
| Netlink.RestIgnoredIffComplete | crates/procmon/src/netlink.rs:279-288 | what follows a message makes no difference to its decoding exactly when its body is complete |
| Netlink.DecodeInvertsEncode | crates/procmon/src/netlink.rs:299-370 | decoding an encoded event of any kind gives the event back, whatever the unread fields hold and whatever bytes follow the event data in the message |
| Netlink.DatagramRoundTrip | crates/procmon/src/netlink.rs:253-370 | a datagram carrying any events, with any values in the fields that are not read and any bytes after the event data of each message, is walked to exactly these events |
| Netlink.PhantomEvent | crates/procmon/src/netlink.rs:279-288 | a cut-off message followed by another makes the walk report an event neither carries |
| DaemonProperties.DatagramIsHeard | crates/procmon/src/netlink.rs:253-370 | the daemon takes up exactly the events a datagram was made of, in order: forks, execs and exits of processes and changes of name and uid, with the pids as sent, and nothing else |
| StatLine.StatRoundTrip | crates/procmon/src/info.rs:143-155 | for any comm, blanks and parentheses included, parent pid, comm and thread count are read back as printed |
| StatLine.PanicsIff | crates/procmon/src/info.rs:144-149 | exactly when the parser panics |
| StatLine.NiceIsLost | crates/procmon/src/info.rs:153 | the nice value read agrees with the one printed exactly when it is 0 |
| Effects.RecordPrecedesRuleMoves | crates/core/src/daemon.rs:491-505 | a move by a process's own rule whose read did not fail finds the undo record made and final; it is the path read right before the move exactly when no earlier read of the lifetime had succeeded or the first one gave the same path |
| Effects.FirstMoveMakesRecord | crates/core/src/daemon.rs:491-505 | in a log in which every read is followed by its move, the record is the path read right before the first own-rule move of the lifetime |
| Effects.RecordIffReadFound | crates/core/src/daemon.rs:491-505 | there is a record exactly when some read of the current lifetime found something |
| Effects.RecordIsPlaceAtRead | crates/core/src/daemon.rs:491-516 | the undo record is where the daemon had put the process before its first successful read; it is the place of origin exactly when no move came before that read or the last of them was back to that place |
| DaemonInvariants.StepKeepsInv | crates/core/src/daemon.rs:181-258 | every completed step keeps all invariants |
| DaemonInvariants.EveryRunKeepsInv | crates/core/src/daemon.rs:146-262 | every run keeps all invariants |
| DaemonInvariants.EnteringIsInv | crates/core/src/daemon.rs:168-177 | the loop is entered with all invariants, in the grace period |
| DaemonInvariants.ApplyKeepsCore | crates/core/src/daemon.rs:486-529 | applying a rule keeps maps, boosts and undo record consistent |
| DaemonInvariants.IssuedFacts | crates/core/src/daemon.rs:491-516 | a rule's requests spare all other pids' nice values, and each of its moves follows a read |
| DaemonInvariants.FullScanKeepsInv | crates/core/src/daemon.rs:547-602 | a scan keeps all invariants, leaves exactly the live known processes and, in force, none unclassified |
| DaemonInvariants.ReclassifyKeepsInv | crates/core/src/daemon.rs:355-370 | an exec keeps all invariants and never touches the focus |
| DaemonInvariants.ExitKeepsInv | crates/core/src/daemon.rs:372-377 | an exit keeps all invariants |
| DaemonInvariants.RecheckEachKeepsInv | crates/core/src/daemon.rs:608-635 | rechecks keep all invariants |
| DaemonInvariants.NoRecheckInGrace | crates/core/src/daemon.rs:608-635 | during the grace period there is nothing to recheck and a recheck does nothing |
| DaemonInvariants.PressureKeepsInv | crates/core/src/daemon.rs:650-688 | pressure changes keep all invariants |
| DaemonInvariants.ForegroundKeepsInv | crates/core/src/daemon.rs:409-417 | focus requests keep all invariants |
| DaemonProperties.TwoMapsAgree | crates/core/src/daemon.rs:325-635 | in every reachable state managed pids are known, and an applied rule has a managed record with its comm, rule name and cgroup or "system" |
| DaemonProperties.BoostIsNeverOverridden | crates/core/src/daemon.rs:466-475 | in every reachable state the last nice value of a foreground pid is -5, the tracker's last write is -5 exactly for foreground pids, and of the moves of a foreground pid by its own rule and the tracker the last is to the interactive tier |
| DaemonProperties.FocusStep | crates/core/src/daemon.rs:409-417 | in every reachable state a focus request on a known ordinary process focuses its application tree |
| DaemonProperties.GraceIsQuiet | crates/core/src/daemon.rs:273-319 | during the grace period nothing is managed, focused, applied or due, and no rule has issued anything |
| DaemonProperties.PhaseOfStep | crates/core/src/daemon.rs:181-187 | a step ends in the grace period exactly when it began in it and before the deadline |
| DaemonProperties.GraceEndsOnce | crates/core/src/daemon.rs:173-187 | once over, the grace period does not come back |
| DaemonProperties.RecoveryIsFromCritical | crates/core/src/daemon.rs:671-686 | in every reachable state a pressure reading changes the table exactly when it is the direct step from critical to normal and some known member of the swapstorm tier has something to be reset |
| DaemonProperties.CriticalMovesIdleAndBackground | crates/core/src/daemon.rs:652-663 | critical pressure moves exactly the members of the idle and background tiers |
| DaemonProperties.RecoveryResetsSwapstorm | crates/core/src/daemon.rs:674-685 | a recovery resets exactly the members of the swapstorm tier |
| DaemonProperties.DaemonRunsDetector | crates/core/src/daemon.rs:275-332 | over every run the daemon's detector is the detector run on the forks and collections among the events |
| DaemonProperties.DaemonThrottlesIffBomb | crates/core/src/daemon.rs:327-336 | in every reachable state a fork is throttled exactly when the history makes it a bomb |
| DaemonProperties.ThrottleReachesLineage | crates/core/src/daemon.rs:330-334 | a detected bomb moves exactly the processes within the lineage depth |
| DaemonEvents.RulesInForce | crates/core/src/daemon.rs:431-436 | in every reachable state the rules in force are those of the last reload, by signal or by command, that succeeded, and those of the start if there was none |
| DaemonEvents.FailedReload | crates/rules/src/lib.rs:410-415 | a reload that fails changes no part of the state |
| DaemonEvents.ProfileInForce | crates/core/src/daemon.rs:158-240 | in every reachable state the scheduling profile last set is that of the power source last reported, or of the start |
| DaemonEvents.KnownStep | crates/core/src/daemon.rs:325-635 | exactly which processes are known after any event: those that could be read join, those that exited, vanished or cannot be read again leave |
| DaemonEvents.EntriesStep | crates/core/src/daemon.rs:273-401 | after a process event the entries of the processes it makes the daemon read are made anew from what is read and classified, all others are as before; a fork, and anything in the grace period, applies no rule |
| DaemonEvents.RechecksReadDue | crates/core/src/daemon.rs:608-635 | a recheck makes anew the entries of exactly the due processes that are readable and not in the foreground |
| DaemonEvents.EnteringKnows | crates/core/src/daemon.rs:168-171 | the loop is entered knowing exactly the live readable processes, unclassified, or none |
| DaemonEvents.ModeFollowsLevel | crates/core/src/daemon.rs:650-688 | the mode is the one of the level last read; an unchanged level changes nothing, and only a critical one moves anything |
| DaemonEvents.CommandMoves | crates/core/src/daemon.rs:419-425 | a move by command asks for exactly one move, to the named tier, exactly if there is a tier of the name, and changes nothing else |
| DaemonEvents.FocusRequest | crates/core/src/daemon.rs:409-417 | a focus request makes the known processes below the application root that are no session roots the foreground, if there are any and the request is not on a session root, and else changes nothing but the process shown |
| DaemonEvents.FocusDemotes | crates/core/src/focus.rs:123-156 | in every state with the invariants, those that leave the foreground by a focus request end with nice 0 in the system tier |
| DaemonEvents.ExitResets | crates/core/src/daemon.rs:372-377 | an exit leaves table, managed records and foreground; in the foreground it ends with nice 0, elsewhere nothing is asked |
| DaemonClassification.LoopJudgesAtOnce | crates/core/src/daemon.rs:589-595 | classifying one process after the other gives the entries, managed records and requests of judging all of them on the state before the loop |
| DaemonClassification.ScanClassifiesAll | crates/core/src/daemon.rs:547-602 | a scan in force leaves exactly the live processes that were known or could be read; classified ones as they were, all others classified and under exactly the action the rule engine gives for their information and ancestors, none if they are spared |
| DaemonClassification.ScanIssuesVerdicts | crates/core/src/daemon.rs:547-602 | beyond forgetting the dead, a scan asks exactly for the requests of those actions |
| DaemonOrder.ScanOrderDecidesRecordsOnly | crates/core/src/daemon.rs:547-602 | two scans that see the same processes, in any orders of the hash tables and whatever cgroups they read along the way, leave the same managed records, the same index and the same entries, the original cgroups aside |
| DaemonOrder.RecordsAgreeIffReadsDo | crates/core/src/daemon.rs:491-496 | the original cgroup of a process agrees exactly if what is read for it does, should the scan read it for an unclassified, unrecorded process under a rule with a cgroup |
| DaemonOrder.RecordOfScan | crates/core/src/daemon.rs:491-516 | with the daemon the only mover, a scan records a process in the tier of the rule that takes it along with its parent if the parent stands first in the hash table, and else where it was before |
| DaemonOrder.OrderDecidesRecordIff | crates/core/src/daemon.rs:491-595 | with the daemon the only mover, two orders give different records exactly if an unclassified parent takes the process along to another place than it is in and stands before it in one order only |
| DaemonClassification.ScanAppliesBestRule | crates/core/src/daemon.rs:547-602 | with rules loaded from directories, the rule a scan applies is the matching rule that precedes all other matching rules |
| DaemonClassification.NothingForgotten | crates/core/src/daemon.rs:379-398 | after the grace period only processes reset by a recovery since the last scan are unclassified, and no rule is applied to them |
| DaemonClassification.GraceEndsWithVerdictIffUnmarked | crates/core/src/daemon.rs:184-188 | the scan that ends the grace period leaves a live process with what the rules say exactly when it was not marked or they say nothing; a marked one comes out unchanged and without a rule |
| DaemonClassification.ReclassifyGivesVerdict | crates/core/src/daemon.rs:355-370 | a process read again comes out classified and under exactly the action the engine gives, with the requests of that action and all other entries unchanged |
| DaemonApplied.ScanAsksForRule | crates/core/src/daemon.rs:486-516 | after a scan has put a process under a rule, its last nice value is that of the rule, and of the moves by its own rule and the focus the last is to the tier that the rule names |
| DaemonApplied.ExecAsksForRule | crates/core/src/daemon.rs:355-370 | the same after a process is read again |
| DaemonApplied.LazyEnvironIsEnough | crates/core/src/daemon.rs:477-486 | reading the environment only if some rule asks for it gives the answer that reading it always would |
| DaemonForeground.LostStep | crates/core/src/daemon.rs:181-258 | exactly which foreground processes the table lacks after any event |
| DaemonForeground.ForegroundOutlivesEntryIffMissed | crates/core/src/daemon.rs:554-560 | while the foreground lies within the table, an event takes it out exactly if it is a scan that misses a foreground process |
| DaemonForeground.ForegroundIsKnownExcept | crates/core/src/daemon.rs:181-258 | in every reachable state the foreground processes missing from the table are those that scans missed, less those that exited, were read again or left with a new focus |
| DaemonForeground.ForegroundIsKnown | crates/core/src/daemon.rs:181-258 | the foreground lies within the table in every reachable state if no scan since the focus was set missed any of it |
| DaemonForeground.RuleMovesOther | crates/core/src/daemon.rs:498-517 | the requests of a rule move a process other than its own exactly if the rule takes the children along, names a known tier and the process is a known child in the index |
| DaemonForeground.VerdictMovesForeground | crates/core/src/daemon.rs:466-517 | exactly when the classification of some process moves a process of the foreground |
| DaemonRecords.PartedStep | crates/core/src/daemon.rs:181-258 | exactly which processes have a managed record but no rule after any event: forks, readings without a rule and recoveries part them, exits, rules and scans end it |
| DaemonRecords.ManagedHasRuleExcept | crates/core/src/daemon.rs:325-688 | in every reachable state a managed process has a rule applied exactly if it is not among those parted over the run |
| DaemonRecords.ReadingParts | crates/core/src/daemon.rs:355-370 | after an exec the managed processes without a rule are those before, less the process, plus the process exactly if it is managed and spared or gets no rule |
| DaemonRecords.ScanParts | crates/core/src/daemon.rs:547-602 | a scan in force keeps a managed process without a rule as such exactly if it is live and was classified or gets no rule |
| DaemonRecords.OldRecordStays | crates/core/src/daemon.rs:530-539 | a managed process that is read again has a rule exactly if it gets one, and keeps its record in either case |
| DaemonUndo.UndoAtShutdown | crates/core/src/daemon.rs:694-723 | shutdown restores exactly the processes under a rule with a cgroup that the pass gets to and that are alive, each to the first cgroup read in its lifetime, if it exists; a pass that is not cut short gets to all of them |
| DaemonUndo.EveryMovedIsRestored | crates/core/src/daemon.rs:491-723 | in every reachable state each process under a rule with a cgroup has been read in its lifetime and has a record exactly if a read found something; a full pass then restores it exactly if it is alive and the place exists |
| DaemonUndo.RestoredPathIsFromBeforeTheMove | crates/core/src/daemon.rs:491-505 | at an own-rule move whose read did not fail the record is made and final, and is the path read right before that move exactly when no earlier read of the lifetime had succeeded or the first one gave the same path |
| DaemonUndo.FirstMoveIsUndone | crates/core/src/daemon.rs:491-505 | over every run with rules that name known tiers only, the record is the path read right before the first own-rule move of the lifetime, and shutdown restores to that path and no other |
| DaemonUndo.EveryMovedGoesBack | crates/core/src/daemon.rs:491-723 | with rules that name known tiers only, each process under a rule with a cgroup has a first own-rule move in its lifetime, and if the read right before it found something a full pass restores it to that place exactly if it is alive and the place exists |
| DaemonUndo.AnswersNameKnownTiers | crates/rules/src/lib.rs:347-407 | rules that name only known tiers give answers that do |
| DaemonUndo.GoesHomeIff | crates/core/src/daemon.rs:491-516 | with the daemon the only mover, in every reachable state the record is where the daemon had put the process before its first read, and the place of origin exactly when nothing had moved it or the last move was back there |
| DaemonUndo.ShutdownGoesHomeIff | crates/core/src/daemon.rs:694-723 | where a restore at shutdown leads, and that this is the place of origin exactly when nothing moved the process before its first read or the last move was back there |
| DaemonUndo.ChildMovedBeforeItsRead | crates/core/src/daemon.rs:507-516 | propagation to children moves a child before the child's own cgroup is read |
| DaemonWitnesses.UnknownTierSpoilsRecord | crates/core/src/daemon.rs:491-505 | a run in which a rule with an unknown tier makes the record, a later rule makes the first move, and shutdown restores to the earlier place |
| DaemonWitnesses.ChildIsNotTakenHome | crates/core/src/daemon.rs:507-516 | a run in which a child moved with its parent gets its own rule and is restored to its parent's tier |
| DaemonWitnesses.ScanOrderDecidesPlace | crates/core/src/daemon.rs:491-516 | two runs that differ only in the order of the hash table, and so in what is read, after which shutdown restores the same child to different places |
| DaemonWitnesses.RecordOutlivesRule | crates/core/src/daemon.rs:530-539 | a run after which a process without a rule still has a managed record |
| DaemonWitnesses.FocusOnCircleNeverEnds | crates/core/src/focus.rs:171-194 | a run after which a focus request on a known process never ends |
| DaemonWitnesses.ForegroundOutlivesEntry | crates/core/src/daemon.rs:554-560 | a run after which a boosted foreground process is not in the table |
| DaemonWitnesses.ParentMovesForeground | crates/core/src/daemon.rs:507-516 | a run in which the rule of its parent moves a process that is in the foreground |
| DaemonWitnesses.MarkedInGraceIsSkipped | crates/core/src/daemon.rs:286-313 | a run after which a process that has a rule in force is without it because it started in the grace period |
| Daemons.ApplyAction | crates/core/src/applier.rs:13-48 | the requests are exactly those the action asks for, in order: the move to the named tier if it is known, the nice value as set, a known policy with priority 0 or clamped to 1..99, the oom value clamped to -1000..1000 |
| DaemonRequests.RequestsAsAsked | crates/core/src/applier.rs:13-110 | a request is among those for an action exactly if the action asks for it, kind by kind and value by value, and the kinds come in order, each at most once |
| DaemonRequests.LastOfIssued | crates/core/src/applier.rs:13-48 | after the requests of a rule the last nice value is the one it sets, if it sets one, and the last place by rule or focus the tier it names |
| Effects.TiersAreNamed | crates/cgroupv2/src/lib.rs:133-154 | a tier is found by a name exactly when the name is that of its directory |
| Daemons.ApplyCgroup | crates/core/src/applier.rs:66-76 | one move for a known tier name, none otherwise |
| Daemons.Daemon.constructor | crates/core/src/daemon.rs:73-134 | a new daemon satisfies all invariants |
| Daemons.Daemon.Decide | crates/core/src/daemon.rs:438-486 | own, kernel and foreground processes are left alone; all others get the declarative classification |
| Daemons.Daemon.ClassifyAndApplyRules | crates/core/src/daemon.rs:438-541 | marks the process or applies the decision, as the step function does |
| Daemons.Daemon.ApplyRule | crates/core/src/daemon.rs:486-529 | record, requests, applied action and managed record |
| Daemons.Daemon.MoveChildren | crates/core/src/daemon.rs:507-516 | one cgroup move per known child |
| Daemons.Daemon.CountForkOf | crates/core/src/daemon.rs:275-284 | counts forks of processes, not of threads, and throttles a bomb |
| Daemons.Daemon.HandleProcEventStartup | crates/core/src/daemon.rs:273-319 | the grace-period handler is the specified step |
| Daemons.Daemon.HandleProcEvent | crates/core/src/daemon.rs:325-401 | the ordinary handler is the specified step |
| Daemons.Daemon.HandleControlCmd | crates/core/src/daemon.rs:407-429 | the control handler is the specified step |
| Daemons.Daemon.DoFullScan | crates/core/src/daemon.rs:547-602 | merge, sweep of the managed map, and classification of what is unclassified |
| Daemons.Daemon.DoRechecks | crates/core/src/daemon.rs:608-635 | the recheck loop is the specified step |
| Daemons.Daemon.HandlePressureChange | crates/core/src/daemon.rs:650-688 | the pressure handler is the specified step |
| Daemons.Daemon.HandlePowerChange | crates/core/src/daemon.rs:217-235 | a new power source switches the profile, the same one again does not |
| Daemons.Daemon.Enter | crates/core/src/daemon.rs:146-177 | the loop is entered with the profile set, after a scan of what is there or without, in the grace period and with all invariants |
| Daemons.Daemon.ReloadFrom | crates/core/src/daemon.rs:431-436 | a failed reload keeps the rules in force, a successful one replaces them by those loaded |
| Daemons.Daemon.RunLoop | crates/core/src/daemon.rs:181-258 | the loop serves the events up to and including the first shutdown, reaches the state of the run function and keeps all invariants |
| Daemons.Daemon.RunDaemon | crates/core/src/daemon.rs:146-262 | entry, loop and shutdown reach the state of the run function followed by the restores |
| Daemons.Daemon.ShutdownAndRestore | crates/core/src/daemon.rs:694-746 | the restore loop issues the specified restores for the processes it gets to before it is cut short |

## Left out

- System calls and file writes: a request is logged as issued, whether or not the kernel carries it out; namespace skipping and write errors are not modelled.
- Daemons.Daemon.ShutdownAndRestore: the two seconds after which the pass is cut short are not measured, how many processes it gets to is an input; the tear-down of the daemon's cgroups that follows is not modelled.
- The clock is read once per event, so a window and its log line, or the deadlines set within one scan, share a time; counters and lengths do not wrap at 32 bits (no window exceeds the threshold, see `WindowsStaySmall`).
- Daemons.Daemon.RunLoop: a request to focus a process whose parents form a cycle makes the loop hang; the contract speaks of the runs without one (see `WalkEndsIffAcyclic`).
- What a scheduling profile consists of, the autogroup guard, cgroup garbage collection, signals, the control socket and D-Bus plumbing, diagnostics.
- Pressure thresholds and PSI parsing: a reading arrives already classified.
- JSON decoding of rule files: records arrive decoded or malformed.
- The wildcard library: `*` and `?` have their usual meaning, and strings are compared character by character.
- Alignment and byte order of the wire structures: words are little-endian and are read at any offset.
- The lossy decoding of a comm that is not valid UTF-8: the stat parser's comm is given as bytes, which a valid string equals.
- The status, cmdline and cgroup files of a process: what they yield is part of the input.
- ProcessInfo fields that no decision reads (gid, nice, session origin).
- The method Netlink.WalkLoop reads each message through a function on the bytes from the offset on, where the program reads header fields at the offset itself.
- Aliasing between the daemon's shared state and the control thread: the managed map belongs to the daemon object here.
