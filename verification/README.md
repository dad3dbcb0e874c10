# freshdock: a verified model of the update protocol

freshdock keeps Docker containers on the newest image of their tag. It stops a
container, renames it to an archive, creates and starts a replacement, waits for
a health gate, and then either drops the archive or puts it back. Containers that
shared the old network namespace are repaired on the way. Inside a compose project
the unit of work is a plan over all members; above it sits a scheduler with
per-container cadence and a memory of rejected digests.

The Dafny files follow the Rust modules. Bottom up:

| file | models |
|---|---|
| `Wrappers.dfy`, `Text.dfy` | options, results, string splitting, decimal numbers, byte order, stable sorting |
| `Rename.dfy` | `src/docker/rename.rs`: archive names, the collision search, the recogniser |
| `Registry.dfy`, `Probe.dfy` | `src/registry/mod.rs`, `src/probe.rs`: reference normalisers, the update verdict |
| `Labels.dfy` | `src/labels.rs`, `src/selfid.rs`: policies, opt-outs, freshdock's own container |
| `Calendar.dfy`, `Cron.dfy` | `src/cron.rs`: the proleptic Gregorian calendar in whole minutes, field parsing, the search for the next fire |
| `Health.dfy` | `src/health.rs`: the two polling loops and their verdicts |
| `Docker.dfy` | the daemon behind `DockerOps`: a class whose methods are the calls |
| `Swap.dfy`, `Reattach.dfy`, `Rollback.dfy`, `Cycle.dfy`, `Recreate.dfy` | `src/docker/recreate.rs`, `src/rollback.rs`: the protocol and the states it passes through |
| `Compose.dfy`, `Planner.dfy`, `Rollout.dfy`, `Fallback.dfy` | `src/compose.rs`, `src/rollout.rs`: the order, the plan, its execution, what is left to the plain update |
| `Schedule.dfy` | `src/scheduler.rs`: the rules of the scheduler's state machine, and what follows for every trace that obeys them |
| `Turns.dfy`, `Quiet.dfy`, `Scheduler.dfy` | `src/scheduler.rs`: one container's turn, what it keeps of a container that has been updated, the tick and the loop over ticks |

`dafny verify dfyconfig.toml` checks everything.

## How the daemon is modelled

`Docker.Daemon` holds the container map (id to name, configuration, image id,
running flag, network namespace), the image store and the ids handed out so far.
A network namespace is its maker and the number of the start that made it, so a
restart of the owner makes a new one and leaves sharers in the dead one. Any call
may fail for an outside reason (`Fault`, counted in the ghost field `faults`) or
because one of the daemon's rules forbids it (`Refused`): two containers cannot
have one name, a running container is removed only by force, and a container whose
namespace a running container still uses is not removed at all. References are
resolved as the daemon does: full id, name, unambiguous id prefix. The ghost field
`history` records the container map after every mutating call, the failed ones
included, so "in every intermediate state" is a statement about `history`.

Images are addressed by content: a manifest digest names one image
(`contentOf`). A pull is recorded in the ghost field `pulls` with the digest the
registry served, and a tag that was pulled and is still there names the image of the
digest last served and has that image recorded under it. Each look a gate takes at a
container is recorded in the ghost field `probes` together with the length of
`history` at that moment.

The replies a gate gets and the time that passes are its environment
(`Health.Environment`), with nothing assumed but that a sleep advances the clock. The
scheduler's listings, inspects and project listings come from the daemon; only the
registry's answers are arbitrary.

What an update, a rollout or a turn promises is one predicate over the worlds before
and after (`Recreate.World`: containers, images, history, pulls, probes and faults):
`Recreate.Updated`, `Recreate.RanOnce`, `Rollout.Ran`, `Turns.IsTurn`.

## Main results

* **Nothing is lost.** In every state of every run, with any call failing at any
  point, the original exists under its own or an archive name until the gate has had
  its verdict and let the update pass; the recorded polls of the new container, with
  the original parked beside it, all lie before that moment. A dependent exists until a
  running stand-in does; everybody else is untouched. Up to and including the stop an
  error changes nothing. Over whole rollouts and scheduler runs each initial container
  keeps an heir: itself, its replacement or an archive.
* **The gate alone decides.** A gate's verdict is unique. `Recreated` is returned
  exactly on a healthy one, `RolledBack` only on a timeout or a crash, each with its
  reason; for a one-shot completed, failed and timed out are the three exit verdicts.
  Only a fault or a hook keeps an update that is not obstructed from its gate.
* **Outcomes mean what they say.** `RolledBack`: the original is back under its
  name and running, the archive name is free and nothing new is left but
  stand-ins of dependents. `Recreated`: the name belongs to a new container with the
  whole configuration of the old one, on the image of a digest that the registry served
  for its unchanged reference in that update. Without faults both end with exactly the
  initial names and every sharer in the live namespace
  (`Recreate.EverySharerRejoins`). Dropping the archive before the repairs would be
  refused.
* **A rollout is its updates.** A run is the chain of the recreate cycles of its
  targets, each from where the last one ended, up to the first that gives up, and then
  the restarts. In the restarts no state changes a container that no planned name is
  resolved to, the targets among them, and each restart that is reported went from
  stopped to running. A lone service with nothing to restart is one plain update, with
  all that it promises.
* **Migration before code.** In an executed plan an update begins only after every
  other service in the plan that its own depends on has passed its gate, and until then
  no state has changed a container that no earlier target can be meant for, nor shown
  other bits under the name of the target, even if that was repaired on the way.
* **The plan and the order are exact.** Members and settings leave one plan. The order
  is depth in the induced graph, then name; nodes that reach a cycle last, by name; the
  fallback fires exactly when a cycle of at least two services exists.
* **Quiescence** (`Scheduler.Quiescence`), from any tick on of any run of any number of
  ticks, whatever went on before: if from there upstream serves and shows one digest for
  a reference, and all members of a container's project are on that reference or pinned,
  then a container that stays listed triggers at most one update that ends landed or
  rejected. That a landing holds is proved, not assumed: what an update that passed its
  gate leaves behind runs the pulled image, later updates, repairs and rollbacks keep
  its bits, and the daemon's own records then make the probe say that it is current.
* **The account of a tick.** What a tick tells, does to the daemon and tallies is that of
  the turns of the active rows, each from where the last one ended.
* **Cadence** over any number of ticks, stated on the trace that the scheduler's fields
  are proved to be the memory of.

## What turned out to be false, and exactly when it holds

* Archive names are recognised exactly when the timestamp is not negative
  (`Rename.CandidateIsArchiveName`).
* Re-parsing `repository:tag` is the identity except for a name with two leading Hub
  hosts that goes on inside Docker Hub (`Registry.ReparseIdentity`); the familiar
  names agree except for a bare Hub host and for two leading Hub hosts
  (`Registry.FamiliarAgrees`). Inputs: `docker.io/index.docker.io/foo` and `docker.io`
  (`Registry.NestedHubExample`, `Registry.BareHubExample`).
* Labels that opt out of rollouts can still spell an enabled policy, exactly when
  `freshdock.enable` is true over a watchtower enable label that is false
  (`Labels.OptOutVersusPolicy`, `Labels.OptOutExample`).
* A cron step is refused for overflow exactly when stepping on from one of its values
  would leave 32 bits (`Cron.TokenDenotes`), as in `5/4294967295`
  (`Cron.StepLeavesU32`); the code would wrap or panic there.
* The search for the next fire comes back empty exactly when the day of the week is `*`
  and the day and month fields name no date, or none but 29 February when no minute of
  the horizon falls on one at an asked hour and minute (`Cron.Horizon`). That does happen
  to the text `0 0 29 2 *` around a century year without a leap day
  (`Cron.LeapDayParses`, `Cron.HorizonMissesCentury`).
* "A rejected digest is not tried again" holds exactly while the last word on the
  container since it was last dropped from the listing is that rejection
  (`Schedule.FailedMeans`, `Schedule.RetriedIff`). A sibling on another reference takes
  it off the record, and each of two such members opens the way for the other again
  (`Schedule.SiblingReopens`, on the events of whole ticks).
* Falling back on the plain update keeps the verdict exactly for services
  (`Fallback.FallbackKeepsVerdict`). A stopped one-shot that a service on another image
  awaits is all its plan has to offer, so it falls back too
  (`Fallback.LoneOneShotFallsBack`, with labels in `Fallback.LoneOneShotExample`), and
  its exit then reads as a crash (`Fallback.ExitReadsAsCrash`).
* "Every service after its declared dependencies" holds along paths of services that are
  in the set (`Compose.TransitiveDependencyFirst`), not along one that leaves it
  (`Compose.PathOutsideImposesNothing`); the two comments in the source disagree here.

## Model

| member | source | states |
|---|---|---|
| Rename.NextAvailableOldName | src/docker/rename.rs:41-61 | the name returned is the first free candidate of 65, and is taken only if all 65 are |
| Rename.CandidateSplits | src/docker/rename.rs:10-31 | splitting a candidate at its last `-old-` recovers the original name, also when that contains `-old-` itself |
| Rename.CandidateIsArchiveName | src/docker/rename.rs:23-35 | every candidate for every original is recognised as an archive if and only if the timestamp is not negative |
| Rename.CandidateIsEarlyName | src/docker/rename.rs:23-35 | the names the recogniser misses are exactly those with a timestamp before the epoch |
| Rename.CandidateInjective | src/docker/rename.rs:10-61 | no two triples of original, timestamp (before the epoch too) and attempt share an archive name |
| Rename.ArchiveHasOneOriginal | src/docker/rename.rs:10-31 | an archive name belongs to one original |
| Registry.SameColon | src/probe.rs:250-257 | `strip_tag` and `ImageRef::parse` cut every string at the same colon |
| Registry.ReparseIdentity | src/registry/mod.rs:20-50 | re-parsing the rendered reference gives it back, with the exact exception |
| Registry.FamiliarAgrees | src/registry/mod.rs:56-65 | the parsed repository and the raw untagged reference have the same familiar name, with the exact exceptions |
| Registry.NestedHubExample | src/registry/mod.rs:20-65 | `docker.io/index.docker.io/foo`: neither does the rendered reference parse back nor do the familiar names agree |
| Registry.BareHubExample | src/registry/mod.rs:56-65 | `docker.io`: the familiar names differ |
| Labels.OptOutVersusPolicy | src/labels.rs:118-258 | when an acting policy and an opt-out come from the same labels |
| Labels.OptOutExample | src/labels.rs:118-258 | labels that opt out and spell an enabled live policy under any defaults |
| Probe.DigestCollected | src/probe.rs:231-243 | a digest counts as local if and only if the daemon records it under the reference's repository, however spelled |
| Probe.CurrentIsUpToDate | src/probe.rs:33-69 | once the tag carries the upstream digest and the container runs the tag's image, no update is available |
| Cron.ParseField | src/cron.rs:75-122 | succeeds exactly when every item does, and then the mask is the union of what the items denote, inside the bounds and not empty; the first bad item gives the error |
| Cron.TokenDenotes | src/cron.rs:75-140 | each spelling (`*`, N, A-B, with and without a step, the numbers in any text `u32` parses) denotes its set, and is refused exactly when stepping would leave 32 bits |
| Cron.StepLeavesU32 | src/cron.rs:115-119 | `5/4294967295` is such a spelling |
| Cron.ListDenotes | src/cron.rs:75-122 | a comma-separated list of spellings denotes what any of them means |
| Cron.ParseExpr | src/cron.rs:146-157 | an expression parses exactly when it has five fields that do, each meaning what its text denotes; otherwise the error is the count or that of the first bad field |
| Cron.NextAfter | src/cron.rs:186-202 | the least matching minute strictly after the instant, or none matches within the horizon |
| Cron.Horizon | src/cron.rs:186-202 | exactly when the search finds nothing: no restricted day of the week, and no date named at all, or only 29 February with no such minute at an asked time in the horizon |
| Cron.HorizonWithLeapDay | src/cron.rs:186-202 | with a 29 February among the full days ahead, nothing is found exactly when the day of the week is `*` and no date is named |
| Cron.LeapDayIsAhead | src/cron.rs:22-22 | away from the common century years a leap day is always ahead within the horizon |
| Cron.LeapDaySpelled | src/cron.rs:146-157 | whatever `0 0 29 2 *` is read as asks for 29 February only |
| Cron.LeapDayParses | src/cron.rs:146-157 | and it does parse |
| Cron.HorizonMissesCentury | src/cron.rs:186-202 | for that text and any instant of 1456 days from 1 March 1896 the search finds nothing although the date exists |
| Calendar.DateOfDayNumber | src/cron.rs:186-202 | day numbers and calendar dates correspond one to one |
| Health.WaitForHealth | src/health.rs:116-173 | the outcome is the verdict of the last poll and none before it could decide; at most ceil(max(timeout, grace)/step)+1 polls, all of this container and all recorded |
| Health.WaitForExit | src/health.rs:193-216 | an exit is reported exactly when the last poll shows it, and giving up means that no poll did; at most ceil(timeout/step)+1 polls, all recorded |
| Health.HealthVerdictUnique | src/health.rs:116-173 | an environment leaves the health gate one outcome and one number of polls |
| Health.ExitVerdictUnique | src/health.rs:193-216 | and the one-shot gate as well |
| Health.ExitFailsHealthGate | src/rollout.rs:600-604 | an exit seen at the first poll passes the one gate, if the code is zero, and is a crash for the other |
| Docker.Daemon.RenameToOld | src/docker/rename.rs:78-115 | the container gets a free archive name whose earlier candidates are all taken; a failed lookup counts as free, and then the rename itself is refused |
| Docker.Daemon.ListNetworkDependents | src/docker/mod.rs:497-585 | exactly the running containers whose network mode refers to this one by name, id or id prefix, less freshdock and opt-outs, without repetition |
| Docker.Daemon.CreateFromSpec | src/docker/recreate.rs:60-65 | a stopped container with a fresh id under the name, or no change; without a fault refused only by a rule |
| Docker.Daemon.Stop | src/docker/recreate.rs:51-56 | the resolved container stops and nothing else changes |
| Docker.Daemon.Start | src/docker/recreate.rs:66-66 | the resolved container runs, in its own new namespace or its owner's current one |
| Docker.Daemon.Remove | src/docker/recreate.rs:67-69 | the resolved container goes, unless it runs and force is off, or a running container uses its namespace |
| Docker.Daemon.RenameTo | src/docker/recreate.rs:70-73 | the resolved container takes the name, which must be free |
| Docker.Daemon.Pull | src/docker/recreate.rs:50-50 | the tag names the image of the digest that was served, recorded under it, and the pull is on record; every other tag and every image stays; a failure changes nothing |
| Docker.Daemon.ListRunning | src/docker/mod.rs:152-158 | the rows are exactly those of the running containers |
| Docker.Daemon.ListProject | src/docker/mod.rs:160-179 | the members are exactly the containers of the project, each once |
| Docker.Daemon.InspectImage | src/docker/check.rs:34-36 | the recorded digests of the image the reference resolves to, and its id if one is reported |
| Docker.Daemon.RemoveImage | src/docker/recreate.rs:74-77 | removes an image nobody uses; without a fault refused exactly when somebody does |
| Docker.Daemon.PruneDanglingImages | src/docker/recreate.rs:78-79 | afterwards every image left is tagged or used; no tag and no used image is lost |
| Swap.TakeDown | src/docker/recreate.rs:191-213 | stop and archive: what has changed after each failure, and that without a fault only a full archive name space stops it |
| Swap.BringUp | src/docker/recreate.rs:213-226 | create and start under the freed name with the given configuration and image; why it can fail without a fault |
| Swap.SwapContainer | src/docker/recreate.rs:191-226 | in every state the original is there, parked at most; the replacement carries the configuration; with nothing in the way it succeeds unless a fault strikes |
| Reattach.RepairConfigIsCreatable | src/docker/recreate.rs:352-405 | the edited configuration carries no hostname, domain name, exposed ports or endpoints beside a container network mode, keeps them otherwise and the rest always, and is not refused for conflicts |
| Reattach.RepairIsNoUpgrade | src/docker/recreate.rs:441-474 | for every tag state and lookup result the image a repair asks for resolves to the bits the dependent runs |
| Reattach.FindRepairImage | src/docker/recreate.rs:452-474 | the reference a dependent is re-created from resolves to its known image id |
| Reattach.RestoreAfterFailedReattach | src/docker/recreate.rs:484-494 | the dependent gets a free name back and runs again if it can |
| Reattach.PrepareRepair | src/docker/recreate.rs:416-419 | the edited spec and an image that is no upgrade; ready dependents meet no obstacle in the swap |
| Reattach.ReattachOne | src/docker/recreate.rs:409-438 | the dependent exists in every state until a running stand-in does; without a fault a ready one is healed, and a failure does not leave its name vacant |
| Reattach.ReattachDependents | src/docker/recreate.rs:330-343 | nobody but the named dependents changes; without faults every ready one ends in the namespace of the owner |
| Rollback.RollBack | src/rollback.rs:45-92 | stop, force-remove, rename back, start: no state has two claimants of the name, success restores the original exactly, and without a fault only the final start can fail |
| Cycle.CycleSurvives | src/docker/recreate.rs:254-313 | in every state an update can be in, each initial container has an heir |
| Cycle.SurvivesTransitive | src/docker/rename.rs:10-61 | heirs compose over any number of updates |
| Cycle.HeldBeforeRepair | src/docker/recreate.rs:568-588 | while a sharer runs in the old namespace, the daemon refuses to remove the archive |
| Cycle.FreeAfterRepair | src/docker/recreate.rs:568-588 | once every sharer is repaired nothing holds it |
| Cycle.ArchiveNameFree | src/docker/recreate.rs:602-634 | after a rollback nobody has the archive name |
| Cycle.SwapHealedIsSettled | src/docker/recreate.rs:566-597 | repairs plus removal of the archive leave exactly the initial names with every dependent in the new owner's namespace |
| Recreate.Clear | src/docker/recreate.rs:260-287 | up to the dependents listing no container changes; a hook can defer only if there is one; an unfaulted listing names every dependent |
| Recreate.RecreateOne | src/docker/recreate.rs:254-313 | the pure cycle: its states, what it has established when it completes, that an error before the stop changes nothing and one after it has a recorded state with the original down, and that without a fault or a hook an unobstructed cycle completes |
| Recreate.HandOver | src/docker/recreate.rs:330-343 | dependents first, then the archive: the states, the settled end, and that without a fault the original goes unless somebody still uses its namespace |
| Recreate.Adopt | src/docker/recreate.rs:567-597 | hand-over, hook and housekeeping keep the new container and the image it runs, and without faults end settled and clean |
| Recreate.Retreat | src/docker/recreate.rs:598-634 | after a failed gate: rollback, then repair against the restored original, which stays in every state |
| Recreate.RunCleanup | src/docker/recreate.rs:748-774 | nothing a container runs is lost; without a fault the replaced image is gone if that was asked and nobody uses it |
| Recreate.RecreateWithHealth | src/docker/recreate.rs:540-634 | `Updated`: the original stays until the gate's verdict, which alone decides the outcome; each outcome's state, with the whole configuration of the original on the image of a digest served in this update; without a fault an update that got to its gate has listed every sharer, and ends with the initial names and all it listed re-attached; only a fault or a hook keeps a clear update from its gate |
| Recreate.EverySharerRejoins | src/docker/recreate.rs:566-634 | without a fault a landed or rolled back update leaves exactly the initial names, and whoever ran in the network of the original, or was to be repaired with it, in that of the running container under its name |
| Recreate.AdoptOneShot | src/docker/recreate.rs:693-708 | after exit zero: dependents, archive, housekeeping |
| Recreate.RecreateOneShot | src/docker/recreate.rs:667-728 | `RanOnce`: the original goes only after a verdict of exit zero; without a fault every sharer is on the list; a failure and a timeout are the gate's too and keep both containers; hooks cannot defer it |
| Compose.ParseDependsOnMeaning | src/compose.rs:106-129 | the result is strictly sorted by service and keeps the first entry written for each |
| Compose.TopologicalOrder | src/compose.rs:161-207 | lists exactly the nodes, ordered by longest in-set chain and then name, endless ones last; reports a fallback exactly when some node is endless |
| Compose.OrderIsDistinct | src/compose.rs:161-207 | no node is listed twice |
| Compose.OrderIsUnique | src/compose.rs:161-207 | two such orders of one node set are equal, whatever order the input or a map came in |
| Compose.DependencyFirst | src/compose.rs:155-207 | a dependency precedes its dependent unless that can reach a cycle |
| Compose.TransitiveDependencyFirst | src/compose.rs:155-207 | so does the end of any dependency path that stays in the set |
| Compose.PathOutsideImposesNothing | src/compose.rs:157-158 | with a on b on c, and only a and c in the set, a comes first |
| Compose.FallbackIffCycle | src/compose.rs:187-196 | some node is endless if and only if the induced graph has a cycle of at least two nodes |
| Planner.SkipReasonMeaning | src/rollout.rs:255-319 | the cascade finds the applicable reason with precedence, and finds none only when none applies |
| Planner.Classify | src/rollout.rs:227-336 | one pass sorts the members into targets by service, skipped with reason, and restart candidates |
| Planner.Plan | src/rollout.rs:192-350 | targets in dependency order with replicas by name, skipped and candidates sorted; empty when the trigger is not listed |
| Planner.PlanIsUnique | src/rollout.rs:192-350 | members and settings leave one plan |
| Planner.PlanConserves | src/rollout.rs:192-350 | targets and skipped together are exactly the members on the moved image, with multiplicity |
| Planner.PlanPartition | src/rollout.rs:192-350 | with unique names each such member is on exactly one side, once, and nobody else is |
| Planner.TargetIsGated | src/rollout.rs:255-332 | no target is freshdock, opted out, unreadable or in watch mode; services run, are enabled and behind; one-shots are stopped and awaited |
| Planner.TargetIsMember | src/rollout.rs:192-350 | every target is a member as listed |
| Planner.SkippedForReason | src/rollout.rs:247-319 | the recorded reason is true of the member and no reason with precedence is |
| Planner.TriggerAccounted | src/rollout.rs:174-184 | a trigger that is a compose member is covered or has a skip reason, not both |
| Planner.DependenciesComeFirst | src/rollout.rs:332-341 | every replica comes after every replica of each service in the plan that its own depends on |
| Planner.RestartsMeaning | src/rollout.rs:148-160 | a container is restarted if and only if it may be and its service, not updated itself, asks for it on an updated one |
| Planner.RestartsApart | src/compose.rs:211-226 | once all plan services are updated no target is restarted |
| Planner.RestartsOnce | src/rollout.rs:151-160 | no container is restarted twice |
| Rollout.RunTarget | src/rollout.rs:657-735 | one target's update is exactly the recreate cycle of its kind, and the step or the abort is what came out of it |
| Rollout.StepMeans | src/rollout.rs:664-735 | a step means that the gate of the target's kind let it pass and its container is renewed; an image is rejected only on a gate's verdict; a deferral left everything alone |
| Rollout.UpdateTargets | src/rollout.rs:657-757 | the updates follow plan order, stop at the first that gives up, and each starts where the last one ended |
| Rollout.Restart | src/rollout.rs:765-781 | touches no container but the one the name resolves to; when it reports success that was stopped and then ran |
| Rollout.RestartAll | src/rollout.rs:759-783 | in every state whoever no planned name is resolved to is as before, and the others keep name, configuration and image; each reported restart went from stopped to running, and the container runs at the end unless a second name means it; without a fault all that can be restarted are |
| Rollout.Execute | src/rollout.rs:629-786 | the report is what the chain of updates and the restarts after it came to: the daemon in between and at the end is theirs; nothing is restarted after an abort, and without a fault all that can be restarted is |
| Rollout.TargetsAreNotRestarted | src/rollout.rs:759-783 | the container of a target is the same in every state of the restarts, unless its id starts with the name of one that is restarted |
| Fallback.LoneServiceIsPlain | src/rollout.rs:163-171 | a rollout of one service with nothing to restart is one plain update, with everything that promises |
| Fallback.FallbackKeepsVerdict | src/rollout.rs:163-171 | whatever passes the gate of a target's kind passes the health gate if and only if the target is a service |
| Fallback.LoneOneShotFallsBack | src/rollout.rs:163-171 | when a stopped one-shot that a service on another image awaits is the trigger, every plan for the project is that one-shot alone and falls back on the plain update, and there is such a plan |
| Fallback.LoneOneShotExample | src/commands/recreate.rs:85-114 | compose labels of two such members, with a trigger that passes the opt-in check of a recreate by hand |
| Fallback.ExitReadsAsCrash | src/rollout.rs:600-604 | a plain update whose container has exited by the first poll, with whatever code, is rolled back as crashed or fails |
| Rollout.ImageTargetsArePlanned | src/rollout.rs:507-517 | aborted or not, the image targets are the planned containers in plan order |
| Rollout.ClaimsAreDisjoint | src/rollout.rs:498-529 | no container is claimed twice, every target is claimed, and restarted containers are no targets |
| Rollout.RolloutSurvives | src/rollout.rs:629-786 | in every state of every rollout each initial container has an heir |
| Rollout.MigrationBeforeCode | src/rollout.rs:332-341 | once an update has begun, every service in the plan it depends on has passed its gate, and before that no state changed a container that is apart from the earlier targets |
| Rollout.NoNewBitsEarly | src/rollout.rs:657-757 | nor did any state show a container under the target's own name with other bits than the initial one had, also when it was repaired on the way |
| Rollout.AbortBringsNoNewBits | src/rollout.rs:738-757 | after an abort the same holds for every target that was left |
| Rollout.OwnTargetIsApart | src/rollout.rs:332-341 | such as the target's own container, unless it borrows a network or its id starts with an earlier target's name |
| Rollout.AbortLeavesTheRest | src/rollout.rs:738-757 | after an abort nothing is restarted, the reason is the failed target's, and what is apart from the targets up to it is as it was in every state |
| Rollout.ForContainer | src/rollout.rs:561-621 | the plan is made for the project as it stands; falling back leaves the daemon as it was, happens only when the plan adds nothing or does not cover the container, and never for a one-shot in flight; otherwise the report is that of the run |
| Schedule.FailedMeans | src/scheduler.rs:351-369 | a digest is on record as failed exactly while the last event about the container since it was last dropped is its rejection |
| Schedule.RetriedIff | src/scheduler.rs:589-595 | a called-for update is withheld exactly then |
| Schedule.OneSettle | src/scheduler.rs:351-369 | if from some point of a trace every outcome is about one digest and a landing holds, a container that stays listed from there triggers at most one update that is settled |
| Schedule.SiblingReopens | src/scheduler.rs:351-369 | three whole ticks in which two members on two references take each other's rejection off the record and the first digest is tried again |
| Schedule.CronCadence | src/scheduler.rs:307-314 | each fire uses up the earliest matching minute since the one before or the seeding; missed windows collapse into one |
| Schedule.PollCadence | src/scheduler.rs:121-137 | consecutive polls of a container, failed inspects included, are at least the interval apart |
| Schedule.AnnouncedOnce | src/scheduler.rs:571-588 | the same available digest is not announced twice in a row |
| Schedule.ClaimedOncePerTick | src/scheduler.rs:236-245 | within a tick nothing a rollout claimed is looked at again |
| Turns.VerdictsPerTarget | src/scheduler.rs:482-511 | one verdict per planned target, in plan order, with one failure exactly when the abort was a step error |
| Turns.ApplyUpdate | src/scheduler.rs:641-770 | the project's rollout where there is one to run, the plain update exactly where compose is off, the container is no member or the plan falls back; what is left to record is what that run came to |
| Turns.AppliedRests | src/scheduler.rs:675-700 | an outcome names the trigger and members of its project only, all of them claimed; a landing means that an update of each renewed it and had exit zero or a healthy container as its gate's verdict, and a rejection that a gate had another |
| Turns.ProcessContainer | src/scheduler.rs:527-635 | the daemon is touched only for an available update, in an active mode, of a digest that has not failed; the verdict otherwise; what the probe compares is what the daemon has on record |
| Turns.RejectedStory | src/scheduler.rs:351-366 | a rejected update is told by the four events that `SiblingReopens` is made of |
| Quiet.FitIsQuiet | src/probe.rs:33-69 | a container on the image of the pulled digest is never found behind that digest, whatever else is recorded |
| Quiet.LandingFits | src/docker/recreate.rs:540-634 | an update that passed its gate leaves the container of its name on the image of the digest served |
| Quiet.UpdateKeepsFit | src/docker/recreate.rs:540-634 | any other update, its repairs and its rollback included, keeps it there |
| Quiet.ChainFits | src/rollout.rs:629-786 | and so does a whole rollout |
| Quiet.TurnKeeps | src/scheduler.rs:527-770 | one turn of any container keeps what is known of a watched one: the members' references, the image after a landing, no probe that finds it behind, no outcome at another digest |
| Scheduler.RunSummary.Record | src/scheduler.rs:414-428 | the counters are the tally of the recorded verdicts, and the run is scheduled exactly when a calendar mode was among them |
| Scheduler.CronFor | src/scheduler.rs:89-104 | a schedule exactly when the mode is a calendar mode and the label's text, or the mode's default, parses; then it is what the text spells |
| Scheduler.State.Seed | src/scheduler.rs:108-118 | fresh state with the schedule of the policy, the next fire counted from now |
| Scheduler.State.NoteInspectFailed | src/scheduler.rs:291-303 | a failed inspect uses up a poll interval but no cron window |
| Scheduler.State.NoteChecked | src/scheduler.rs:305-314 | a check uses up the window or the interval |
| Scheduler.State.Remember | src/scheduler.rs:351-363 | rejection records the digest for every container concerned, landing clears it |
| Scheduler.State.Prune | src/scheduler.rs:367-369 | memory is kept only for listed containers |
| Scheduler.State.Attend | src/scheduler.rs:274-366 | the exact events of one container's turn, and what happened to the daemon in it |
| Scheduler.State.RunTick | src/scheduler.rs:197-371 | fields stay the memory of a legal trace, no container is lost, what is known of any watched container still holds, and unless shut down every active listed container is attended to and remembered; the tick is the chain of its attendances, and the summary is the tally of their verdicts |
| Scheduler.RunWith | src/scheduler.rs:147-193 | the trace of any number of ticks, up to the first at which the shutdown flag is up; from each of them on the same is kept, and every container watched from there comes to rest as `Quiescence` says |
| Scheduler.Quiescence | src/scheduler.rs:351-369 | from any point between ticks, with one digest upstream and the project on one reference from there, a container that stays listed triggers at most one update that ends landed or rejected, and after a landing runs the image of that digest |

## Left out

- The HTTP client, registry authentication, token cache, notifications, logging, command line, configuration files and secrets: taken as parameters or arbitrary answers.
- Retries of a rate-limited pull, hook exec transport, API version negotiation: a call succeeds, is refused or faults.
- Calls that take effect although their reply is lost; a process exit is seen at the next probe only.
- Time zones and daylight saving: the calendar runs at a fixed offset in whole minutes.
- Other clients changing the daemon during a run, and dependents of dependents, which the code does not repair either.
- Tags that are moved by anything but a pull, and registries that serve two images under one digest.
- Restoring the owner after its own failed create or start: the code does not do it; it is only stated that the container still exists.
- Label keys are an enumeration plus opaque others; white space is ASCII; stop signals and create fields that are copied verbatim are one opaque field.
- Refilling bare image ids in a listing by an inspect: a row names the container's own reference, which no call changes, and the failed inspect is a fault. `classify_runtime_state` and the once-per-sighting warnings: easy members.
- The policy parser has no row of its own; its branches are used by the planner and the scheduler.
- Reattach.RepairConfigIsCreatable: the spec is edited as a value; that the original edits it in place is not captured. The same holds for the list that Compose.ParseDependsOnMeaning is about.
- Health.WaitForHealth: the clock is read once per poll, and durations are natural numbers of one unit.
- Cron.ParseField: 32-bit wrap-around of the stepping loop is modelled as the error `StepOverflow`, because the code's behaviour there depends on the build profile.
- Recreate.RecreateOneShot: dependents of a one-shot that has exited are only promised to be there or to have a stand-in, because the namespace they would join no longer exists.
- Scheduler.Quiescence: references whose spelling the normalisers disagree on (a bare Hub host, two leading Hub hosts) are not covered, because the daemon's records cannot be matched for them; see `Registry.FamiliarAgrees`. Nor are runs in which a container is looked at whose name only a clock before the epoch gives to an archive, because the code takes it for a container of its own; see `Rename.CandidateIsEarlyName`.
- Scheduler.RunWith: the waiting between ticks is not modelled; a tick is given its time.
- Scheduler.RunSummary.Record: the counters are one map from verdict to count.
