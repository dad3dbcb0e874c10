/** The health-gated update and the one-shot re-run (src/docker/recreate.rs). */
module Recreate {
  import opened Wrappers
  import opened Rename
  import opened Docker
  import opened Swap
  import opened Reattach
  import opened Rollback
  import opened Cycle
  import Health
  import Labels
  import Probe
  import Registry

  datatype Cleanup = Cleanup(removeReplaced: bool, pruneDangling: bool)

  datatype HookSkipReason = NonZeroExit(exitCode: int) | HookTimeout | ExecFailed

  datatype CycleResult = CycleResult(
    ownerName: string,
    oldName: string,
    newId: Id,
    imageRef: string,
    oldImageId: Option<ImageId>,
    dependents: seq<string>)

  datatype CycleOutcome = CycleCompleted(cycle: CycleResult) | Skipped(reason: HookSkipReason)

  datatype RecreateOutcome =
    | Recreated(oldName: string, newId: Id)
    | RolledBack(event: RollbackEvent)
    | SkippedByHook(reason: HookSkipReason)

  datatype OneShotOutcome =
    | OneShotCompleted
    | OneShotFailed(exitCode: int)
    | OneShotTimedOut
    | OneShotSkipped(reason: HookSkipReason)

  method RunPreUpdateHook(d: Daemon, name: string, hook: Option<Labels.Hook>) returns (skip: Option<HookSkipReason>)
    ensures hook.None? ==> skip.None?
  {
    if hook.None? { return None; }
    var status := d.ExecHook(name, hook.value.command);
    match status {
      case Success(Completed(code)) => skip := if code == 0 then None else Some(NonZeroExit(code));
      case Success(HookTimedOut) => skip := Some(HookTimeout);
      case Failure(_) => skip := Some(ExecFailed);
    }
  }

  method RunPostUpdateHook(d: Daemon, newId: Id, hook: Option<Labels.Hook>) {
    if hook.Some? {
      var _ := d.ExecHook(newId, hook.value.command);
    }
  }

  /** Nothing resolves to the replaced image any more, if that was asked for and
      nobody uses it. */
  ghost predicate Cleaned(cs: Containers, store: ImageStore, cleanup: Cleanup, oldImageId: Option<ImageId>) {
    cleanup.removeReplaced && oldImageId.Some? && !InUse(cs, oldImageId.value) ==>
      && oldImageId.value !in store.tags.Values && oldImageId.value !in store.fixed.Values
  }

  method RunCleanup(d: Daemon, cleanup: Cleanup, oldImageId: Option<ImageId>)
    requires d.Valid()
    modifies d`images, d`faults
    ensures d.Valid() && d.faults >= old(d.faults)
    ensures !cleanup.removeReplaced && !cleanup.pruneDangling ==> d.images == old(d.images)
    ensures !cleanup.removeReplaced || oldImageId.None? || d.ImageInUse(oldImageId.value) ==>
              d.images.tags == old(d.images).tags
    ensures forall image ::
              ResolveImage(old(d.images), image).Some? && d.ImageInUse(ResolveImage(old(d.images), image).value) ==>
              ResolveImage(d.images, image) == ResolveImage(old(d.images), image)
    ensures d.faults == old(d.faults) ==> Cleaned(d.containers, d.images, cleanup, oldImageId)
  {
    hide ResolveImage;
    ghost var store0 := d.images;
    if cleanup.removeReplaced && oldImageId.Some? {
      var removed := d.RemoveImage(oldImageId.value);
      if removed.Success? { UsedSurvive(d, store0, {oldImageId.value}); }
    }
    ghost var store1 := d.images;
    if cleanup.pruneDangling {
      var pruned, gone := d.PruneDanglingImages();
      if pruned.Success? { UsedSurvive(d, store1, gone); }
    }
  }

  lemma UsedSurvive(d: Daemon, store: ImageStore, gone: set<ImageId>)
    requires d.NoneInUse(gone)
    ensures forall image :: ResolveImage(store, image).Some? && d.ImageInUse(ResolveImage(store, image).value) ==>
              ResolveImage(Without(store, gone), image) == ResolveImage(store, image)
  {
    forall image | ResolveImage(store, image).Some? && d.ImageInUse(ResolveImage(store, image).value)
      ensures ResolveImage(Without(store, gone), image) == ResolveImage(store, image)
    {
      WithoutKeeps(store, gone, image);
    }
  }

  // ----- the pure cycle -----

  /** No state since `h0` differs from `cs0`. */
  ghost predicate Untouched(h0: seq<Containers>, h: seq<Containers>, cs0: Containers) {
    Continues(h0, h) && forall i :: |h0| <= i < |h| ==> h[i] == cs0
  }

  ghost predicate ImagesGrow(before: ImageStore, after: ImageStore) {
    forall image :: ResolveImage(before, image).Some? ==> ResolveImage(after, image).Some?
  }

  /** Between the two records the reference was pulled, once, and the image is
      the one of the digest that the registry served then; a digest reference
      stands for itself. */
  ghost predicate ServedNow(before: seq<Pulled>, after: seq<Pulled>, contentOf: string -> ImageId, image: string,
                            id: Option<ImageId>) {
    exists digest ::
      after == before + [Pulled(Registry.Parse(image), digest)]
      && (Probe.IsPinned(image) || id == Some(contentOf(digest)))
  }

  lemma PullServes(store: ImageStore, before: seq<Pulled>, after: seq<Pulled>, contentOf: string -> ImageId,
                   image: string, digest: string)
    requires Carries(store, Registry.Parse(image), digest, contentOf)
    requires after == before + [Pulled(Registry.Parse(image), digest)]
    ensures ServedNow(before, after, contentOf, image, ResolveImage(store, image)) && PullsKept(before, after)
  {
  }

  /** The preflight objects to re-creating this container. */
  ghost predicate TooManyNetworks(cs: Containers, multiNetwork: bool, o: Id)
    requires o in cs
  {
    cs[o].config.endpoints.Some? && |cs[o].config.endpoints.value| > 1 && !multiNetwork
  }

  /** Nothing but a fault or a hook can stop the re-creation of `o`: there is
      room for its archive, the daemon accepts its settings, a digest reference
      is known, and a borrowed network is there. */
  ghost predicate ClearWay(cs: Containers, store: ImageStore, multiNetwork: bool, o: Id)
    requires o in cs
  {
    var config := SpecOf(o, cs[o]).config;
    && !TooManyNetworks(cs, multiNetwork, o)
    && (forall ts: int :: ArchiveRoom(cs, cs[o].name, ts))
    && !Conflicting(config)
    && (Probe.IsPinned(config.image) ==> ResolveImage(store, config.image).Some?)
    && (SharesNamespace(config) ==> exists z :: Lends(cs, o, config, z))
  }

  /** `z` runs and `config`, under the name of `o`, joins its network. */
  ghost predicate Lends(cs: Containers, o: Id, config: Config, z: Id) {
    o in cs && z in cs && z != o && cs[z].running && Joins(cs, cs[o].name, config, z)
  }

  /** What the cycle has established when it completes. */
  ghost predicate Completion(cs0: Containers, issued: set<Id>, cs1: Containers, o: Id, cycle: CycleResult,
                             from: Origin) {
    && OwnerSwapped(cs0, issued, cs1, o, cycle.oldName, cycle.newId)
    && cycle.ownerName == cs0[o].name
    && cycle.imageRef == cs0[o].config.image
    && cycle.oldImageId == cs0[o].imageId
    && from.imageId.Some? && from.image == cs0[o].config.image && from.labels == cs0[o].config.labels
    && Replacement(cs1[cycle.newId], cs0[o].name, SpecOf(o, cs0[o]).config, cs0[o].config.image, from.imageId)
    && SharesNamespace(cs1[cycle.newId].config) == SharesNamespace(cs0[o].config)
    && (!SharesNamespace(cs1[cycle.newId].config) ==> cs1[cycle.newId].ns.owner == cycle.newId)
    && Dependents(cs0, o, NameSet(cycle.dependents))
    && (forall i, j :: 0 <= i < j < |cycle.dependents| ==> cycle.dependents[i] != cycle.dependents[j])
  }

  datatype Clearance = HookSaysNo(reason: HookSkipReason) | Cleared(spec: Spec, dependents: seq<string>)

  /** Everything before the point of no return: `inspect → preflight → pull →
      pre-update hook → list the dependents`. No container changes. */
  method Clear(d: Daemon, name: string, hooks: Labels.LifecycleHooks) returns (r: Result<Clearance, DockerError>)
    requires d.Valid()
    modifies d`images, d`faults, d`pulls
    ensures d.Valid() && d.faults >= old(d.faults) && PullsKept(old(d.pulls), d.pulls)
    ensures d.Lookup(name).None? ==> r.Failure?
    ensures d.faults == old(d.faults) && hooks.preUpdate.None? && d.Lookup(name).Some? ==>
              TooManyNetworks(d.containers, d.multiNetwork, d.Lookup(name).value) || (r.Success? && r.value.Cleared?)
    ensures r.Success? && r.value.HookSaysNo? ==> hooks.preUpdate.Some?
    ensures r.Success? && r.value.Cleared? ==>
              && d.Lookup(name).Some?
              && var o, deps := d.Lookup(name).value, r.value.dependents;
                 && r.value.spec == SpecOf(o, d.containers[o])
                 && ImagesGrow(old(d.images), d.images)
                 && ServedNow(old(d.pulls), d.pulls, d.contentOf, d.containers[o].config.image,
                              ResolveImage(d.images, d.containers[o].config.image))
                 && (forall i, j :: 0 <= i < j < |deps| ==> deps[i] != deps[j])
                 && (d.faults == old(d.faults) ==>
                       forall x :: x in d.containers && d.IsDependent(x, o) ==> d.containers[x].name in deps)
                 && (forall n :: n in deps ==>
                       exists x :: x in d.containers && d.containers[x].name == n && d.IsDependent(x, o))
  {
    hide IsFullId, NamespacesOwned, ImagesKept, Resolve, ResolveImage, ContainerReference;
    var inspected := d.Inspect(name);
    if inspected.Failure? {
      return Failure(inspected.error);
    }
    var spec := inspected.value;
    var preflight := d.Preflight(spec);
    if preflight.Failure? {
      return Failure(preflight.error);
    }
    ghost var images0, pulls0 := d.images, d.pulls;
    var ref := Registry.Parse(spec.imageRef);
    var pulled, digest := d.Pull(ref);
    if pulled.Failure? {
      return Failure(pulled.error);
    }
    PullGrows(images0, d.images, ref);
    PullServes(d.images, pulls0, d.pulls, d.contentOf, spec.imageRef, digest);
    var skip := RunPreUpdateHook(d, name, hooks.preUpdate);
    if skip.Some? {
      return Success(HookSaysNo(skip.value));
    }
    var listed := d.ListNetworkDependents(name);
    // a listing failure degrades to "no dependents"
    r := Success(Cleared(spec, match listed case Success(names) => names case Failure(_) => []));
  }

  method RecreateOne(d: Daemon, name: string, hooks: Labels.LifecycleHooks)
    returns (r: Result<CycleOutcome, DockerError>, ghost o: Id, ghost down: bool, ghost from: Origin)
    requires d.Valid()
    modifies d`containers, d`images, d`issued, d`generation, d`history, d`faults, d`pulls
    ensures d.Valid() && d.faults >= old(d.faults) && old(d.issued) <= d.issued && PullsKept(old(d.pulls), d.pulls)
    ensures old(d.Lookup(name)).None? ==> r.Failure? && !down
    ensures old(d.Lookup(name)).Some? ==> o == old(d.Lookup(name)).value
    ensures !down ==> d.containers == old(d.containers) && Untouched(old(d.history), d.history, old(d.containers))
    ensures down ==> old(d.Lookup(name)).Some?
                     && from == OriginOf(d.images, old(d.containers)[o].config, old(d.containers)[o].config.image)
                     && ServedNow(old(d.pulls), d.pulls, d.contentOf, from.image, from.imageId)
                     && WasDown(old(d.history), d.history, o)
                     && SwapRun(old(d.history), d.history, old(d.containers), old(d.issued), o, from)
                     && SwapState(old(d.containers), old(d.issued), d.containers, o, from)
    ensures r.Success? && r.value.Skipped? ==> !down && hooks.preUpdate.Some?
    ensures d.faults == old(d.faults) && hooks.preUpdate.None? && old(d.Lookup(name)).Some? ==>
              ClearWay(old(d.containers), old(d.images), d.multiNetwork, o) ==> r.Success?
    ensures r.Success? && r.value.CycleCompleted? ==>
              && down && LastIs(d.history, d.containers)
              && Completion(old(d.containers), old(d.issued), d.containers, o, r.value.cycle, from)
              && ImagesGrow(old(d.images), d.images)
              && (d.faults == old(d.faults) ==>
                    forall x :: x in old(d.containers) && old(d.IsDependent(x, o)) ==>
                      old(d.containers)[x].name in r.value.cycle.dependents)
              && (forall n :: n in r.value.cycle.dependents ==>
                    exists x :: x in old(d.containers) && old(d.containers)[x].name == n && old(d.IsDependent(x, o)))
  {
    hide IsFullId, NamespacesOwned, ImagesKept, TagsServed, Resolve, ResolveImage, SwapState, SwapRun, WasDown,
      ContainerReference, Replacement, OwnerSwapped, Dependents, ImagesGrow, Swapped, ClearWay, Unobstructed, ServedNow,
      PullsKept, TooManyNetworks;
    ghost var cs0, issued, h0, images0, pulls0 := d.containers, d.issued, d.history, d.images, d.pulls;
    down, from := false, Origin("", None, map[]);
    o := if d.Lookup(name).Some? then d.Lookup(name).value else "";
    ghost var fit := o in cs0 && ClearWay(cs0, images0, d.multiNetwork, o);
    ghost var z := if o in cs0 then LenderOf(cs0, o, SpecOf(o, cs0[o]).config) else o;
    if fit { FewNetworks(cs0, images0, d.multiNetwork, o); }
    var clearance := Clear(d, name, hooks);
    match clearance {
      case Failure(e) => return Failure(e), o, down, from;
      case Success(HookSaysNo(reason)) => return Success(Skipped(reason)), o, down, from;
      case Success(Cleared(spec, dependents)) =>
        DependentsOf(d, o, dependents);
        SpecKeeps(o, cs0[o]);
        from := OriginOf(d.images, cs0[o].config, spec.imageRef);
        if fit { ClearIsUnobstructed(d, pulls0, images0, o, z); }
        var swap := SwapContainer(d, spec.name, spec.config, spec.imageRef, o, z);
        match swap {
          case Failure(StopFailed(e)) =>
            return Failure(e), o, down, from;
          case Failure(AfterStop(e, _)) =>
            return Failure(e), o, true, from;
          case Success((oldName, newId)) =>
            SwapComplete(cs0, issued, d.containers, o, oldName, newId, spec.config, spec.imageRef, from.imageId);
            var cycle := CycleResult(spec.name, oldName, newId, spec.imageRef, spec.imageId, dependents);
            return Success(CycleCompleted(cycle)), o, true, from;
        }
    }
  }

  lemma FewNetworks(cs: Containers, store: ImageStore, multiNetwork: bool, o: Id)
    requires o in cs && ClearWay(cs, store, multiNetwork, o)
    ensures !TooManyNetworks(cs, multiNetwork, o)
  {
  }

  lemma ClearIsUnobstructed(d: Daemon, pulls: seq<Pulled>, store: ImageStore, o: Id, z: Id)
    requires o in d.containers && ClearWay(d.containers, store, d.multiNetwork, o) && ImagesGrow(store, d.images)
    requires ServedNow(pulls, d.pulls, d.contentOf, d.containers[o].config.image,
                       ResolveImage(d.images, d.containers[o].config.image))
    requires z == LenderOf(d.containers, o, SpecOf(o, d.containers[o]).config)
    ensures var spec := SpecOf(o, d.containers[o]); Unobstructed(d, o, spec.config, spec.imageRef, z)
  {
    hide Joins, Conflicting, ArchiveRoom, Resolve, ContainerReference;
  }

  /** Whose network `config` borrows, if it is there to be borrowed. */
  ghost function LenderOf(cs: Containers, o: Id, config: Config): (z: Id)
    ensures (exists w :: Lends(cs, o, config, w)) ==> Lends(cs, o, config, z)
  {
    if w :| Lends(cs, o, config, w) then w else o
  }

  lemma PullGrows(before: ImageStore, after: ImageStore, ref: Registry.ImageRef)
    requires ref in after.tags && after.tags == before.tags[ref := after.tags[ref]]
    requires forall p :: p in before.fixed ==> p in after.fixed
    ensures ImagesGrow(before, after)
  {
  }

  /** Whatever is listed is the name of another container. */
  lemma DependentsOf(d: Daemon, o: Id, names: seq<string>)
    requires d.Valid() && o in d.containers
    requires forall n :: n in names ==>
               exists x :: x in d.containers && d.containers[x].name == n && d.IsDependent(x, o)
    ensures Dependents(d.containers, o, NameSet(names))
  {
  }

  lemma SwapComplete(cs0: Containers, issued: set<Id>, cs1: Containers, o: Id, oldName: string, newId: Id,
                     config: Config, image: string, imageId: Option<ImageId>)
    requires Swapped(cs0, cs1, o, oldName, newId) && FreshId(issued, newId)
    requires IsArchiveOf(oldName, cs0[o].name) && !NameTaken(cs0, oldName)
    requires Replacement(cs1[newId], cs0[o].name, config, image, imageId)
    ensures newId in cs1 && OwnerSwapped(cs0, issued, cs1, o, oldName, newId)
    ensures SharesNamespace(cs1[newId].config) == SharesNamespace(config)
  {
  }

  // ----- after the gate -----

  /** The situation the gate leaves: the cycle is complete and nothing but the
      new container's own exit has happened since. */
  ghost predicate AtGate(d: Daemon, cs0: Containers, issued: set<Id>, o: Id, cycle: CycleResult, from: Origin)
    reads d
  {
    && d.Valid() && WellNamed(cs0, issued) && NamespacesOwned(cs0, issued) && issued <= d.issued
    && OwnerSwapped(cs0, issued, d.containers, o, cycle.oldName, cycle.newId)
    && cycle.ownerName == cs0[o].name && cycle.oldImageId == cs0[o].imageId
    && MadeFrom(d.containers[cycle.newId], from) && from.image == cs0[o].config.image
    && Remade(d.containers[cycle.newId], cs0[o].name, SpecOf(o, cs0[o]).config, from.image, from.imageId)
    && SharesNamespace(d.containers[cycle.newId].config) == SharesNamespace(cs0[o].config)
    && (!SharesNamespace(cs0[o].config) ==> d.containers[cycle.newId].ns.owner == cycle.newId)
    && Dependents(cs0, o, NameSet(cycle.dependents))
    && (forall i, j :: 0 <= i < j < |cycle.dependents| ==> cycle.dependents[i] != cycle.dependents[j])
  }

  lemma DependentsStillThere(cs0: Containers, issued: set<Id>, cs1: Containers, o: Id, archive: string, y: Id,
                             names: seq<string>)
    requires OwnerSwapped(cs0, issued, cs1, o, archive, y) && Dependents(cs0, o, NameSet(names))
    ensures forall n :: n in names ==> NameTaken(cs1, n)
  {
    forall n | n in names
      ensures NameTaken(cs1, n)
    {
      assert n in NameSet(names);
      var x :| x in cs0 && cs0[x].name == n;
      assert cs1[x] == cs0[x];
    }
  }

  /** The original is gone, or a running container still uses its namespace. */
  ghost predicate ArchiveDropped(s: Containers, o: Id) { o !in s || HoldsNamespace(s, o) }

  lemma ArchiveStopped(cs0: Containers, issued: set<Id>, cs1: Containers, issued1: set<Id>, s: Containers, o: Id,
                       archive: string,
                       y: Id, deps: set<string>)
    requires OwnerSwapped(cs0, issued, cs1, o, archive, y) && Dependents(cs0, o, deps)
    requires RepairState(cs1, issued1, s, deps)
    ensures o in s && !s[o].running
  {
    assert archive !in deps;
  }

  /** Repair the dependents first, then drop the archive. */
  method HandOver(d: Daemon, cycle: CycleResult, ghost cs0: Containers, ghost issued: set<Id>, ghost o: Id,
                  ghost from: Origin)
    requires AtGate(d, cs0, issued, o, cycle, from)
    modifies d`containers, d`history, d`faults, d`issued, d`generation
    ensures d.Valid() && d.faults >= old(d.faults) && old(d.issued) <= d.issued
    ensures CycleRun(old(d.history), d.history, cs0, issued, o, NameSet(cycle.dependents), from, |old(d.history)|)
    ensures CycleState(cs0, issued, d.containers, o, NameSet(cycle.dependents), from)
    ensures cycle.newId in d.containers && d.containers[cycle.newId] == old(d.containers)[cycle.newId]
    ensures d.faults == old(d.faults) && old(d.containers)[cycle.newId].running
              && Repairable(cs0, d.images, o, NameSet(cycle.dependents)) ==>
              Settled(cs0, d.containers, o, NameSet(cycle.dependents), cycle.newId)
    ensures d.faults == old(d.faults) ==> ArchiveDropped(d.containers, o)
  {
    hide IsFullId, UniqueNames, NamespacesOwned, ImagesKept, Resolve, ResolveImage, HoldsNamespace, RepairRun,
      RepairState, CycleRun, CycleState, OwnerSwapped, Dependents, Settled, Repairable, AllReady, AllHealed,
      NameTaken, Accounted, IsReplacement;
    var y := cycle.newId;
    ghost var deps, archive := NameSet(cycle.dependents), cycle.oldName;
    ghost var cs1, issued1, h0, f0 := d.containers, d.issued, d.history, d.faults;
    SwappedParts(cs0, issued, cs1, o, archive, y);
    ghost var fit := cs1[y].running && Repairable(cs0, d.images, o, deps);
    DependentsStillThere(cs0, issued, cs1, o, archive, y, cycle.dependents);
    if fit { ReadyAfterSwap(cs0, issued, cs1, d.images, o, archive, y, deps); }
    ReattachDependents(d, cycle.ownerName, Some(y), cycle.dependents, y);
    ghost var s, h := d.containers, d.history;
    RepairIsCycle(cs0, issued, cs1, issued1, s, o, archive, y, deps, from);
    RepairRunIsCycleRun(h0, h, cs0, issued, cs1, issued1, o, archive, y, deps, from, |h0|);
    ByName(s, d.issued, o);
    ArchiveStopped(cs0, issued, cs1, issued1, s, o, archive, y, deps);
    var removed := d.Remove(cycle.oldName, false);
    NewIsReplacement(cs0, issued, cs1, s, o, archive, y);
    ArchiveGone(cs0, issued, s, o, deps, from, y);
    CycleRunStep(h0, h, d.containers, cs0, issued, o, deps, from, |h0|);
    if fit && d.faults == f0 {
      RepairableParts(cs0, d.images, o, deps);
      FreeAfterRepair(cs0, issued, cs1, s, d.issued, o, archive, y, deps);
      SwapHealedIsSettled(cs0, issued, cs1, s, d.issued, o, archive, y, deps);
    }
  }

  /** Success: hand the namespace over, then housekeeping, which cannot touch
      what the new container runs. */
  method Adopt(d: Daemon, cycle: CycleResult, cleanup: Cleanup, postUpdate: Option<Labels.Hook>,
               ghost cs0: Containers, ghost issued: set<Id>, ghost o: Id, ghost from: Origin)
    requires AtGate(d, cs0, issued, o, cycle, from)
    modifies d`containers, d`images, d`issued, d`generation, d`history, d`faults
    ensures d.Valid() && d.faults >= old(d.faults) && old(d.issued) <= d.issued
    ensures CycleRun(old(d.history), d.history, cs0, issued, o, NameSet(cycle.dependents), from, |old(d.history)|)
    ensures CycleState(cs0, issued, d.containers, o, NameSet(cycle.dependents), from)
    ensures cycle.newId in d.containers && d.containers[cycle.newId] == old(d.containers)[cycle.newId]
    ensures d.faults == old(d.faults) && old(d.containers)[cycle.newId].running
              && Repairable(cs0, old(d.images), o, NameSet(cycle.dependents)) ==>
              Settled(cs0, d.containers, o, NameSet(cycle.dependents), cycle.newId)
    ensures forall image ::
              old(d.containers)[cycle.newId].imageId.Some?
              && ResolveImage(old(d.images), image) == old(d.containers)[cycle.newId].imageId ==>
              ResolveImage(d.images, image) == old(d.containers)[cycle.newId].imageId
    ensures d.faults == old(d.faults) ==>
              Cleaned(d.containers, d.images, cleanup, cycle.oldImageId) && ArchiveDropped(d.containers, o)
  {
    hide AtGate, CycleRun, CycleState, Settled, Repairable, Daemon.Valid, ResolveImage, Cleaned, ArchiveDropped;
    HandOver(d, cycle, cs0, issued, o, from);
    RunPostUpdateHook(d, cycle.newId, postUpdate);
    RunCleanup(d, cleanup, cycle.oldImageId);
  }

  lemma SwappedParts(cs0: Containers, issued: set<Id>, cs1: Containers, o: Id, archive: string, y: Id)
    requires OwnerSwapped(cs0, issued, cs1, o, archive, y)
    ensures o in cs0 && o in cs1 && y in cs1 && o != y && cs1[o].name == archive
  {
  }

  lemma NewIsReplacement(cs0: Containers, issued: set<Id>, cs1: Containers, s: Containers, o: Id, archive: string,
                         y: Id)
    requires OwnerSwapped(cs0, issued, cs1, o, archive, y) && cs1[y].config.image == cs0[o].config.image
    requires y in s && s[y] == cs1[y]
    ensures IsReplacement(cs0[o], issued, s, y)
  {
  }

  lemma RepairableParts(cs0: Containers, store: ImageStore, o: Id, deps: set<string>)
    requires Repairable(cs0, store, o, deps)
    ensures Dependents(cs0, o, deps)
    ensures forall x :: x in cs0 && x != o && cs0[x].running && cs0[x].ns.owner == o ==> cs0[x].name in deps
  {
  }

  /** The original has its name again and runs, the replacement is gone and so
      is the archive name. */
  ghost predicate BackHome(cs0: Containers, s: Containers, o: Id, cycle: CycleResult) {
    && o in cs0 && o in s && s[o].name == cs0[o].name && s[o].running
    && cycle.newId !in s
    && !NameTaken(s, cycle.oldName)
  }

  /** Failure of the gate: roll back, then repair the dependents of the restored
      container, whose restart made a new namespace. */
  method GoBack(d: Daemon, cycle: CycleResult, reason: RollbackReason, ghost cs0: Containers, ghost issued: set<Id>,
                ghost o: Id, ghost from: Origin)
    returns (r: Result<RollbackEvent, DockerError>)
    requires AtGate(d, cs0, issued, o, cycle, from)
    modifies d`containers, d`history, d`faults, d`issued, d`generation
    ensures d.Valid() && d.faults >= old(d.faults) && old(d.issued) <= d.issued
    ensures forall until :: CycleRun(old(d.history), d.history, cs0, issued, o, NameSet(cycle.dependents), from, until)
    ensures CycleState(cs0, issued, d.containers, o, NameSet(cycle.dependents), from) && o in d.containers
    ensures r.Success? ==>
              && BackHome(cs0, d.containers, o, cycle)
              && r.value == RollbackEvent(cs0[o].name, reason, cycle.imageRef, cycle.imageRef, cycle.oldName)
              && (d.faults == old(d.faults) && Repairable(cs0, d.images, o, NameSet(cycle.dependents)) ==>
                    Settled(cs0, d.containers, o, NameSet(cycle.dependents), o))
    ensures r.Failure? && d.faults == old(d.faults) ==>
              o in cs0 && cycle.newId !in d.containers && d.containers[o].name == cs0[o].name
  {
    hide IsFullId, UniqueNames, NamespacesOwned, ImagesKept, Resolve, ResolveImage, RepairRun, RepairState, CycleRun,
      CycleState, OwnerSwapped, Dependents, Settled, Repairable, AllReady, AllHealed, NameTaken, Accounted,
      IsReplacement, RollbackRun, RollbackState, Restored, HoldsNamespace;
    var y := cycle.newId;
    ghost var deps, archive := NameSet(cycle.dependents), cycle.oldName;
    ghost var cs1, issued1, h0, f0 := d.containers, d.issued, d.history, d.faults;
    SwappedParts(cs0, issued, cs1, o, archive, y);
    OwnerDown(cs0, issued, cs1, o, archive, y);
    NewUnheld(cs0, issued, cs1, o, archive, y);
    var back := RollBack(d, cycle.ownerName, y, cycle.oldName, cycle.imageRef, cycle.imageRef, reason, o);
    ghost var cs2, issued2, h := d.containers, d.issued, d.history;
    RollbackIsCycle(cs0, issued, cs1, cs2, o, archive, y, deps, from);
    forall until
      ensures CycleRun(h0, h, cs0, issued, o, deps, from, until)
    {
      RollbackRunIsCycleRun(h0, h, cs0, issued, cs1, o, archive, y, deps, from, until);
    }
    if back.Failure? {
      return Failure(back.error);
    }
    RestoredIsBack(cs0, issued, cs1, cs2, o, archive, y);
    DependentsBack(cs0, cs2, o, cycle.dependents);
    if Repairable(cs0, d.images, o, deps) { ReadyAfterRollback(cs0, issued, cs2, d.images, o, deps); }
    ReattachDependents(d, cycle.ownerName, None, cycle.dependents, o);
    BackRepairIsCycle(cs0, issued, cs2, issued2, d.containers, o, deps, from);
    forall until
      ensures CycleRun(h0, d.history, cs0, issued, o, deps, from, until)
    {
      BackRepairRunIsCycleRun(h, d.history, cs0, issued, cs2, issued2, o, deps, from, until);
      CycleRunJoin(h0, h, d.history, cs0, issued, o, deps, from, until);
    }
    ArchiveParts(cs0, issued, cs1, o, archive, y);
    ArchiveNameFree(cs0, issued, d.containers, o, archive, deps, from);
    KeysIssued(cs1, issued1);
    NewStaysGone(cs0, issued, cs1, cs2, issued2, d.containers, o, archive, y, deps);
    if d.faults == f0 && Repairable(cs0, d.images, o, deps) {
      HealedIsSettled(cs0, cs2, d.containers, o, deps);
    }
    return back;
  }

  lemma OwnerDown(cs0: Containers, issued: set<Id>, cs1: Containers, o: Id, archive: string, y: Id)
    requires OwnerSwapped(cs0, issued, cs1, o, archive, y)
    ensures !cs1[o].running && cs1[y].name == cs0[o].name
  {
  }

  lemma ArchiveParts(cs0: Containers, issued: set<Id>, cs1: Containers, o: Id, archive: string, y: Id)
    requires OwnerSwapped(cs0, issued, cs1, o, archive, y)
    ensures IsArchiveOf(archive, cs0[o].name) && !NameTaken(cs0, archive)
  {
  }

  lemma DependentsBack(cs0: Containers, cs2: Containers, o: Id, names: seq<string>)
    requires OwnerBack(cs0, cs2, o) && Dependents(cs0, o, NameSet(names))
    ensures forall n :: n in names ==> NameTaken(cs2, n)
  {
    forall n | n in names
      ensures NameTaken(cs2, n)
    {
      assert n in NameSet(names);
      var x :| x in cs0 && cs0[x].name == n;
      assert cs2[x].name == n;
    }
  }

  lemma KeysIssued(cs: Containers, issued: set<Id>)
    requires WellNamed(cs, issued)
    ensures cs.Keys <= issued
  {
  }

  /** An id is never handed out again. */
  lemma NewStaysGone(cs0: Containers, issued: set<Id>, cs1: Containers, cs2: Containers, issued2: set<Id>,
                     s: Containers, o: Id, archive: string, y: Id, deps: set<string>)
    requires OwnerSwapped(cs0, issued, cs1, o, archive, y) && cs1.Keys <= issued2
    requires OwnerBack(cs0, cs2, o) && RepairState(cs2, issued2, s, deps)
    ensures y !in s
  {
  }

  // ----- the update -----

  /** The initial state is one whose namespace sharers can all be repaired: the
      listing will name every one of them. */
  ghost predicate Prepared(cs: Containers, store: ImageStore, selfHostname: Option<string>, o: Id)
    requires o in cs
  {
    && (forall x :: x in cs && x != o && cs[x].running && cs[x].ns.owner == o ==> Depends(cs, selfHostname, x, o))
    && (forall x :: x in cs && Depends(cs, selfHostname, x, o) ==> RepairableOne(cs, store, x, o))
  }

  lemma PreparedIsRepairable(cs0: Containers, issued: set<Id>, store: ImageStore, o: Id, ids: set<Id>,
                             names: seq<string>)
    requires WellNamed(cs0, issued) && Dependents(cs0, o, NameSet(names))
    requires forall x :: x in cs0 && x != o && cs0[x].running && cs0[x].ns.owner == o ==> x in ids
    requires forall x :: x in ids ==> x in cs0 && cs0[x].name in names && RepairableOne(cs0, store, x, o)
    requires forall n :: n in names ==> exists x :: x in ids && cs0[x].name == n
    ensures Repairable(cs0, store, o, NameSet(names))
  {
    forall x | x in cs0 && cs0[x].name in NameSet(names)
      ensures RepairableOne(cs0, store, x, o)
    {
      var k :| k in ids && cs0[k].name == cs0[x].name;
      OneOfAName(cs0, issued, k, x);
    }
  }

  /** The state right after a completed cycle. */
  lemma CompletedAtGate(d: Daemon, cs0: Containers, issued: set<Id>, o: Id, cycle: CycleResult, from: Origin)
    requires d.Valid() && WellNamed(cs0, issued) && NamespacesOwned(cs0, issued) && issued <= d.issued
    requires Completion(cs0, issued, d.containers, o, cycle, from)
    ensures AtGate(d, cs0, issued, o, cycle, from)
    ensures d.containers[cycle.newId].running && from.imageId.Some?
  {
  }

  lemma GateFacts(d: Daemon, cs0: Containers, issued: set<Id>, o: Id, cycle: CycleResult, from: Origin)
    requires AtGate(d, cs0, issued, o, cycle, from)
    ensures d.Valid() && o in cs0 && o in d.containers && d.containers[o].name == cycle.oldName
    ensures IsArchiveOf(cycle.oldName, cs0[o].name)
    ensures cycle.newId in d.containers && cycle.newId !in issued
    ensures d.containers[cycle.newId].name == cs0[o].name
    ensures d.containers[cycle.newId].config.image == cs0[o].config.image
    ensures cycle.oldImageId == cs0[o].imageId
  {
  }

  /** Seeing the new container exit changes nothing but that. */
  lemma ExitAtGate(d: Daemon, cs1: Containers, cs0: Containers, issued: set<Id>, o: Id, cycle: CycleResult,
                   from: Origin)
    requires OwnerSwapped(cs0, issued, cs1, o, cycle.oldName, cycle.newId)
    requires d.Valid() && WellNamed(cs0, issued) && NamespacesOwned(cs0, issued) && issued <= d.issued
    requires d.containers == WithRunning(cs1, cycle.newId, false)
    requires cycle.ownerName == cs0[o].name && cycle.oldImageId == cs0[o].imageId
    requires MadeFrom(cs1[cycle.newId], from) && from.image == cs0[o].config.image
    requires Remade(cs1[cycle.newId], cs0[o].name, SpecOf(o, cs0[o]).config, from.image, from.imageId)
    requires SharesNamespace(cs1[cycle.newId].config) == SharesNamespace(cs0[o].config)
    requires !SharesNamespace(cs0[o].config) ==> cs1[cycle.newId].ns.owner == cycle.newId
    requires Dependents(cs0, o, NameSet(cycle.dependents))
    requires forall i, j :: 0 <= i < j < |cycle.dependents| ==> cycle.dependents[i] != cycle.dependents[j]
    ensures AtGate(d, cs0, issued, o, cycle, from)
  {
    hide IsFullId, WellNamed, NamespacesOwned, ImagesKept, NameTaken, Dependents, NameSet, IsArchiveOf, Daemon.Valid;
    var s := d.containers;
    assert forall x :: x in cs0 && x != o ==> s[x] == cs1[x];
    assert s[o] == cs1[o];
  }

  lemma UntouchedIsCycle(h0: seq<Containers>, h: seq<Containers>, cs0: Containers, issued: set<Id>, o: Id,
                         deps: set<string>, from: Origin, until: nat)
    requires o in cs0 && Untouched(h0, h, cs0)
    ensures CycleRun(h0, h, cs0, issued, o, deps, from, until) && CycleState(cs0, issued, cs0, o, deps, from)
  {
  }

  // ----- one update as a whole -----

  /** All there is to say of the daemon at one moment. */
  datatype World = World(
    containers: Containers,
    images: ImageStore,
    issued: set<Id>,
    history: seq<Containers>,
    faults: nat,
    pulls: seq<Pulled>,
    probes: seq<Probing>,
    multiNetwork: bool,
    selfHostname: Option<string>,
    contentOf: string -> ImageId)

  ghost function WorldOf(d: Daemon): World
    reads d
  {
    World(d.containers, d.images, d.issued, d.history, d.faults, d.pulls, d.probes, d.multiNetwork, d.selfHostname,
          d.contentOf)
  }

  /** How an update went: the container it was about, the dependents that were
      listed, whether the container was taken down, what the new one is made
      from, the new one that the gate looked at, the length of the history when
      the gate had its verdict (the final one if it never let the update pass),
      and the number of polls. */
  datatype Course = Course(
    owner: Option<Id>,
    deps: set<string>,
    down: bool,
    from: Origin,
    tried: Id,
    gate: nat,
    polls: nat)

  /** What holds of every update, whatever becomes of it. Nothing changes up to
      and including the stop; before index `until` every state has the original. */
  ghost predicate Keeps(a: World, b: World, name: string, c: Course, until: nat) {
    && UniqueNames(a.containers) && c.owner == Resolve(a.containers, name)
    && b.faults >= a.faults && a.issued <= b.issued && PullsKept(a.pulls, b.pulls) && b.contentOf == a.contentOf
    && (!c.down ==> b.containers == a.containers && Untouched(a.history, b.history, a.containers))
    && (c.owner.None? ==> !c.down && c.deps == {})
    && (c.owner.Some? ==>
          && CycleRun(a.history, b.history, a.containers, a.issued, c.owner.value, c.deps, c.from, until)
          && CycleState(a.containers, a.issued, b.containers, c.owner.value, c.deps, c.from)
          && AreDependents(a, c.owner.value, c.deps)
          && (c.down ==>
                && WasDown(a.history, b.history, c.owner.value)
                && c.from.image == a.containers[c.owner.value].config.image
                && c.from.labels == a.containers[c.owner.value].config.labels
                && ServedNow(a.pulls, b.pulls, b.contentOf, c.from.image, c.from.imageId)))
  }

  ghost predicate AreDependents(a: World, o: Id, deps: set<string>)
    requires o in a.containers
  {
    forall n :: n in deps ==>
      exists x :: x in a.containers && a.containers[x].name == n && Depends(a.containers, a.selfHostname, x, o)
  }

  /** Whoever borrows the network of `o` and may be repaired with it is among
      `deps`. */
  ghost predicate AllListed(a: World, o: Id, deps: set<string>)
    requires o in a.containers
  {
    forall x :: x in a.containers && Depends(a.containers, a.selfHostname, x, o) ==> a.containers[x].name in deps
  }

  /** An update goes on from `b1` to `b` with states of the same kind. */
  lemma KeepsOn(a: World, b1: World, b: World, name: string, c: Course, until: nat)
    requires Keeps(a, b1, name, c, until) && Onwards(a, b1, b, c, until)
    ensures Keeps(a, b, name, c, until)
  {
    hide CycleState, Resolve, UniqueNames, Untouched, AreDependents, ServedNow, WasDown;
    CycleRunJoin(a.history, b1.history, b.history, a.containers, a.issued, c.owner.value, c.deps, c.from, until);
    DownStays(a.history, b1.history, b.history, c.owner.value);
  }

  lemma KeepsSame(a: World, b1: World, b: World, name: string, c1: Course, c: Course, until: nat)
    requires Keeps(a, b1, name, c1, until) && b == b1.(probes := b.probes)
    requires c == c1.(tried := c.tried, gate := c.gate, polls := c.polls)
    ensures Keeps(a, b, name, c, until)
  {
  }

  /** The gate looked at the new container alone, and had its verdict by
      `c.gate`: while it polled, the new one had been started and the original
      was parked beside it. */
  ghost predicate Gated(a: World, b: World, c: Course) {
    && c.polls > 0 && c.down && c.owner.Some?
    && exists at :: |a.history| < at <= c.gate <= |b.history| && LookedAt(a, b, c, at)
  }

  ghost predicate LookedAt(a: World, b: World, c: Course, at: nat)
    requires c.owner.Some? && 0 < at <= |b.history|
  {
    && Health.Looked(a.probes, b.probes, c.tried, c.polls, at)
    && c.owner.value in b.history[at - 1]
    && c.tried in b.history[at - 1] && b.history[at - 1][c.tried].running
  }

  lemma GatedOn(a: World, b1: World, b: World, c1: Course, c: Course)
    requires Gated(a, b1, c1) && Continues(b1.history, b.history) && b.probes == b1.probes
    requires c == c1.(gate := c.gate) && c1.gate <= c.gate <= |b.history|
    ensures Gated(a, b, c) && c.polls > 0 && c.down && c.owner.Some?
  {
    hide Health.Looked;
    var at :| |a.history| < at <= c1.gate <= |b1.history| && LookedAt(a, b1, c1, at);
    assert b.history[at - 1] == b1.history[at - 1];
    assert LookedAt(a, b, c, at);
  }

  /** The cycle up to the start of the new container, with what it means for
      the states on the way. */
  method Begin(d: Daemon, name: string, hooks: Labels.LifecycleHooks)
    returns (r: Result<CycleOutcome, DockerError>, ghost c: Course)
    requires d.Valid()
    modifies d`containers, d`images, d`issued, d`generation, d`history, d`faults, d`pulls
    ensures d.Valid() && c.gate == |d.history| && c.polls == 0
    ensures forall until :: Keeps(old(WorldOf(d)), WorldOf(d), name, c, until)
    ensures c.owner.Some? ==> c.owner.value in d.containers
    ensures r.Success? && r.value.Skipped? ==> !c.down && hooks.preUpdate.Some?
    ensures c.owner.None? ==> r.Failure?
    ensures d.faults == old(d.faults) && hooks.preUpdate.None? && c.owner.Some? ==>
              ClearWay(old(d.containers), old(d.images), d.multiNetwork, c.owner.value) ==> r.Success?
    ensures r.Success? && r.value.CycleCompleted? ==>
              var cycle := r.value.cycle;
              && c.down && c.owner.Some? && c.deps == NameSet(cycle.dependents)
              && AtGate(d, old(d.containers), old(d.issued), c.owner.value, cycle, c.from)
              && LastIs(d.history, d.containers) && |old(d.history)| < |d.history|
              && d.containers[cycle.newId].running
              && c.from.imageId.Some? && c.from.imageId == ResolveImage(d.images, c.from.image)
              && cycle.imageRef == c.from.image
              && (d.faults == old(d.faults) ==> AllListed(old(WorldOf(d)), c.owner.value, c.deps))
              && (d.faults == old(d.faults)
                  && Prepared(old(d.containers), old(d.images), d.selfHostname, c.owner.value) ==>
                    Repairable(old(d.containers), d.images, c.owner.value, c.deps))
  {
    hide IsFullId, UniqueNames, ImagesKept, TagsServed, Resolve, ResolveImage, SwapRun, SwapState, CycleRun, CycleState,
      OwnerSwapped, Dependents, Repairable, NameTaken, RepairableOne, ImagesGrow, AtGate, Untouched, NamespacesOwned,
      WellNamed, ClearWay, ServedNow, PullsKept, WasDown, MadeFrom, Depends, Prepared, LastIs;
    ghost var a, cs0, issued := WorldOf(d), d.containers, d.issued;
    NamesUnique(cs0, issued);
    var one, o, down, from := RecreateOne(d, name, hooks);
    c := Course(Resolve(cs0, name), {}, down, from, "", |d.history|, 0);
    if c.owner.Some? {
      if one.Success? && one.value.CycleCompleted? {
        var names := one.value.cycle.dependents;
        c := c.(deps := NameSet(names));
        CompletedAtGate(d, cs0, issued, o, one.value.cycle, from);
        if Prepared(cs0, a.images, d.selfHostname, o) && d.faults == a.faults {
          PreparedRepairs(a, d.images, issued, o, names);
        }
        DownLonger(a.history, d.history, o);
      }
      forall until
        ensures CycleRun(a.history, d.history, cs0, issued, o, c.deps, from, until)
      {
        if down {
          SwapRunIsCycleRun(a.history, d.history, cs0, issued, o, c.deps, from, until);
        } else {
          UntouchedIsCycle(a.history, d.history, cs0, issued, o, c.deps, from, until);
        }
      }
      if down {
        SwapIsCycle(cs0, issued, d.containers, o, c.deps, from);
      } else {
        UntouchedIsCycle(a.history, d.history, cs0, issued, o, c.deps, from, 0);
      }
      ListedDependents(a, o, c.deps, one);
    }
    return one, c;
  }

  lemma DownLonger(h0: seq<Containers>, h: seq<Containers>, x: Id)
    requires WasDown(h0, h, x)
    ensures |h0| < |h|
  {
  }

  lemma ListedDependents(a: World, o: Id, deps: set<string>, one: Result<CycleOutcome, DockerError>)
    requires o in a.containers
    requires deps == {} || (one.Success? && one.value.CycleCompleted? && deps == NameSet(one.value.cycle.dependents))
    requires one.Success? && one.value.CycleCompleted? ==>
               forall n :: n in one.value.cycle.dependents ==>
                 exists x ::
                   x in a.containers && a.containers[x].name == n && Depends(a.containers, a.selfHostname, x, o)
    ensures AreDependents(a, o, deps)
  {
  }

  lemma PreparedRepairs(a: World, store: ImageStore, issued: set<Id>, o: Id, names: seq<string>)
    requires WellNamed(a.containers, issued) && Dependents(a.containers, o, NameSet(names))
    requires o in a.containers && Prepared(a.containers, a.images, a.selfHostname, o) && ImagesGrow(a.images, store)
    requires forall x :: x in a.containers && Depends(a.containers, a.selfHostname, x, o) ==>
               a.containers[x].name in names
    requires forall n :: n in names ==>
               exists x :: x in a.containers && a.containers[x].name == n && Depends(a.containers, a.selfHostname, x, o)
    ensures Repairable(a.containers, store, o, NameSet(names))
  {
    hide WellNamed, Dependents, RepairableOne, Depends, ImagesGrow, Repairable;
    var ids := set x | x in a.containers && Depends(a.containers, a.selfHostname, x, o);
    PreparedIsRepairable(a.containers, issued, a.images, o, ids, names);
    GrowsKeepsRepairable(a.containers, a.images, store, o, NameSet(names));
  }

  lemma GrowsKeepsRepairable(cs0: Containers, before: ImageStore, after: ImageStore, o: Id, deps: set<string>)
    requires Repairable(cs0, before, o, deps) && ImagesGrow(before, after)
    ensures Repairable(cs0, after, o, deps)
  {
    RepairableWithMore(cs0, before, after, o, deps);
  }

  /** The gate said no. A crash has been seen, so the new container is down. */
  method Retreat(d: Daemon, cycle: CycleResult, crashed: bool, ghost cs0: Containers, ghost issued: set<Id>,
                 ghost o: Id, ghost from: Origin)
    returns (r: Result<RollbackEvent, DockerError>)
    requires AtGate(d, cs0, issued, o, cycle, from)
    modifies d`containers, d`history, d`faults, d`issued, d`generation
    ensures d.Valid() && d.faults >= old(d.faults) && old(d.issued) <= d.issued
    ensures forall until :: CycleRun(old(d.history), d.history, cs0, issued, o, NameSet(cycle.dependents), from, until)
    ensures CycleState(cs0, issued, d.containers, o, NameSet(cycle.dependents), from) && o in d.containers
    ensures r.Success? ==>
              && BackHome(cs0, d.containers, o, cycle)
              && r.value == RollbackEvent(cs0[o].name, if crashed then CrashedBeforeHealthy else HealthTimeout,
                                          cycle.imageRef, cycle.imageRef, cycle.oldName)
              && (d.faults == old(d.faults) && Repairable(cs0, d.images, o, NameSet(cycle.dependents)) ==>
                    Settled(cs0, d.containers, o, NameSet(cycle.dependents), o))
    ensures r.Failure? && d.faults == old(d.faults) ==>
              o in cs0 && cycle.newId !in d.containers && d.containers[o].name == cs0[o].name
  {
    hide AtGate, CycleRun, CycleState, Settled, Repairable, Daemon.Valid;
    ghost var h0, deps := d.history, NameSet(cycle.dependents);
    GateFacts(d, cs0, issued, o, cycle, from);
    NoStates(h0, cs0, issued, o, deps, from);
    if crashed {
      SeeExit(d, cycle, cs0, issued, o, from);
    }
    ghost var h1 := d.history;
    r := GoBack(d, cycle, if crashed then CrashedBeforeHealthy else HealthTimeout, cs0, issued, o, from);
    forall until
      ensures CycleRun(h0, d.history, cs0, issued, o, deps, from, until)
    {
      CycleRunJoin(h0, h1, d.history, cs0, issued, o, deps, from, until);
    }
  }

  /** A probe shows that the new container has exited. */
  method SeeExit(d: Daemon, cycle: CycleResult, ghost cs0: Containers, ghost issued: set<Id>, ghost o: Id,
                 ghost from: Origin)
    requires AtGate(d, cs0, issued, o, cycle, from)
    modifies d`containers, d`history
    ensures d.Valid() && AtGate(d, cs0, issued, o, cycle, from)
    ensures cycle.newId in d.containers && !d.containers[cycle.newId].running
    ensures forall until :: CycleRun(old(d.history), d.history, cs0, issued, o, NameSet(cycle.dependents), from, until)
    ensures CycleState(cs0, issued, d.containers, o, NameSet(cycle.dependents), from) && o in d.containers
  {
    hide IsFullId, UniqueNames, ImagesKept, Resolve, ResolveImage, CycleRun, CycleState, Dependents, NameTaken,
      NamespacesOwned, WellNamed, OwnerSwapped;
    ghost var cs1, h0, deps := d.containers, d.history, NameSet(cycle.dependents);
    SwappedParts(cs0, issued, cs1, o, cycle.oldName, cycle.newId);
    d.ObserveExit(cycle.newId);
    ExitAtGate(d, cs1, cs0, issued, o, cycle, from);
    OwnerSwappedIsCycle(cs0, issued, d.containers, o, cycle.oldName, cycle.newId, deps, from);
    ShortRun(h0, d.history, d.containers, cs0, issued, o, deps, from);
  }

  lemma NoStates(h: seq<Containers>, cs0: Containers, issued: set<Id>, o: Id, deps: set<string>, from: Origin)
    requires o in cs0
    ensures forall until :: CycleRun(h, h, cs0, issued, o, deps, from, until)
  {
  }

  lemma ShortRun(h0: seq<Containers>, h1: seq<Containers>, s: Containers, cs0: Containers, issued: set<Id>, o: Id,
                 deps: set<string>, from: Origin)
    requires o in cs0 && (h1 == h0 || (h1 == h0 + [s] && CycleState(cs0, issued, s, o, deps, from) && o in s))
    ensures forall until :: CycleRun(h0, h1, cs0, issued, o, deps, from, until)
  {
  }

  /** The new container is in place: under the name of the original, with the
      whole of its configuration, and made from what its reference resolves to. */
  ghost predicate Renewed(a: World, b: World, c: Course) {
    && c.down && c.owner.Some? && c.owner.value in a.containers
    && c.tried in b.containers && c.tried !in a.issued
    && (var o := c.owner.value;
        Remade(b.containers[c.tried], a.containers[o].name, SpecOf(o, a.containers[o]).config, c.from.image,
               c.from.imageId))
    && MadeFrom(b.containers[c.tried], c.from)
    && c.from.imageId.Some? && c.from.imageId == ResolveImage(b.images, c.from.image)
  }

  /** Without a fault the replaced image and the archive are gone where nothing
      uses them. */
  ghost predicate TidiedUp(a: World, b: World, cleanup: Cleanup, c: Course)
    requires c.owner.Some? && c.owner.value in a.containers
  {
    b.faults == a.faults ==>
      && Cleaned(b.containers, b.images, cleanup, a.containers[c.owner.value].imageId)
      && ArchiveDropped(b.containers, c.owner.value)
  }

  /** Without a fault every sharer of the network ends up in that of `z`. */
  ghost predicate Rejoined(a: World, b: World, c: Course, z: Id)
    requires c.owner.Some? && c.owner.value in a.containers
  {
    b.faults == a.faults && Prepared(a.containers, a.images, a.selfHostname, c.owner.value) ==>
      Settled(a.containers, b.containers, c.owner.value, c.deps, z)
  }

  /** The original runs under its name again, the new container is gone, and the
      event says so. */
  ghost predicate PutBack(a: World, b: World, c: Course, event: RollbackEvent) {
    && c.owner.Some? && c.owner.value in a.containers
    && var o := c.owner.value;
       && o in b.containers && b.containers[o].name == a.containers[o].name && b.containers[o].running
       && c.tried !in b.containers
       && IsArchiveOf(event.restoredFrom, a.containers[o].name) && !NameTaken(b.containers, event.restoredFrom)
       && (forall k :: k in b.containers && k !in a.containers ==> b.containers[k].name in c.deps)
       && event.container == a.containers[o].name
       && event.oldImageRef == event.newImageRef == a.containers[o].config.image
  }

  /** The rollback itself gave up: the original is kept, and if there was no
      fault it already has its name back. */
  ghost predicate Stranded(a: World, b: World, c: Course) {
    && c.owner.Some? && c.owner.value in a.containers && c.owner.value in b.containers
    && (b.faults == a.faults ==>
          c.tried !in b.containers && b.containers[c.owner.value].name == a.containers[c.owner.value].name)
  }

  /** The outcome is the one the gate's verdict calls for. */
  ghost predicate HealthDecides(env: Health.Environment, cfg: Health.HealthConfig,
                                r: Result<RecreateOutcome, DockerError>, polls: nat) {
    match r
    case Success(Recreated(_, _)) => Health.HealthVerdict(env, cfg, Health.Healthy, polls)
    case Success(RolledBack(event)) => Health.HealthVerdict(env, cfg, VerdictOf(event.reason), polls)
    case Success(SkippedByHook(_)) => false
    case Failure(_) => Health.HealthVerdict(env, cfg, Health.Crashed, polls)
                       || Health.HealthVerdict(env, cfg, Health.Timeout, polls)
  }

  function VerdictOf(reason: RollbackReason): Health.HealthOutcome {
    match reason
    case HealthTimeout => Health.Timeout
    case CrashedBeforeHealthy => Health.Crashed
  }

  /** The state an update leaves, given its outcome. */
  ghost predicate Left(a: World, b: World, cleanup: Cleanup, r: Result<RecreateOutcome, DockerError>, c: Course) {
    match r
    case Success(Recreated(oldName, y)) =>
      && y == c.tried && Renewed(a, b, c) && b.containers[y].running
      && TidiedUp(a, b, cleanup, c) && Rejoined(a, b, c, y)
    case Success(RolledBack(event)) =>
      c.gate == |b.history| && PutBack(a, b, c, event) && Rejoined(a, b, c, c.owner.value)
    case Success(SkippedByHook(_)) => c.gate == |b.history| && !c.down && c.owner.Some?
    case Failure(_) =>
      && c.gate == |b.history| && (c.owner.Some? ==> c.owner.value in b.containers)
      && (c.polls > 0 ==> Stranded(a, b, c))
  }

  /** Everything a health-gated update promises, from the world `a` it finds to
      the world `b` it leaves. It polls or it ends before the gate; it keeps the
      original up to index `c.gate`; the gate alone decides the outcome; and only
      a fault or a hook can keep a clear update from its gate. */
  ghost predicate Updated(a: World, b: World, name: string, cfg: Health.HealthConfig, env: Health.Environment,
                          cleanup: Cleanup, hooks: Labels.LifecycleHooks, r: Result<RecreateOutcome, DockerError>,
                          c: Course) {
    && Keeps(a, b, name, c, c.gate)
    && (if c.polls == 0 then b.probes == a.probes && !(r.Success? && !r.value.SkippedByHook?)
        else Gated(a, b, c) && HealthDecides(env, cfg, r, c.polls))
    && Left(a, b, cleanup, r, c)
    && (r.Success? && r.value.SkippedByHook? ==> hooks.preUpdate.Some?)
    && ListedIfGated(a, b, c)
    && (b.faults == a.faults && hooks.preUpdate.None? && c.owner.Some? && c.owner.value in a.containers ==>
          ClearWay(a.containers, a.images, a.multiNetwork, c.owner.value) ==> c.polls > 0)
  }

  /** Without a fault an update that got to its gate has every sharer on its
      list. */
  ghost predicate ListedIfGated(a: World, b: World, c: Course) {
    b.faults == a.faults && c.polls > 0 && c.owner.Some? && c.owner.value in a.containers ==>
      AllListed(a, c.owner.value, c.deps)
  }

  /** The worlds and the course fit the arguments of the gate's two branches. */
  ghost predicate Underway(a: World, b: World, name: string, cycle: CycleResult, c: Course) {
    && Keeps(a, b, name, c, c.gate) && Gated(a, b, c) && c.gate == |b.history|
    && c.owner.Some? && c.owner.value in a.containers && c.tried == cycle.newId
    && c.deps == NameSet(cycle.dependents) && c.from.imageId.Some?
    && cycle.imageRef == c.from.image == a.containers[c.owner.value].config.image
    && cycle.oldImageId == a.containers[c.owner.value].imageId
    && IsArchiveOf(cycle.oldName, a.containers[c.owner.value].name)
    && ListedIfGated(a, b, c)
    && (b.faults == a.faults && Prepared(a.containers, a.images, a.selfHostname, c.owner.value) ==>
          Repairable(a.containers, b.images, c.owner.value, c.deps))
  }

  /** The polls of the health gate. */
  method AwaitHealth(d: Daemon, cycle: CycleResult, cfg: Health.HealthConfig, env: Health.Environment,
                     ghost step: nat, ghost cs0: Containers, ghost issued: set<Id>, ghost o: Id, ghost from: Origin)
    returns (outcome: Health.HealthOutcome, polls: nat)
    requires AtGate(d, cs0, issued, o, cycle, from) && Health.Advances(env, step)
    modifies d`probes
    ensures AtGate(d, cs0, issued, o, cycle, from)
    ensures polls > 0 && Health.HealthVerdict(env, cfg, outcome, polls)
    ensures Health.Looked(old(d.probes), d.probes, cycle.newId, polls, |d.history|)
  {
    hide IsFullId, WellNamed, NamespacesOwned, ImagesKept, TagsServed, Dependents, NameSet, IsArchiveOf, OwnerSwapped,
      Health.CeilDiv, Health.Advances;
    outcome, polls := Health.WaitForHealth(d, cycle.newId, env, cfg, step);
  }

  method AwaitExit(d: Daemon, cycle: CycleResult, timeout: nat, env: Health.Environment,
                   ghost step: nat, ghost cs0: Containers, ghost issued: set<Id>, ghost o: Id, ghost from: Origin)
    returns (outcome: Health.ExitOutcome, polls: nat)
    requires AtGate(d, cs0, issued, o, cycle, from) && Health.Advances(env, step)
    modifies d`probes
    ensures AtGate(d, cs0, issued, o, cycle, from)
    ensures polls > 0 && Health.ExitVerdict(env, timeout, outcome, polls)
    ensures Health.Looked(old(d.probes), d.probes, cycle.newId, polls, |d.history|)
  {
    hide IsFullId, WellNamed, NamespacesOwned, ImagesKept, TagsServed, Dependents, NameSet, IsArchiveOf, OwnerSwapped,
      Health.CeilDiv, Health.Advances;
    outcome, polls := Health.WaitForExit(d, cycle.newId, env, timeout, step);
  }

  /** What the polls leave of the facts about the cycle. */
  lemma Polled(d: Daemon, a: World, b1: World, name: string, cycle: CycleResult, c1: Course, c: Course)
    requires c1.down && c1.owner.Some? && c1.gate == |b1.history| && |a.history| < |b1.history|
    requires Keeps(a, b1, name, c1, c1.gate) && LastIs(b1.history, b1.containers)
    requires b1 == WorldOf(d).(probes := b1.probes) && b1.probes == a.probes
    requires AtGate(d, a.containers, a.issued, c1.owner.value, cycle, c1.from)
    requires d.containers[cycle.newId].running && c1.from.imageId.Some? && cycle.imageRef == c1.from.image
    requires c1.deps == NameSet(cycle.dependents)
    requires b1.faults == a.faults ==> AllListed(a, c1.owner.value, c1.deps)
    requires b1.faults == a.faults && Prepared(a.containers, a.images, a.selfHostname, c1.owner.value) ==>
               Repairable(a.containers, b1.images, c1.owner.value, c1.deps)
    requires c.polls > 0 && Health.Looked(a.probes, d.probes, cycle.newId, c.polls, |d.history|)
    requires c == c1.(tried := cycle.newId, polls := c.polls)
    ensures Underway(a, WorldOf(d), name, cycle, c)
  {
    hide Resolve, UniqueNames, Untouched, CycleRun, CycleState, AreDependents, ServedNow, WasDown, Repairable,
      Health.Looked, Daemon.Valid, WellNamed, NamespacesOwned, Dependents, NameSet, MadeFrom, IsArchiveOf;
    KeepsSame(a, b1, WorldOf(d), name, c1, c, c.gate);
    GateFacts(d, a.containers, a.issued, c.owner.value, cycle, c.from);
    assert LookedAt(a, WorldOf(d), c, |d.history|);
  }

  /** The health-gated update of the container `name` resolves to. */
  method RecreateWithHealth(d: Daemon, name: string, cfg: Health.HealthConfig, env: Health.Environment,
                            ghost step: nat, cleanup: Cleanup, hooks: Labels.LifecycleHooks)
    returns (r: Result<RecreateOutcome, DockerError>, ghost c: Course)
    requires d.Valid() && Health.Advances(env, step)
    modifies d
    ensures d.Valid() && Updated(old(WorldOf(d)), WorldOf(d), name, cfg, env, cleanup, hooks, r, c)
  {
    hide Daemon.Valid, Health.Advances, Health.HealthVerdict, Updated, Underway, Onwards, AtGate, Keeps, Renewed,
      PutBack, Rejoined, Stranded, NameSet, ClearWay, Prepared, Repairable, Settled, Cleaned, ArchiveDropped, Resolve,
      ResolveImage, CycleRun, CycleState, LastIs, MadeFrom;
    ghost var a := WorldOf(d);
    var begun, c1 := Begin(d, name, hooks);
    c := c1;
    ghost var b1 := WorldOf(d);
    if begun.Failure? {
      r := Failure(begun.error);
      EndsEarly(a, b1, name, cfg, env, cleanup, hooks, r, c);
      return;
    }
    if begun.value.Skipped? {
      r := Success(SkippedByHook(begun.value.reason));
      EndsEarly(a, b1, name, cfg, env, cleanup, hooks, r, c);
      return;
    }
    var cycle := begun.value.cycle;
    ghost var o := c.owner.value;
    var outcome, polls := AwaitHealth(d, cycle, cfg, env, step, a.containers, a.issued, o, c.from);
    c := c.(tried := cycle.newId, polls := polls);
    Polled(d, a, b1, name, cycle, c1, c);
    ghost var b2 := WorldOf(d);
    match outcome {
      case Healthy =>
        UpAndRunning(d, a, cycle, c);
        Adopt(d, cycle, cleanup, hooks.postUpdate, a.containers, a.issued, o, c.from);
        r := Success(Recreated(cycle.oldName, cycle.newId));
        GoesOn(a, b2, WorldOf(d), c, c.gate);
        Adopted(a, b2, WorldOf(d), name, cfg, env, cleanup, hooks, cycle, r, c);
      case _ =>
        r := GiveUp(d, name, cycle, outcome == Health.Crashed, a, c);
        ghost var c2 := c;
        c := c.(gate := |d.history|);
        KeepsSame(a, b1, b2, name, c1, c2, |d.history|);
        Retreated(a, b2, WorldOf(d), name, cfg, env, cleanup, hooks, cycle, outcome, r, c2, c);
    }
  }

  /** `b` goes on from `b1` with states of the same update; before index `until`
      they all have the original. */
  ghost predicate Onwards(a: World, b1: World, b: World, c: Course, until: nat) {
    && c.down && c.owner.Some? && c.owner.value in a.containers
    && CycleRun(b1.history, b.history, a.containers, a.issued, c.owner.value, c.deps, c.from, until)
    && CycleState(a.containers, a.issued, b.containers, c.owner.value, c.deps, c.from)
    && b.faults >= b1.faults && b1.issued <= b.issued
    && b.pulls == b1.pulls && b.probes == b1.probes && b.contentOf == b1.contentOf
  }

  lemma GoesOn(a: World, b1: World, b: World, c: Course, until: nat)
    requires c.down && c.owner.Some? && c.owner.value in a.containers
    requires CycleRun(b1.history, b.history, a.containers, a.issued, c.owner.value, c.deps, c.from, until)
    requires CycleState(a.containers, a.issued, b.containers, c.owner.value, c.deps, c.from)
    requires b.faults >= b1.faults && b1.issued <= b.issued
    requires b.pulls == b1.pulls && b.probes == b1.probes && b.contentOf == b1.contentOf
    ensures Onwards(a, b1, b, c, until)
  {
  }

  lemma Further(a: World, b1: World, b: World, c: Course, until: nat)
    requires Onwards(a, b1, b, c, until)
    ensures Continues(b1.history, b.history) && |b1.history| <= |b.history| && b.faults >= b1.faults
    ensures b.probes == b1.probes
  {
    hide CycleState;
  }

  /** What a container that passed its gate is. */
  lemma UpAndRunning(d: Daemon, a: World, cycle: CycleResult, c: Course)
    requires c.owner.Some? && c.down && AtGate(d, a.containers, a.issued, c.owner.value, cycle, c.from)
    requires c.tried == cycle.newId
    requires c.from.imageId.Some? && c.from.imageId == ResolveImage(d.images, c.from.image)
    ensures Renewed(a, WorldOf(d), c) && c.owner.value in a.containers
    ensures d.containers[cycle.newId].imageId == c.from.imageId
  {
    hide ResolveImage, Daemon.Valid, WellNamed, NamespacesOwned, Dependents, NameSet, IsArchiveOf;
  }

  /** The gate said no: the rollback, in terms of the update as a whole. */
  method GiveUp(d: Daemon, name: string, cycle: CycleResult, crashed: bool, ghost a: World, ghost c: Course)
    returns (r: Result<RecreateOutcome, DockerError>)
    requires c.owner.Some? && AtGate(d, a.containers, a.issued, c.owner.value, cycle, c.from)
    requires Underway(a, WorldOf(d), name, cycle, c)
    modifies d`containers, d`history, d`faults, d`issued, d`generation
    ensures d.Valid() && Onwards(a, old(WorldOf(d)), WorldOf(d), c, |d.history|)
    ensures c.owner.value in d.containers
    ensures match r
            case Success(RolledBack(event)) =>
              && PutBack(a, WorldOf(d), c, event) && Rejoined(a, WorldOf(d), c, c.owner.value)
              && event.reason == if crashed then CrashedBeforeHealthy else HealthTimeout
            case Success(_) => false
            case Failure(_) => Stranded(a, WorldOf(d), c)
  {
    hide Daemon.Valid, AtGate, NameSet, Prepared, Repairable, Settled, Resolve, CycleRun, CycleState, Keeps, Gated,
      NameTaken, IsArchiveOf, WellNamed;
    ghost var b, o := WorldOf(d), c.owner.value;
    GateFacts(d, a.containers, a.issued, o, cycle, c.from);
    var back := Retreat(d, cycle, crashed, a.containers, a.issued, o, c.from);
    UnderwayFaults(a, b, name, cycle, c);
    match back {
      case Success(event) =>
        OnlyStandInsNew(d, a.containers, a.issued, o, c.deps, c.from);
        r := Success(RolledBack(event));
      case Failure(e) =>
        r := Failure(e);
    }
  }

  lemma UnderwayFaults(a: World, b: World, name: string, cycle: CycleResult, c: Course)
    requires Underway(a, b, name, cycle, c)
    ensures b.faults >= a.faults && c.down
  {
    hide CycleRun, CycleState;
  }

  /** With the original back under its name, new containers are stand-ins. */
  lemma OnlyStandInsNew(d: Daemon, cs0: Containers, issued: set<Id>, o: Id, deps: set<string>, from: Origin)
    requires o in cs0 && CycleState(cs0, issued, d.containers, o, deps, from) && d.Valid()
    requires o in d.containers && d.containers[o].name == cs0[o].name
    ensures forall y :: y in d.containers && y !in cs0 ==> d.containers[y].name in deps
  {
    hide Accounted, Doubles, MadeFrom, IsFullId;
  }

  /** An update that never gets to its gate. */
  lemma EndsEarly(a: World, b: World, name: string, cfg: Health.HealthConfig, env: Health.Environment,
                  cleanup: Cleanup, hooks: Labels.LifecycleHooks, r: Result<RecreateOutcome, DockerError>, c: Course)
    requires Keeps(a, b, name, c, c.gate) && c.polls == 0 && c.gate == |b.history| && b.probes == a.probes
    requires c.owner.Some? ==> c.owner.value in b.containers
    requires r.Failure? || (r.value.SkippedByHook? && !c.down && hooks.preUpdate.Some? && c.owner.Some?)
    requires b.faults == a.faults && hooks.preUpdate.None? && c.owner.Some? && c.owner.value in a.containers ==>
               ClearWay(a.containers, a.images, a.multiNetwork, c.owner.value) ==> !r.Failure?
    ensures Updated(a, b, name, cfg, env, cleanup, hooks, r, c)
  {
    hide Keeps, Renewed, TidiedUp, Rejoined, PutBack, Stranded, Gated, HealthDecides, ClearWay;
  }

  lemma Adopted(a: World, b2: World, b: World, name: string, cfg: Health.HealthConfig, env: Health.Environment,
                cleanup: Cleanup, hooks: Labels.LifecycleHooks, cycle: CycleResult,
                r: Result<RecreateOutcome, DockerError>, c: Course)
    requires Underway(a, b2, name, cycle, c) && Health.HealthVerdict(env, cfg, Health.Healthy, c.polls)
    requires r == Success(Recreated(cycle.oldName, cycle.newId))
    requires Onwards(a, b2, b, c, c.gate) && Renewed(a, b2, c) && b2.containers[c.tried].running
    requires c.tried in b.containers && b.containers[c.tried] == b2.containers[c.tried]
    requires ResolveImage(b.images, c.from.image) == c.from.imageId
    requires b.faults == b2.faults ==>
               && Cleaned(b.containers, b.images, cleanup, cycle.oldImageId)
               && ArchiveDropped(b.containers, c.owner.value)
               && (Repairable(a.containers, b2.images, c.owner.value, c.deps) ==>
                     Settled(a.containers, b.containers, c.owner.value, c.deps, c.tried))
    ensures Updated(a, b, name, cfg, env, cleanup, hooks, r, c)
  {
    hide Health.HealthVerdict, MadeFrom, ResolveImage, Cleaned, ArchiveDropped, Repairable, Settled, Prepared, ClearWay,
      Gated, NameSet, IsArchiveOf, Keeps, Onwards;
    UnderwayFaults(a, b2, name, cycle, c);
    KeepsOn(a, b2, b, name, c, c.gate);
    Further(a, b2, b, c, c.gate);
    GatedOn(a, b2, b, c, c);
  }

  lemma Retreated(a: World, b2: World, b: World, name: string, cfg: Health.HealthConfig, env: Health.Environment,
                  cleanup: Cleanup, hooks: Labels.LifecycleHooks, cycle: CycleResult, outcome: Health.HealthOutcome,
                  r: Result<RecreateOutcome, DockerError>, c1: Course, c: Course)
    requires Underway(a, b2, name, cycle, c1) && Onwards(a, b2, b, c1, |b.history|)
    requires c == c1.(gate := |b.history|) && c.owner.value in b.containers
    requires Keeps(a, b2, name, c1, |b.history|)
    requires Health.HealthVerdict(env, cfg, outcome, c.polls) && outcome != Health.Healthy
    requires match r
             case Success(RolledBack(event)) =>
               PutBack(a, b, c1, event) && VerdictOf(event.reason) == outcome && Rejoined(a, b, c1, c.owner.value)
             case Success(_) => false
             case Failure(_) => Stranded(a, b, c1)
    ensures Updated(a, b, name, cfg, env, cleanup, hooks, r, c)
  {
    hide Health.HealthVerdict, ClearWay, Gated, NameSet, NameTaken, IsArchiveOf, Keeps, Onwards, Repairable, Prepared,
      Settled, AllListed;
    UnderwayFaults(a, b2, name, cycle, c1);
    KeepsOn(a, b2, b, name, c1, |b.history|);
    KeepsSame(a, b, b, name, c1, c, |b.history|);
    Further(a, b2, b, c1, |b.history|);
    GatedOn(a, b2, b, c1, c);
  }

  /** The network a faultless update leaves its sharers in. */
  function NewOwner(outcome: RecreateOutcome, o: Id): Id {
    match outcome
    case Recreated(_, newId) => newId
    case _ => o
  }

  /** `x` runs in the network of `o`, or is to be repaired with it. */
  ghost predicate Shares(a: World, x: Id, o: Id)
    requires x in a.containers && o in a.containers
  {
    || (x != o && a.containers[x].running && a.containers[x].ns.owner == o)
    || Depends(a.containers, a.selfHostname, x, o)
  }

  /** Fault-free completion: whether the update lands or is rolled back, the
      initial names are left, and everyone who ran in the network of the original
      runs, or has a stand-in that runs, in that of the container under its name. */
  lemma EverySharerRejoins(a: World, b: World, name: string, cfg: Health.HealthConfig, env: Health.Environment,
                           cleanup: Cleanup, hooks: Labels.LifecycleHooks, r: Result<RecreateOutcome, DockerError>,
                           c: Course, o: Id)
    requires Updated(a, b, name, cfg, env, cleanup, hooks, r, c) && b.faults == a.faults
    requires c.owner == Some(o) && o in a.containers && Prepared(a.containers, a.images, a.selfHostname, o)
    requires r.Success? && !r.value.SkippedByHook?
    ensures NamesOf(b.containers) == NamesOf(a.containers)
    ensures var z := NewOwner(r.value, o);
            && z in b.containers && b.containers[z].running && b.containers[z].name == a.containers[o].name
            && forall x :: x in a.containers && Shares(a, x, o) ==> Reattached(a.containers, b.containers, x, z)
  {
    hide Keeps, Gated, Renewed, TidiedUp, PutBack, Health.HealthVerdict, ClearWay, Depends, RepairableOne, Reattached,
      NamesOf;
    forall x | x in a.containers && Shares(a, x, o)
      ensures Reattached(a.containers, b.containers, x, NewOwner(r.value, o))
    {
      assert a.containers[x].name in c.deps;
    }
  }

  // ----- the one-shot -----

  /** The exit code was zero: as after the health gate, without the hook. */
  method AdoptOneShot(d: Daemon, cycle: CycleResult, cleanup: Cleanup, ghost cs0: Containers, ghost issued: set<Id>,
                      ghost o: Id, ghost from: Origin)
    requires AtGate(d, cs0, issued, o, cycle, from)
    modifies d`containers, d`images, d`issued, d`generation, d`history, d`faults
    ensures d.Valid() && d.faults >= old(d.faults) && old(d.issued) <= d.issued
    ensures CycleRun(old(d.history), d.history, cs0, issued, o, NameSet(cycle.dependents), from, |old(d.history)|)
    ensures CycleState(cs0, issued, d.containers, o, NameSet(cycle.dependents), from)
    ensures cycle.newId in d.containers && d.containers[cycle.newId] == old(d.containers)[cycle.newId]
    ensures forall image ::
              old(d.containers)[cycle.newId].imageId.Some?
              && ResolveImage(old(d.images), image) == old(d.containers)[cycle.newId].imageId ==>
              ResolveImage(d.images, image) == old(d.containers)[cycle.newId].imageId
    ensures d.faults == old(d.faults) ==>
              Cleaned(d.containers, d.images, cleanup, cycle.oldImageId) && ArchiveDropped(d.containers, o)
  {
    hide AtGate, CycleRun, CycleState, Settled, Repairable, Daemon.Valid, ResolveImage, Cleaned, ArchiveDropped;
    HandOver(d, cycle, cs0, issued, o, from);
    RunCleanup(d, cleanup, cycle.oldImageId);
  }

  /** The outcome is the one the exit code calls for. */
  ghost predicate ExitDecides(env: Health.Environment, timeout: nat, r: Result<OneShotOutcome, DockerError>,
                              polls: nat) {
    match r
    case Success(OneShotCompleted) => Health.ExitVerdict(env, timeout, Health.Finished(0), polls)
    case Success(OneShotFailed(code)) => code != 0 && Health.ExitVerdict(env, timeout, Health.Finished(code), polls)
    case Success(OneShotTimedOut) => Health.ExitVerdict(env, timeout, Health.TimedOut, polls)
    case Success(OneShotSkipped(_)) => false
    case Failure(_) => false
  }

  /** The original is kept under an archive name. */
  ghost predicate KeptAside(a: World, b: World, c: Course) {
    && c.owner.Some? && c.owner.value in a.containers && c.owner.value in b.containers
    && IsArchiveOf(b.containers[c.owner.value].name, a.containers[c.owner.value].name)
  }

  /** The state a one-shot leaves: the new container in every case that got to
      the gate, beside the archive unless the command has exited zero. */
  ghost predicate LeftOnce(a: World, b: World, cleanup: Cleanup, r: Result<OneShotOutcome, DockerError>, c: Course) {
    match r
    case Success(OneShotCompleted) =>
      Renewed(a, b, c) && !b.containers[c.tried].running && TidiedUp(a, b, cleanup, c)
    case Success(OneShotFailed(_)) =>
      c.gate == |b.history| && Renewed(a, b, c) && !b.containers[c.tried].running && KeptAside(a, b, c)
    case Success(_) => c.gate == |b.history| && Renewed(a, b, c) && KeptAside(a, b, c)
    case Failure(_) => c.gate == |b.history| && (c.owner.Some? ==> c.owner.value in b.containers)
  }

  /** Everything a one-shot re-run promises. Hooks are never run, so they cannot
      defer it; a failure is not rolled back. */
  ghost predicate RanOnce(a: World, b: World, name: string, timeout: nat, env: Health.Environment, cleanup: Cleanup,
                          r: Result<OneShotOutcome, DockerError>, c: Course) {
    && Keeps(a, b, name, c, c.gate)
    && (if c.polls == 0 then b.probes == a.probes && r.Failure?
        else Gated(a, b, c) && ExitDecides(env, timeout, r, c.polls))
    && LeftOnce(a, b, cleanup, r, c) && ListedIfGated(a, b, c)
    && (b.faults == a.faults && c.owner.Some? && c.owner.value in a.containers ==>
          ClearWay(a.containers, a.images, a.multiNetwork, c.owner.value) ==> c.polls > 0)
  }

  /** The one-shot re-run: the same cycle, then a wait for the exit code. */
  method RecreateOneShot(d: Daemon, name: string, timeout: nat, env: Health.Environment, ghost step: nat,
                         cleanup: Cleanup)
    returns (r: Result<OneShotOutcome, DockerError>, ghost c: Course)
    requires d.Valid() && Health.Advances(env, step)
    modifies d
    ensures d.Valid() && RanOnce(old(WorldOf(d)), WorldOf(d), name, timeout, env, cleanup, r, c)
  {
    hide Daemon.Valid, Health.Advances, Health.ExitVerdict, RanOnce, Underway, AtGate, Keeps, Renewed, KeptAside,
      NameSet, ClearWay, Prepared, Repairable, Cleaned, ArchiveDropped, Resolve, ResolveImage, CycleRun, CycleState,
      LastIs, MadeFrom;
    ghost var a := WorldOf(d);
    var begun, c1 := Begin(d, name, Labels.NO_HOOKS);
    c := c1;
    ghost var b1 := WorldOf(d);
    if begun.Failure? {
      r := Failure(begun.error);
      OnceEndsEarly(a, b1, name, timeout, env, cleanup, r, c);
      return;
    }
    var cycle := begun.value.cycle;
    ghost var o := c.owner.value;
    var outcome, polls := AwaitExit(d, cycle, timeout, env, step, a.containers, a.issued, o, c.from);
    c := c.(tried := cycle.newId, polls := polls);
    Polled(d, a, b1, name, cycle, c1, c);
    ghost var c2 := c;
    match outcome {
      case TimedOut =>
        r := Success(OneShotTimedOut);
        NotExited(d, a, name, timeout, env, cleanup, cycle, r, c);
      case Finished(code) =>
        c := Exit(d, name, cycle, a, b1, c1, c2);
        if code == 0 {
          r := Success(OneShotCompleted);
          Complete(d, name, cycle, cleanup, timeout, env, a, c);
        } else {
          r := Success(OneShotFailed(code));
          NotExited(d, a, name, timeout, env, cleanup, cycle, r, c);
        }
    }
  }

  lemma OnceEndsEarly(a: World, b: World, name: string, timeout: nat, env: Health.Environment, cleanup: Cleanup,
                      r: Result<OneShotOutcome, DockerError>, c: Course)
    requires Keeps(a, b, name, c, c.gate) && c.polls == 0 && c.gate == |b.history| && b.probes == a.probes
    requires (c.owner.Some? ==> c.owner.value in b.containers) && r.Failure?
    requires !(b.faults == a.faults && c.owner.Some? && c.owner.value in a.containers
               && ClearWay(a.containers, a.images, a.multiNetwork, c.owner.value))
    ensures RanOnce(a, b, name, timeout, env, cleanup, r, c)
  {
    hide Keeps, Renewed, TidiedUp, KeptAside, Gated, ExitDecides, ClearWay;
  }

  /** The situation at the gate once the exit has been seen. */
  method Exit(d: Daemon, name: string, cycle: CycleResult, ghost a: World, ghost b1: World, ghost c1: Course,
              ghost c2: Course)
    returns (ghost c: Course)
    requires c2.owner.Some? && AtGate(d, a.containers, a.issued, c2.owner.value, cycle, c2.from)
    requires Underway(a, WorldOf(d), name, cycle, c2) && c2.gate == |d.history|
    requires c2.from.imageId == ResolveImage(d.images, c2.from.image)
    requires forall until :: Keeps(a, b1, name, c1, until)
    requires b1 == WorldOf(d).(probes := b1.probes) && c2 == c1.(tried := c2.tried, polls := c2.polls)
    modifies d`containers, d`history
    ensures c == c2.(gate := |d.history|)
    ensures AtGate(d, a.containers, a.issued, c.owner.value, cycle, c.from)
    ensures Underway(a, WorldOf(d), name, cycle, c)
    ensures cycle.newId in d.containers && !d.containers[cycle.newId].running
  {
    hide Daemon.Valid, AtGate, Keeps, Gated, NameSet, Prepared, Repairable, Resolve, ResolveImage, CycleRun, CycleState,
      IsArchiveOf, MadeFrom;
    ghost var b2 := WorldOf(d);
    SeeExit(d, cycle, a.containers, a.issued, c2.owner.value, c2.from);
    c := c2.(gate := |d.history|);
    ghost var b := WorldOf(d);
    UnderwayFaults(a, b2, name, cycle, c2);
    GoesOn(a, b2, b, c2, c.gate);
    KeepsSame(a, b1, b2, name, c1, c2, c.gate);
    KeepsOn(a, b2, b, name, c2, c.gate);
    KeepsSame(a, b, b, name, c2, c, c.gate);
    Further(a, b2, b, c2, c.gate);
    GatedOn(a, b2, b, c2, c);
  }

  /** The command has not exited zero: the new container and the archive stay. */
  lemma NotExited(d: Daemon, a: World, name: string, timeout: nat, env: Health.Environment, cleanup: Cleanup,
                  cycle: CycleResult, r: Result<OneShotOutcome, DockerError>, c: Course)
    requires c.owner.Some? && AtGate(d, a.containers, a.issued, c.owner.value, cycle, c.from)
    requires Underway(a, WorldOf(d), name, cycle, c) && c.from.imageId == ResolveImage(d.images, c.from.image)
    requires ExitDecides(env, timeout, r, c.polls) && r.Success? && r.value != OneShotCompleted
    requires r.value.OneShotFailed? ==> cycle.newId in d.containers && !d.containers[cycle.newId].running
    ensures d.Valid() && RanOnce(a, WorldOf(d), name, timeout, env, cleanup, r, c)
  {
    hide Daemon.Valid, AtGate, Keeps, Gated, NameSet, Prepared, Repairable, Resolve, ResolveImage, IsArchiveOf,
      MadeFrom, ClearWay, Health.ExitVerdict;
    ghost var b := WorldOf(d);
    UnderwayFaults(a, b, name, cycle, c);
    UpAndRunning(d, a, cycle, c);
    GateFacts(d, a.containers, a.issued, c.owner.value, cycle, c.from);
    GatedOn(a, b, b, c, c);
  }

  /** The command has exited zero. */
  method Complete(d: Daemon, name: string, cycle: CycleResult, cleanup: Cleanup, ghost timeout: nat,
                  ghost env: Health.Environment, ghost a: World, ghost c: Course)
    requires c.owner.Some? && AtGate(d, a.containers, a.issued, c.owner.value, cycle, c.from)
    requires Underway(a, WorldOf(d), name, cycle, c) && c.from.imageId == ResolveImage(d.images, c.from.image)
    requires Health.ExitVerdict(env, timeout, Health.Finished(0), c.polls)
    requires cycle.newId in d.containers && !d.containers[cycle.newId].running
    modifies d`containers, d`images, d`issued, d`generation, d`history, d`faults
    ensures d.Valid() && RanOnce(a, WorldOf(d), name, timeout, env, cleanup, Success(OneShotCompleted), c)
  {
    hide Daemon.Valid, AtGate, Keeps, Gated, NameSet, Prepared, Repairable, Resolve, ResolveImage, IsArchiveOf,
      MadeFrom, ClearWay, Health.ExitVerdict, Cleaned, ArchiveDropped, CycleRun, CycleState;
    ghost var b2 := WorldOf(d);
    UnderwayFaults(a, b2, name, cycle, c);
    UpAndRunning(d, a, cycle, c);
    AdoptOneShot(d, cycle, cleanup, a.containers, a.issued, c.owner.value, c.from);
    ghost var b := WorldOf(d);
    GoesOn(a, b2, b, c, c.gate);
    KeepsOn(a, b2, b, name, c, c.gate);
    Further(a, b2, b, c, c.gate);
    GatedOn(a, b2, b, c, c);
  }
}
