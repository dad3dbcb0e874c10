/** The repair of containers that shared a replaced container's network
    namespace (`reattach_dependents` and its parts in src/docker/recreate.rs). */
module Reattach {
  import opened Wrappers
  import opened Rename
  import opened Docker
  import opened Swap
  import Probe

  // ----- the spec edits -----

  /** `newOwnerId` is the replacement, or `None` on the rollback path, where the
      original container and so every reference to it is back. */
  function RewriteOwnerReference(config: Config, ownerName: string, newOwnerId: Option<Id>): Config {
    if newOwnerId.None? || !SharesNamespace(config) || ModeReference(config).value == ownerName then config
    else config.(networkMode := Some(CONTAINER_PREFIX + newOwnerId.value))
  }

  function StripSharedNamespaceConflicts(config: Config): Config {
    if SharesNamespace(config)
    then config.(hostname := None, domainname := None, exposedPorts := None, endpoints := None)
    else config
  }

  function RepairConfig(config: Config, ownerName: string, newOwnerId: Option<Id>): Config {
    StripSharedNamespaceConflicts(RewriteOwnerReference(config, ownerName, newOwnerId))
  }

  /** The two edits drop what the daemon would refuse, keep a namespace sharer a
      sharer and touch no other field; a container with a network of its own is
      left exactly as it is. */
  lemma RepairConfigIsCreatable(config: Config, ownerName: string, newOwnerId: Option<Id>)
    ensures
      var c := RepairConfig(config, ownerName, newOwnerId);
      && !Conflicting(c)
      && SharesNamespace(c) == SharesNamespace(config)
      && SameBody(config, c)
      && c.image == config.image
      && (SharesNamespace(c) ==>
            c.hostname.None? && c.domainname.None? && c.exposedPorts.None? && c.endpoints.None?)
      && (!SharesNamespace(config) ==> c == config)
      && (SharesNamespace(config) ==>
            ModeReference(c) ==
            if newOwnerId.None? || ModeReference(config).value == ownerName then ModeReference(config) else newOwnerId)
  {
    if newOwnerId.Some? { ReferenceOfPrefixed(newOwnerId.value); }
  }

  /** An inspect hides at most the hostname the daemon itself made up. */
  lemma SpecKeeps(id: Id, c: Container)
    ensures
      var spec := SpecOf(id, c);
      && SameBody(c.config, spec.config)
      && SharesNamespace(spec.config) == SharesNamespace(c.config)
      && ModeReference(spec.config) == ModeReference(c.config)
  {
  }

  /** Two configurations that differ in image and network settings only. */
  ghost predicate SameBody(a: Config, b: Config) { a.labels == b.labels && a.rest == b.rest }

  // ----- which image a repair uses -----

  /** What to create the dependent from, and whether that pins it to its id. */
  datatype RepairImage = RepairImage(image: string, pinned: bool)

  function RepairImageFor(spec: Spec, lookup: Result<Option<ImageId>, DockerError>): RepairImage {
    if spec.imageId.None? || Probe.IsPinned(spec.imageRef) then RepairImage(spec.imageRef, false)
    else if lookup.Success? && lookup.value.Some? && !Probe.BehindTag(spec.imageId, lookup.value)
    then RepairImage(spec.imageRef, false)
    else RepairImage(spec.imageId.value, true)
  }

  /** A lookup that does not lie: it may fail or not know. */
  ghost predicate Truthful(store: ImageStore, image: string, lookup: Result<Option<ImageId>, DockerError>) {
    lookup.Success? && lookup.value.Some? ==> lookup.value == ResolveImage(store, image)
  }

  /** Whatever the tag points to by now and however the lookup ends, the repair
      is created from the bits the dependent runs; and it gives up the
      dependent's own reference exactly when that reference is a tag which the
      lookup does not show to name those bits. */
  lemma RepairIsNoUpgrade(store: ImageStore, id: Id, c: Container, lookup: Result<Option<ImageId>, DockerError>)
    requires ImageKept(store, c) && c.imageId.Some?
    requires Truthful(store, c.config.image, lookup)
    ensures
      var r := RepairImageFor(SpecOf(id, c), lookup);
      && ResolveImage(store, r.image) == c.imageId
      && (r.pinned <==> !Probe.IsPinned(c.config.image) && lookup != Success(c.imageId))
      && (r.pinned ==> Probe.IsPinned(r.image))
      && (!r.pinned ==> r.image == c.config.image)
  {
  }

  // ----- states on the way -----

  /** Made from the bits of `was`: by the same reference or by the image id. */
  ghost predicate SameBits(was: Container, c: Container) {
    && c.config.labels == was.config.labels
    && (c.config.image == was.config.image || Probe.IsPinned(c.config.image))
    && (was.imageId.Some? ==> c.imageId == was.imageId)
  }

  /** Some container of `cs0` had this name and these bits. */
  ghost predicate Doubles(cs0: Containers, c: Container) {
    exists x :: x in cs0 && cs0[x].name == c.name && SameBits(cs0[x], c)
  }

  /** Whatever is made from `from` has the bits of `was`. */
  ghost predicate Repeats(was: Container, from: Origin) {
    && from.labels == was.config.labels
    && (from.image == was.config.image || Probe.IsPinned(from.image))
    && (was.imageId.Some? ==> from.imageId == was.imageId)
  }

  /** A new container that stands in for `was`. */
  ghost predicate StandsInFor(was: Container, c: Container) {
    && c.name == was.name
    && c.running
    && SameBits(was, c)
    && SharesNamespace(c.config) == SharesNamespace(was.config)
    && !Conflicting(c.config)
    && SameBody(was.config, c.config)
  }

  ghost predicate Accounted(cs0: Containers, issued: set<Id>, s: Containers, x: Id)
    requires x in cs0
  {
    if x in s then Parkable(cs0[x], s[x])
    else exists y :: y in s && y !in issued && StandsInFor(cs0[x], s[y])
  }

  /** A state on the way of repairing the containers called `names`: each of
      them is still there or a running stand-in is, and nobody else changed. */
  ghost predicate RepairState(cs0: Containers, issued: set<Id>, s: Containers, names: set<string>) {
    && (forall x :: x in cs0 && cs0[x].name !in names ==> x in s && s[x] == cs0[x])
    && (forall x :: x in cs0 && cs0[x].name in names ==> Accounted(cs0, issued, s, x))
    && (forall y :: y in s && y !in cs0 ==> y !in issued && s[y].name in names && Doubles(cs0, s[y]))
  }

  ghost predicate RepairRun(h0: seq<Containers>, h: seq<Containers>, cs0: Containers, issued: set<Id>,
                            names: set<string>) {
    Continues(h0, h) && forall i :: |h0| <= i < |h| ==> RepairState(cs0, issued, h[i], names)
  }

  lemma RepairRunStep(h0: seq<Containers>, h: seq<Containers>, s: Containers, cs0: Containers, issued: set<Id>,
                      names: set<string>)
    requires RepairRun(h0, h, cs0, issued, names) && RepairState(cs0, issued, s, names)
    ensures RepairRun(h0, h + [s], cs0, issued, names)
  {
  }

  lemma SwapIsRepair(cs0: Containers, issued: set<Id>, s: Containers, x: Id, from: Origin)
    requires WellNamed(cs0, issued) && x in cs0 && SwapState(cs0, issued, s, x, from) && Repeats(cs0[x], from)
    ensures RepairState(cs0, issued, s, {cs0[x].name})
  {
  }

  lemma SwapRunIsRepairRun(h0: seq<Containers>, h: seq<Containers>, cs0: Containers, issued: set<Id>, x: Id,
                           from: Origin)
    requires WellNamed(cs0, issued) && x in cs0 && SwapRun(h0, h, cs0, issued, x, from) && Repeats(cs0[x], from)
    ensures RepairRun(h0, h, cs0, issued, {cs0[x].name})
  {
    forall i | |h0| <= i < |h|
      ensures RepairState(cs0, issued, h[i], {cs0[x].name})
    {
      SwapIsRepair(cs0, issued, h[i], x, from);
    }
  }

  /** Taking the archive away once the stand-in runs. */
  lemma ReplacedIsRepair(cs0: Containers, issued: set<Id>, s: Containers, x: Id, archive: string, y: Id)
    requires WellNamed(cs0, issued) && Swapped(cs0, s, x, archive, y) && y !in issued
    requires StandsInFor(cs0[x], s[y])
    ensures RepairState(cs0, issued, s - {x}, {cs0[x].name})
  {
    var t := s - {x};
    assert y in t && StandsInFor(cs0[x], t[y]);
    assert Accounted(cs0, issued, t, x);
  }

  // ----- one dependent -----

  /** With no faults the repair of `x` next to its owner `z` succeeds: there is
      room for its archive, its image is known and its reference means `z`. */
  ghost predicate Ready(cs: Containers, store: ImageStore, x: Id, z: Id, ownerName: string, newOwnerId: Option<Id>) {
    && x in cs && z in cs && x != z
    && cs[z].running && cs[z].name == ownerName
    && SharesNamespace(cs[x].config)
    && (newOwnerId.None? ==> Firm(cs, ModeReference(cs[x].config).value, z))
    && (newOwnerId.Some? ==> newOwnerId.value == z)
    && (forall ts: int :: ArchiveRoom(cs, cs[x].name, ts))
    && (cs[x].imageId.Some? || ResolveImage(store, cs[x].config.image).Some?)
  }

  /** `x` gave way to a running `y` of the same name in the namespace of `z`. */
  ghost predicate Healed(cs: Containers, s: Containers, x: Id, y: Id, z: Id) {
    && x in cs && y !in cs
    && s.Keys == cs.Keys - {x} + {y}
    && OthersKept(cs, s, x)
    && StandsInFor(cs[x], s[y])
    && JoinedTo(cs, s, y, z)
  }

  lemma RepairJoins(cs: Containers, issued: set<Id>, store: ImageStore, x: Id, z: Id, ownerName: string,
                    newOwnerId: Option<Id>, config: Config)
    requires WellNamed(cs, issued) && Ready(cs, store, x, z, ownerName, newOwnerId)
    requires ModeReference(config) == ModeReference(cs[x].config)
    ensures Joins(cs, cs[x].name, RepairConfig(config, ownerName, newOwnerId), z)
  {
    RepairConfigIsCreatable(config, ownerName, newOwnerId);
    ByName(cs, issued, z);
    ByName(cs, issued, x);
    ById(cs, issued, z);
  }

  method FindRepairImage(d: Daemon, spec: Spec, ghost id: Id, ghost c: Container) returns (r: RepairImage)
    requires spec == SpecOf(id, c) && ImageKept(d.images, c)
    modifies d`faults
    ensures d.faults >= old(d.faults)
    ensures exists lookup :: Truthful(d.images, c.config.image, lookup) && r == RepairImageFor(spec, lookup)
    ensures c.imageId.Some? ==> ResolveImage(d.images, r.image) == c.imageId
    ensures c.imageId.None? ==> r.image == c.config.image
    ensures r.image == c.config.image || Probe.IsPinned(r.image)
  {
    var lookup: Result<Option<ImageId>, DockerError> := Success(None);
    if spec.imageId.Some? && !Probe.IsPinned(spec.imageRef) {
      lookup := d.LocalImageId(spec.imageRef);
    }
    assert Truthful(d.images, c.config.image, lookup);
    r := RepairImageFor(spec, lookup);
    if c.imageId.Some? { RepairIsNoUpgrade(d.images, id, c, lookup); }
  }

  method RestoreAfterFailedReattach(d: Daemon, dependent: string, archive: string, ghost cs0: Containers,
                                    ghost issued: set<Id>, ghost x: Id, ghost from: Origin)
    requires d.Valid() && WellNamed(cs0, issued) && x in cs0 && cs0[x].name == dependent
    requires SwapState(cs0, issued, d.containers, x, from) && Repeats(cs0[x], from)
    requires d.containers[x].name == archive
    modifies d`containers, d`history, d`faults, d`generation
    ensures d.Valid() && d.faults >= old(d.faults)
    ensures RepairRun(old(d.history), d.history, cs0, issued, {dependent})
    ensures RepairState(cs0, issued, d.containers, {dependent})
    // when the name is free it gets it back, and runs if it can
    ensures d.faults == old(d.faults) && !NameTaken(old(d.containers), dependent) ==>
              && x in d.containers && d.containers[x].name == dependent
              && (d.containers[x].running || !d.Startable(x))
    ensures NameTaken(old(d.containers), dependent) ==> NameTaken(d.containers, dependent)
  {
    hide IsFullId, WellNamed, UniqueNames, NamespacesOwned, ImagesKept, Resolve, ContainerReference, Probe.IsPinned,
      ResolveImage, RepairState, Repeats;
    ghost var h0 := d.history;
    ByName(d.containers, d.issued, x);
    ghost var before := d.containers;
    ByName(cs0, issued, x);
    var renamed := d.RenameTo(archive, dependent);
    RenamedBack(cs0, issued, before, d.containers, x, from);
    SwapIsRepair(cs0, issued, d.containers, x, from);
    RepairRunStep(h0, h0, d.containers, cs0, issued, {dependent});
    if renamed.Failure? {
      return;
    }
    ghost var named, h := d.containers, d.history;
    ByName(named, d.issued, x);
    var started := d.Start(dependent);
    StartedBack(cs0, issued, named, d.containers, x, from);
    SwapIsRepair(cs0, issued, d.containers, x, from);
    RepairRunStep(h0, h, d.containers, cs0, issued, {dependent});
  }

  lemma RenamedBack(cs0: Containers, issued: set<Id>, before: Containers, s: Containers, x: Id, from: Origin)
    requires x in cs0 && SwapState(cs0, issued, before, x, from)
    requires s == before || s == WithName(before, x, cs0[x].name)
    ensures SwapState(cs0, issued, s, x, from)
  {
  }

  lemma StartedBack(cs0: Containers, issued: set<Id>, before: Containers, s: Containers, x: Id, from: Origin)
    requires x in cs0 && SwapState(cs0, issued, before, x, from)
    requires s == before || exists ns :: s == before[x := before[x].(running := true, ns := ns)]
    ensures SwapState(cs0, issued, s, x, from)
  {
  }

  /** The last step of a repair: the stand-in runs, the archive goes. */
  method DropArchive(d: Daemon, archive: string, ghost cs0: Containers, ghost issued: set<Id>, ghost x: Id,
                     ghost y: Id, ghost z: Id)
    requires d.Valid() && WellNamed(cs0, issued) && y !in issued
    requires Swapped(cs0, d.containers, x, archive, y) && StandsInFor(cs0[x], d.containers[y])
    requires RepairState(cs0, issued, d.containers, {cs0[x].name})
    modifies d`containers, d`history, d`faults
    ensures d.Valid() && d.faults >= old(d.faults)
    ensures RepairRun(old(d.history), d.history, cs0, issued, {cs0[x].name})
    ensures RepairState(cs0, issued, d.containers, {cs0[x].name})
    ensures d.faults == old(d.faults) && SharesNamespace(cs0[x].config) && z != x
            && JoinedTo(cs0, old(d.containers), y, z) ==>
              Healed(cs0, d.containers, x, y, z)
  {
    hide IsFullId, WellNamed, UniqueNames, NamespacesOwned, ImagesKept, Resolve, ContainerReference, StandsInFor,
      RepairState, RepairRun, Healed, JoinedTo, OthersKept;
    ghost var swapped, h0 := d.containers, d.history;
    UntouchedIsRepair(cs0, issued, {cs0[x].name});
    ByName(swapped, d.issued, x);
    ReplacedIsRepair(cs0, issued, swapped, x, archive, y);
    var removed := d.Remove(archive, false);
    RepairRunStep(h0, h0, d.containers, cs0, issued, {cs0[x].name});
    if SharesNamespace(cs0[x].config) && z != x && JoinedTo(cs0, swapped, y, z) {
      NobodyHolds(swapped, d.issued, x, cs0, archive, y);
      HealedBy(cs0, swapped, issued, d.issued, x, archive, y, z);
    }
  }

  /** The first steps of a repair: inspect the dependent, edit its spec, choose
      its image. */
  method PrepareRepair(d: Daemon, ownerName: string, newOwnerId: Option<Id>, dependent: string, ghost x: Id,
                       ghost z: Id)
    returns (r: Result<(Config, string), DockerError>)
    requires d.Valid() && x in d.containers && d.containers[x].name == dependent
    modifies d`faults
    ensures d.faults >= old(d.faults)
    ensures r.Failure? ==> d.faults > old(d.faults)
    ensures r.Success? ==>
              && Repeats(d.containers[x], OriginOf(d.images, r.value.0, r.value.1))
              && r.value.0 == RepairConfig(SpecOf(x, d.containers[x]).config, ownerName, newOwnerId)
              && (d.containers[x].imageId.Some? ==> ResolveImage(d.images, r.value.1) == d.containers[x].imageId)
              && (d.containers[x].imageId.None? ==> r.value.1 == d.containers[x].config.image)
    ensures r.Success? && Ready(d.containers, d.images, x, z, ownerName, newOwnerId) ==>
              && x != z && SharesNamespace(d.containers[x].config)
              && Joins(d.containers, dependent, r.value.0, z)
              && Unobstructed(d, x, r.value.0, r.value.1, z)
  {
    hide IsFullId, WellNamed, UniqueNames, NamespacesOwned, Resolve, ContainerReference, RepairConfig, ImagesKept,
      ImageKept, ResolveImage, Ready, Unobstructed, Joins, SharesNamespace;
    ByName(d.containers, d.issued, x);
    var inspected := d.Inspect(dependent);
    if inspected.Failure? {
      return Failure(inspected.error);
    }
    var spec := inspected.value;
    SpecKeeps(x, d.containers[x]);
    ImageIsKept(d.containers, d.images, x);
    var repair := FindRepairImage(d, spec, x, d.containers[x]);
    RepairRepeats(d.images, d.containers[x], spec.config, ownerName, newOwnerId, repair.image);
    if Ready(d.containers, d.images, x, z, ownerName, newOwnerId) {
      ReadyUnobstructed(d, x, z, ownerName, newOwnerId, spec.config, repair.image);
    }
    r := Success((RepairConfig(spec.config, ownerName, newOwnerId), repair.image));
  }

  lemma RepairRepeats(store: ImageStore, was: Container, config: Config, ownerName: string, newOwnerId: Option<Id>,
                      image: string)
    requires SameBody(was.config, config)
    requires image == was.config.image || Probe.IsPinned(image)
    requires was.imageId.Some? ==> ResolveImage(store, image) == was.imageId
    ensures Repeats(was, OriginOf(store, RepairConfig(config, ownerName, newOwnerId), image))
  {
    RepairConfigIsCreatable(config, ownerName, newOwnerId);
  }

  method ReattachOne(d: Daemon, ownerName: string, newOwnerId: Option<Id>, dependent: string, ghost x: Id, ghost z: Id)
    returns (r: Result<(), DockerError>, ghost y: Id)
    requires d.Valid() && x in d.containers && d.containers[x].name == dependent
    modifies d`containers, d`history, d`faults, d`issued, d`generation
    ensures d.Valid() && d.faults >= old(d.faults) && old(d.issued) <= d.issued
    ensures RepairRun(old(d.history), d.history, old(d.containers), old(d.issued), {dependent})
    ensures RepairState(old(d.containers), old(d.issued), d.containers, {dependent})
    ensures d.faults == old(d.faults) && Ready(old(d.containers), d.images, x, z, ownerName, newOwnerId) ==>
              r.Success? && Healed(old(d.containers), d.containers, x, y, z) && FreshId(old(d.issued), y)
    // a repair that fails without a fault does not leave the name vacant
    ensures r.Failure? && d.faults == old(d.faults) ==> NameTaken(d.containers, dependent)
  {
    hide IsFullId, WellNamed, UniqueNames, NamespacesOwned, Resolve, ContainerReference, Probe.IsPinned, ResolveImage,
      OthersKept, RepairConfig, Conflicting, SharesNamespace, Firm, StandsInFor, ImageKept, SwapState, RepairState,
      SwapRun, RepairRun, Ready, Unobstructed, Healed, Joins, Replacement, JoinedTo, ImagesKept, FreshId, Repeats,
      SameBits, WasDown, NameTaken;
    ghost var cs0, issued, h0 := d.containers, d.issued, d.history;
    y := "";
    ByName(cs0, issued, x);
    UntouchedIsRepair(cs0, issued, {dependent});
    var prepared := PrepareRepair(d, ownerName, newOwnerId, dependent, x, z);
    if prepared.Failure? {
      return Failure(prepared.error), y;
    }
    var (config, image) := prepared.value;
    ghost var imageId, from := ResolveImage(d.images, image), OriginOf(d.images, config, image);
    var swap := SwapContainer(d, dependent, config, image, x, z);
    SwapRunIsRepairRun(h0, d.history, cs0, issued, x, from);
    SwapIsRepair(cs0, issued, d.containers, x, from);
    ghost var h, swapped := d.history, d.containers;
    match swap {
      case Failure(StopFailed(e)) =>
        StillNamed(d.containers, x, dependent);
        return Failure(e), y;
      case Failure(AfterStop(e, archive)) =>
        if archive.Some? {
          RestoreAfterFailedReattach(d, dependent, archive.value, cs0, issued, x, from);
          RepairRunJoin(h0, h, d.history, cs0, issued, {dependent});
        }
        if x in d.containers && d.containers[x].name == dependent { StillNamed(d.containers, x, dependent); }
        return Failure(e), y;
      case Success((archive, newId)) =>
        y := newId;
        NotIssued(cs0, issued, y);
        SpecKeeps(x, cs0[x]);
        RepairLabels(SpecOf(x, cs0[x]).config, ownerName, newOwnerId);
        StandInMade(cs0[x], SpecOf(x, cs0[x]).config, ownerName, newOwnerId, image, imageId, swapped[y]);
        DropArchive(d, archive, cs0, issued, x, y, z);
        RepairRunJoin(h0, h, d.history, cs0, issued, {dependent});
        return Success(()), y;
    }
  }

  lemma StillNamed(cs: Containers, x: Id, name: string)
    requires x in cs && cs[x].name == name
    ensures NameTaken(cs, name)
  {
  }

  lemma ReadyUnobstructed(d: Daemon, x: Id, z: Id, ownerName: string, newOwnerId: Option<Id>, config: Config,
                          image: string)
    requires d.Valid() && Ready(d.containers, d.images, x, z, ownerName, newOwnerId)
    requires ModeReference(config) == ModeReference(d.containers[x].config)
    requires d.containers[x].imageId.Some? ==> ResolveImage(d.images, image) == d.containers[x].imageId
    requires d.containers[x].imageId.None? ==> image == d.containers[x].config.image
    ensures x != z && SharesNamespace(d.containers[x].config)
    ensures Joins(d.containers, d.containers[x].name, RepairConfig(config, ownerName, newOwnerId), z)
    ensures Unobstructed(d, x, RepairConfig(config, ownerName, newOwnerId), image, z)
  {
    RepairJoins(d.containers, d.issued, d.images, x, z, ownerName, newOwnerId, config);
    RepairConfigIsCreatable(config, ownerName, newOwnerId);
  }

  lemma ImageIsKept(cs: Containers, store: ImageStore, x: Id)
    requires ImagesKept(cs, store) && x in cs
    ensures ImageKept(store, cs[x])
  {
  }

  lemma UntouchedIsRepair(cs: Containers, issued: set<Id>, names: set<string>)
    ensures RepairState(cs, issued, cs, names)
    ensures forall h :: RepairRun(h, h, cs, issued, names)
  {
  }

  lemma RepairRunJoin(h0: seq<Containers>, h1: seq<Containers>, h: seq<Containers>, cs0: Containers, issued: set<Id>,
                      names: set<string>)
    requires RepairRun(h0, h1, cs0, issued, names) && RepairRun(h1, h, cs0, issued, names)
    ensures RepairRun(h0, h, cs0, issued, names)
  {
    forall i | |h0| <= i < |h|
      ensures RepairState(cs0, issued, h[i], names)
    {
      if i < |h1| { assert h[i] == h1[i]; }
    }
  }

  lemma RepairLabels(config: Config, ownerName: string, newOwnerId: Option<Id>)
    ensures RepairConfig(config, ownerName, newOwnerId).labels == config.labels
  {
    RepairConfigIsCreatable(config, ownerName, newOwnerId);
  }

  lemma StandInMade(was: Container, config: Config, ownerName: string, newOwnerId: Option<Id>, image: string,
                    imageId: Option<ImageId>, c: Container)
    requires SameBody(was.config, config) && SharesNamespace(was.config) == SharesNamespace(config)
    requires Replacement(c, was.name, RepairConfig(config, ownerName, newOwnerId), image, imageId)
    requires Repeats(was, Origin(image, imageId, config.labels))
    ensures StandsInFor(was, c)
  {
    RepairConfigIsCreatable(config, ownerName, newOwnerId);
  }

  /** No running container uses a namespace made by one that only borrows. */
  lemma NobodyHolds(cs: Containers, issued: set<Id>, x: Id, cs0: Containers, archive: string, y: Id)
    requires NamespacesOwned(cs, issued) && Swapped(cs0, cs, x, archive, y) && SharesNamespace(cs0[x].config)
    ensures !HoldsNamespace(cs, x)
  {
  }

  lemma HealedBy(cs0: Containers, s: Containers, issued0: set<Id>, issued: set<Id>, x: Id, archive: string, y: Id,
                 z: Id)
    requires WellNamed(cs0, issued0) && WellNamed(s, issued) && Swapped(cs0, s, x, archive, y)
    requires StandsInFor(cs0[x], s[y]) && JoinedTo(cs0, s, y, z) && z != x
    ensures Healed(cs0, s - {x}, x, y, z)
  {
    FirmAfterRemove(s, issued, ModeReference(s[y].config).value, z, x);
  }

  // ----- all dependents -----

  function NameSet(names: seq<string>): set<string> { set n | n in names }

  function NamesOf(cs: Containers): set<string> { set x | x in cs :: cs[x].name }

  lemma RepairCompose(cs0: Containers, issued0: set<Id>, cs1: Containers, issued1: set<Id>, s: Containers,
                      names: set<string>, n: string)
    requires WellNamed(cs0, issued0) && WellNamed(cs1, issued1) && issued0 <= issued1
    requires RepairState(cs0, issued0, cs1, names) && RepairState(cs1, issued1, s, {n})
    requires n !in names && NameTaken(cs0, n)
    ensures RepairState(cs0, issued0, s, names + {n})
  {
    hide IsFullId, UniqueNames, Accounted, Doubles;
    var xn := NamedContainer(cs0, n);
    forall x | x in cs0 && cs0[x].name in names
      ensures Accounted(cs0, issued0, s, x)
    {
      EarlierAccounted(cs0, issued0, cs1, issued1, s, names, n, x);
    }
    forall x | x in cs0 && cs0[x].name == n
      ensures Accounted(cs0, issued0, s, x)
    {
      OneOfAName(cs0, issued0, x, xn);
      assert cs1[x] == cs0[x];
      SameAccounted(cs0, issued0, cs1, issued1, s, x);
    }
    forall y | y in s && y !in cs0
      ensures y !in issued0 && s[y].name in names + {n} && Doubles(cs0, s[y])
    {
      if y in cs1 {
        assert s[y] == cs1[y];
      } else {
        LaterDoubles(cs0, cs1, issued1, s[y], n, xn);
      }
    }
  }

  /** A repair of somebody else does not touch what an earlier one left. */
  lemma EarlierAccounted(cs0: Containers, issued0: set<Id>, cs1: Containers, issued1: set<Id>, s: Containers,
                         names: set<string>, n: string, x: Id)
    requires RepairState(cs0, issued0, cs1, names) && RepairState(cs1, issued1, s, {n}) && NameTaken(cs0, n)
    requires WellNamed(cs1, issued1) && cs1.Keys <= issued1 && cs0.Keys <= issued1
    requires x in cs0 && cs0[x].name in names && n !in names
    ensures Accounted(cs0, issued0, s, x)
  {
    hide IsFullId, Doubles;
    var xn := NamedContainer(cs0, n);
    assert cs1[xn] == cs0[xn];
    if x in cs1 {
      assert x != xn && s[x] == cs1[x];
    } else {
      var y :| y in cs1 && y !in issued0 && StandsInFor(cs0[x], cs1[y]);
      assert s[y] == cs1[y];
      assert x !in s;
    }
  }

  lemma SameAccounted(cs0: Containers, issued0: set<Id>, cs1: Containers, issued1: set<Id>, s: Containers, x: Id)
    requires x in cs0 && x in cs1 && cs1[x] == cs0[x] && issued0 <= issued1 && Accounted(cs1, issued1, s, x)
    ensures Accounted(cs0, issued0, s, x)
  {
    if x !in s {
      var y :| y in s && y !in issued1 && StandsInFor(cs1[x], s[y]);
      assert StandsInFor(cs0[x], s[y]);
    }
  }

  lemma LaterDoubles(cs0: Containers, cs1: Containers, issued1: set<Id>, c: Container, n: string, xn: Id)
    requires WellNamed(cs1, issued1) && Doubles(cs1, c) && c.name == n
    requires xn in cs0 && xn in cs1 && cs1[xn] == cs0[xn] && cs0[xn].name == n
    ensures Doubles(cs0, c)
  {
    var x :| x in cs1 && cs1[x].name == c.name && SameBits(cs1[x], c);
    OneOfAName(cs1, issued1, x, xn);
  }

  lemma RepairRunCompose(h0: seq<Containers>, h1: seq<Containers>, h: seq<Containers>, cs0: Containers,
                         issued0: set<Id>, cs1: Containers, issued1: set<Id>, names: set<string>, n: string)
    requires WellNamed(cs0, issued0) && WellNamed(cs1, issued1) && issued0 <= issued1
    requires RepairState(cs0, issued0, cs1, names) && n !in names && NameTaken(cs0, n)
    requires RepairRun(h0, h1, cs0, issued0, names) && RepairRun(h1, h, cs1, issued1, {n})
    ensures RepairRun(h0, h, cs0, issued0, names + {n})
  {
    forall i | |h0| <= i < |h|
      ensures RepairState(cs0, issued0, h[i], names + {n})
    {
      if i < |h1| {
        assert h[i] == h1[i];
        RepairStateGrows(cs0, issued0, h1[i], names, n);
      } else {
        RepairCompose(cs0, issued0, cs1, issued1, h[i], names, n);
      }
    }
  }

  lemma RepairStateGrows(cs0: Containers, issued: set<Id>, s: Containers, names: set<string>, n: string)
    requires RepairState(cs0, issued, s, names)
    ensures RepairState(cs0, issued, s, names + {n})
  {
  }

  /** Every reference that meant `z` still does. */
  ghost predicate FirmKept(cs: Containers, s: Containers, z: Id) {
    forall reference :: Firm(cs, reference, z) ==> Firm(s, reference, z)
  }

  /** The containers called `names` gave way to running stand-ins in the
      namespace of `z`; nobody else changed and no name came or went. */
  ghost predicate AllHealed(cs0: Containers, s: Containers, names: set<string>, z: Id) {
    && z in cs0 && z in s && s[z] == cs0[z]
    && (forall x :: x in cs0 && cs0[x].name !in names ==> x in s && s[x] == cs0[x])
    && (forall x :: x in cs0 && cs0[x].name in names ==> x !in s && HasStandIn(cs0, s, x, z))
    && (forall y :: y in s && y !in cs0 ==> s[y].name in names && s[y].running && JoinedTo(cs0, s, y, z))
    && NamesOf(s) == NamesOf(cs0)
    && FirmKept(cs0, s, z)
  }

  ghost predicate HasStandIn(cs0: Containers, s: Containers, x: Id, z: Id)
    requires x in cs0
  {
    exists y :: y in s && y !in cs0 && StandsInFor(cs0[x], s[y]) && JoinedTo(cs0, s, y, z)
  }

  ghost predicate AllReady(cs: Containers, store: ImageStore, names: set<string>, z: Id, ownerName: string,
                           newOwnerId: Option<Id>) {
    && z in cs && cs[z].name !in names
    && forall x :: x in cs && cs[x].name in names ==> Ready(cs, store, x, z, ownerName, newOwnerId)
  }

  lemma FirmHealed(cs: Containers, s: Containers, issued: set<Id>, x: Id, y: Id, z: Id)
    requires WellNamed(cs, issued) && Healed(cs, s, x, y, z) && FreshId(issued, y) && x != z && UniqueNames(s)
    ensures FirmKept(cs, s, z)
  {
    hide IsFullId, WellNamed, UniqueNames, FreshId, Firm, Healed;
    HealedParts(cs, s, issued, x, y, z);
    forall reference | Firm(cs, reference, z)
      ensures Firm(s, reference, z)
    {
      OneFirmHealed(cs, s, issued, x, y, z, reference);
    }
  }

  lemma HealedParts(cs: Containers, s: Containers, issued: set<Id>, x: Id, y: Id, z: Id)
    requires WellNamed(cs, issued) && Healed(cs, s, x, y, z)
    ensures x in cs && y in s && s[y].name == cs[x].name && s == (cs - {x})[y := s[y]]
    ensures !NameTaken(cs - {x}, cs[x].name) && WellNamed(cs - {x}, issued) && !IsFullId(cs[x].name)
  {
    ByName(cs, issued, x);
    assert s == (cs - {x})[y := s[y]];
  }

  lemma OneFirmHealed(cs: Containers, s: Containers, issued: set<Id>, x: Id, y: Id, z: Id, reference: string)
    requires WellNamed(cs, issued) && Firm(cs, reference, z) && FreshId(issued, y) && x != z && x in cs && y in s
    requires s[y].name == cs[x].name && s == (cs - {x})[y := s[y]]
    requires !NameTaken(cs - {x}, cs[x].name) && WellNamed(cs - {x}, issued) && !IsFullId(cs[x].name)
    ensures Firm(s, reference, z)
  {
    hide IsFullId, WellNamed, FreshId, Firm, NameTaken;
    FirmAfterRemove(cs, issued, reference, z, x);
    if reference == cs[x].name { NotFirmForOther(cs, issued, reference, z, x); }
    FirmAfterAdd(cs - {x}, issued, reference, z, y, s[y]);
  }

  /** The name of one container is no reference to another. */
  lemma NotFirmForOther(cs: Containers, issued: set<Id>, reference: string, z: Id, x: Id)
    requires WellNamed(cs, issued) && x in cs && x != z
    ensures !(reference == cs[x].name && Firm(cs, reference, z))
  {
    ByName(cs, issued, x);
  }

  lemma HealedNames(cs: Containers, s: Containers, x: Id, y: Id, z: Id)
    requires Healed(cs, s, x, y, z)
    ensures NamesOf(s) == NamesOf(cs)
  {
    forall n | n in NamesOf(cs)
      ensures n in NamesOf(s)
    {
      var k :| k in cs && cs[k].name == n;
      if k == x { assert s[y].name == n; } else { assert s[k].name == n; }
    }
    forall n | n in NamesOf(s)
      ensures n in NamesOf(cs)
    {
      var k :| k in s && s[k].name == n;
      if k == y { assert cs[x].name == n; } else { assert cs[k].name == n; }
    }
  }

  lemma NoneHealed(cs: Containers, z: Id)
    requires z in cs
    ensures AllHealed(cs, cs, {}, z)
  {
  }

  lemma JoinedKept(cs0: Containers, cs1: Containers, s: Containers, y: Id, z: Id)
    requires y in cs1 && y in s && s[y] == cs1[y] && JoinedTo(cs0, cs1, y, z) && FirmKept(cs1, s, z)
    ensures JoinedTo(cs0, s, y, z)
  {
    assert Firm(cs1, ModeReference(cs1[y].config).value, z);
  }

  lemma FreshNotIn(cs0: Containers, issued0: set<Id>, issued1: set<Id>, y: Id)
    requires WellNamed(cs0, issued0) && issued0 <= issued1 && FreshId(issued1, y)
    ensures y !in cs0
  {
  }

  lemma OneOfAName(cs: Containers, issued: set<Id>, k: Id, x: Id)
    requires WellNamed(cs, issued) && k in cs && x in cs && cs[k].name == cs[x].name
    ensures k == x
  {
  }

  lemma FirmKeptTwice(cs0: Containers, cs1: Containers, s: Containers, z: Id)
    requires FirmKept(cs0, cs1, z) && FirmKept(cs1, s, z)
    ensures FirmKept(cs0, s, z)
  {
  }

  lemma JoinedSameOwner(cs0: Containers, cs1: Containers, s: Containers, y: Id, z: Id)
    requires y in s && JoinedTo(cs1, s, y, z) && z in cs0 && z in cs1 && cs1[z] == cs0[z]
    ensures JoinedTo(cs0, s, y, z)
  {
  }

  lemma HealCompose(cs0: Containers, cs1: Containers, issued0: set<Id>, issued1: set<Id>, s: Containers,
                    names: set<string>, n: string, x: Id, y: Id, z: Id)
    requires WellNamed(cs0, issued0) && WellNamed(cs1, issued1) && UniqueNames(s) && issued0 <= issued1
    requires AllHealed(cs0, cs1, names, z) && n !in names
    requires x in cs0 && cs0[x].name == n && x in cs1 && cs1[x] == cs0[x] && x != z
    requires Healed(cs1, s, x, y, z) && FreshId(issued1, y)
    ensures AllHealed(cs0, s, names + {n}, z)
  {
    hide IsFullId, WellNamed, UniqueNames, FreshId, Firm, FirmKept, NamesOf, JoinedTo, HasStandIn, StandsInFor;
    FirmHealed(cs1, s, issued1, x, y, z);
    HealedNames(cs1, s, x, y, z);
    FreshNotIn(cs0, issued0, issued1, y);
    FirmKeptTwice(cs0, cs1, s, z);
    forall k | k in s && k !in cs0
      ensures s[k].name in names + {n} && s[k].running && JoinedTo(cs0, s, k, z)
    {
      if k == y {
        JoinedSameOwner(cs0, cs1, s, y, z);
        StandInRuns(cs1[x], s[y]);
      } else {
        assert s[k] == cs1[k];
        JoinedKept(cs0, cs1, s, k, z);
      }
    }
    forall k | k in cs0 && cs0[k].name in names + {n}
      ensures k !in s && HasStandIn(cs0, s, k, z)
    {
      if cs0[k].name == n {
        OneOfAName(cs0, issued0, k, x);
        JoinedSameOwner(cs0, cs1, s, y, z);
        NewStandIn(cs0, cs1, s, x, y, z);
      } else {
        StandInKept(cs0, cs1, s, k, x, y, z);
      }
    }
  }

  lemma StandInRuns(was: Container, c: Container)
    requires StandsInFor(was, c)
    ensures c.name == was.name && c.running
  {
    hide SameBits, Conflicting;
  }

  lemma NewStandIn(cs0: Containers, cs1: Containers, s: Containers, x: Id, y: Id, z: Id)
    requires x in cs0 && x in cs1 && cs1[x] == cs0[x] && y !in cs0
    requires Healed(cs1, s, x, y, z) && JoinedTo(cs0, s, y, z)
    ensures HasStandIn(cs0, s, x, z)
  {
    hide Firm, FirmKept, NamesOf, JoinedTo, StandsInFor;
  }

  lemma StandInKept(cs0: Containers, cs1: Containers, s: Containers, k: Id, x: Id, y: Id, z: Id)
    requires k in cs0 && HasStandIn(cs0, cs1, k, z) && x in cs0
    requires Healed(cs1, s, x, y, z) && FirmKept(cs1, s, z) && z in cs0 && z in cs1 && cs1[z].ns == cs0[z].ns
    ensures HasStandIn(cs0, s, k, z)
  {
    hide Firm, FirmKept, NamesOf, JoinedTo, StandsInFor;
    var w :| w in cs1 && w !in cs0 && StandsInFor(cs0[k], cs1[w]) && JoinedTo(cs0, cs1, w, z);
    assert w != x && s[w] == cs1[w];
    JoinedKept(cs0, cs1, s, w, z);
  }

  lemma ReadyKept(cs0: Containers, cs1: Containers, issued1: set<Id>, store: ImageStore, names: set<string>, x: Id,
                  z: Id, ownerName: string, newOwnerId: Option<Id>)
    requires AllHealed(cs0, cs1, names, z) && Ready(cs0, store, x, z, ownerName, newOwnerId)
    requires x in cs1 && cs1[x] == cs0[x]
    ensures Ready(cs1, store, x, z, ownerName, newOwnerId)
  {
    forall ts: int
      ensures ArchiveRoom(cs1, cs1[x].name, ts)
    {
      assert ArchiveRoom(cs0, cs0[x].name, ts);
      var n: nat :| n <= MAX_COLLISION_ATTEMPTS && !NameTaken(cs0, Candidate(cs0[x].name, ts, n));
      TakenIsNamed(cs0, Candidate(cs0[x].name, ts, n));
      TakenIsNamed(cs1, Candidate(cs0[x].name, ts, n));
    }
    if newOwnerId.None? { assert Firm(cs1, ModeReference(cs0[x].config).value, z); }
  }

  lemma TakenIsNamed(cs: Containers, n: string)
    ensures NameTaken(cs, n) <==> n in NamesOf(cs)
  {
  }

  /** Repairs the container called `n`, after those called `done`. */
  method ReattachNext(d: Daemon, ownerName: string, newOwnerId: Option<Id>, n: string, ghost z: Id,
                      ghost cs0: Containers, ghost issued0: set<Id>, ghost done: set<string>, ghost fit: bool)
    requires d.Valid() && WellNamed(cs0, issued0) && issued0 <= d.issued
    requires NameTaken(cs0, n) && n !in done
    requires RepairState(cs0, issued0, d.containers, done)
    requires fit ==> AllHealed(cs0, d.containers, done, z)
                     && AllReady(cs0, d.images, done + {n}, z, ownerName, newOwnerId)
    modifies d`containers, d`history, d`faults, d`issued, d`generation
    ensures d.Valid() && d.faults >= old(d.faults) && old(d.issued) <= d.issued
    ensures forall h0 :: RepairRun(h0, old(d.history), cs0, issued0, done) ==>
                           RepairRun(h0, d.history, cs0, issued0, done + {n})
    ensures RepairState(cs0, issued0, d.containers, done + {n})
    ensures d.faults == old(d.faults) && fit ==> AllHealed(cs0, d.containers, done + {n}, z)
  {
    hide IsFullId, WellNamed, NamespacesOwned, ImagesKept, TagsServed, RepairRun, RepairState, AllHealed, Healed,
      Ready, FreshId, Accounted, NamesOf, NameTaken, UniqueNames;
    ghost var x := NamedContainer(cs0, n);
    ghost var cs1, issued1, h1, f1 := d.containers, d.issued, d.history, d.faults;
    OthersStay(cs0, issued0, cs1, done, x);
    if fit { ReadyKept(cs0, cs1, issued1, d.images, done, x, z, ownerName, newOwnerId); }
    var r, y := ReattachOne(d, ownerName, newOwnerId, n, x, z);
    RepairCompose(cs0, issued0, cs1, issued1, d.containers, done, n);
    forall h0 | RepairRun(h0, h1, cs0, issued0, done)
      ensures RepairRun(h0, d.history, cs0, issued0, done + {n})
    {
      RepairRunCompose(h0, h1, d.history, cs0, issued0, cs1, issued1, done, n);
    }
    if fit && d.faults == f1 {
      NamesUnique(d.containers, d.issued);
      HealCompose(cs0, cs1, issued0, issued1, d.containers, done, n, x, y, z);
    }
  }

  lemma OthersStay(cs0: Containers, issued: set<Id>, s: Containers, names: set<string>, x: Id)
    requires RepairState(cs0, issued, s, names) && x in cs0 && cs0[x].name !in names
    ensures x in s && s[x] == cs0[x]
  {
  }

  lemma NamesUpTo(names: seq<string>, k: nat)
    requires k < |names| && forall i, j :: 0 <= i < j < |names| ==> names[i] != names[j]
    ensures NameSet(names[..k + 1]) == NameSet(names[..k]) + {names[k]} && names[k] !in NameSet(names[..k])
    ensures NameSet(names[..k + 1]) <= NameSet(names)
  {
  }

  lemma ReadyFewer(cs: Containers, store: ImageStore, names: set<string>, all: set<string>, z: Id, ownerName: string,
                   newOwnerId: Option<Id>)
    requires AllReady(cs, store, all, z, ownerName, newOwnerId) && names <= all
    ensures AllReady(cs, store, names, z, ownerName, newOwnerId)
  {
    hide Ready;
  }

  lemma OwnerThere(cs: Containers, store: ImageStore, names: set<string>, z: Id, ownerName: string,
                   newOwnerId: Option<Id>)
    requires AllReady(cs, store, names, z, ownerName, newOwnerId)
    ensures z in cs
  {
  }

  method ReattachDependents(d: Daemon, ownerName: string, newOwnerId: Option<Id>, dependents: seq<string>, ghost z: Id)
    requires d.Valid()
    requires forall i, j :: 0 <= i < j < |dependents| ==> dependents[i] != dependents[j]
    requires forall n :: n in dependents ==> NameTaken(d.containers, n)
    modifies d`containers, d`history, d`faults, d`issued, d`generation
    ensures d.Valid() && d.faults >= old(d.faults) && old(d.issued) <= d.issued
    ensures RepairRun(old(d.history), d.history, old(d.containers), old(d.issued), NameSet(dependents))
    ensures RepairState(old(d.containers), old(d.issued), d.containers, NameSet(dependents))
    ensures d.faults == old(d.faults)
            && AllReady(old(d.containers), d.images, NameSet(dependents), z, ownerName, newOwnerId) ==>
              AllHealed(old(d.containers), d.containers, NameSet(dependents), z)
  {
    hide IsFullId, WellNamed, NamespacesOwned, ImagesKept, TagsServed, RepairRun, RepairState, AllHealed, AllReady,
      NameTaken, NameSet;
    ghost var cs0, issued0, h0, f0 := d.containers, d.issued, d.history, d.faults;
    ghost var fit := AllReady(cs0, d.images, NameSet(dependents), z, ownerName, newOwnerId);
    UntouchedIsRepair(cs0, issued0, {});
    if fit {
      OwnerThere(cs0, d.images, NameSet(dependents), z, ownerName, newOwnerId);
      NoneHealed(cs0, z);
    }
    NoNames(dependents);
    for k := 0 to |dependents|
      invariant d.Valid() && d.faults >= f0 && issued0 <= d.issued && d.images == old(d.images)
      invariant RepairRun(h0, d.history, cs0, issued0, NameSet(dependents[..k]))
      invariant RepairState(cs0, issued0, d.containers, NameSet(dependents[..k]))
      invariant d.faults == f0 && fit ==> AllHealed(cs0, d.containers, NameSet(dependents[..k]), z)
    {
      ghost var done, still := NameSet(dependents[..k]), fit && d.faults == f0;
      NamesUpTo(dependents, k);
      if still {
        ReadyFewer(cs0, d.images, done + {dependents[k]}, NameSet(dependents), z, ownerName, newOwnerId);
      }
      ReattachNext(d, ownerName, newOwnerId, dependents[k], z, cs0, issued0, done, still);
    }
    assert dependents[..|dependents|] == dependents;
  }

  lemma NoNames(names: seq<string>)
    ensures NameSet(names[..0]) == {}
  {
  }

  lemma NamedContainer(cs: Containers, n: string) returns (x: Id)
    requires NameTaken(cs, n)
    ensures x in cs && cs[x].name == n
  {
    x :| x in cs && cs[x].name == n;
  }
}
