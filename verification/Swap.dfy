/** The container swap and what may be said of every state on its way
    (`swap_container` of src/docker/recreate.rs). */
module Swap {
  import opened Wrappers
  import opened Rename
  import opened Docker
  import Labels
  import Probe

  /** Same container, possibly stopped and possibly under an archive name. */
  ghost predicate Parkable(was: Container, c: Container) {
    && c.config == was.config
    && c.imageId == was.imageId
    && (c.name == was.name || IsArchiveOf(c.name, was.name))
  }

  /** What a new container is made from: the reference, the image that names and
      the labels. */
  datatype Origin = Origin(image: string, imageId: Option<ImageId>, labels: Labels.LabelMap)

  ghost predicate MadeFrom(c: Container, from: Origin) {
    c.config.image == from.image && c.imageId == from.imageId && c.config.labels == from.labels
  }

  ghost predicate OthersKept(cs0: Containers, s: Containers, x: Id) {
    forall y :: y in cs0 && y != x ==> y in s && s[y] == cs0[y]
  }

  /** A state on the way of swapping `x`: `x` is still there, everybody else is
      as before, and whatever is new carries the name of `x` and is made from
      `from`. */
  ghost predicate SwapState(cs0: Containers, issued: set<Id>, s: Containers, x: Id, from: Origin)
    requires x in cs0
  {
    && x in s && Parkable(cs0[x], s[x])
    && OthersKept(cs0, s, x)
    && (forall y :: y in s && y !in cs0 ==> y !in issued && s[y].name == cs0[x].name && MadeFrom(s[y], from))
  }

  ghost predicate LastIs(h: seq<Containers>, s: Containers) { h != [] && h[|h| - 1] == s }

  /** Since `h0` a state was recorded in which `x` is stopped. */
  ghost predicate WasDown(h0: seq<Containers>, h: seq<Containers>, x: Id) {
    exists i :: |h0| <= i < |h| && x in h[i] && !h[i][x].running
  }

  lemma DownStays(h0: seq<Containers>, h1: seq<Containers>, h: seq<Containers>, x: Id)
    requires WasDown(h0, h1, x) && Continues(h1, h)
    ensures WasDown(h0, h, x)
  {
    var i :| |h0| <= i < |h1| && x in h1[i] && !h1[i][x].running;
    assert h[i] == h1[i];
  }

  lemma DownNow(h0: seq<Containers>, h: seq<Containers>, x: Id, s: Containers)
    requires Continues(h0, h) && x in s && !s[x].running
    ensures WasDown(h0, h + [s], x)
  {
    assert (h + [s])[|h|] == s;
  }

  /** Every state recorded since `h0` is one of those. */
  ghost predicate SwapRun(h0: seq<Containers>, h: seq<Containers>, cs0: Containers, issued: set<Id>, x: Id,
                          from: Origin)
    requires x in cs0
  {
    Continues(h0, h) && forall i :: |h0| <= i < |h| ==> SwapState(cs0, issued, h[i], x, from)
  }

  lemma SwapRunStep(h0: seq<Containers>, h: seq<Containers>, cs0: Containers, issued: set<Id>, s: Containers, x: Id,
                    from: Origin)
    requires x in cs0 && SwapRun(h0, h, cs0, issued, x, from) && SwapState(cs0, issued, s, x, from)
    ensures SwapRun(h0, h + [s], cs0, issued, x, from)
  {
  }

  function Parked(cs: Containers, x: Id, archive: string): Containers
    requires x in cs
  {
    cs[x := cs[x].(running := false, name := archive)]
  }

  /** The state a finished swap leaves: `x` down under its archive name and the
      new container `y` beside it. */
  ghost predicate Swapped(cs: Containers, s: Containers, x: Id, archive: string, y: Id) {
    && x in cs && y !in cs
    && s.Keys == cs.Keys + {y}
    && s[x] == Parked(cs, x, archive)[x]
    && OthersKept(cs, s, x)
  }

  /** `reference` means `z`, by its id, its name or a prefix long enough to go
      by, and goes on doing so while other containers come and go. */
  ghost predicate Firm(cs: Containers, reference: string, z: Id) {
    && UniqueNames(cs)
    && Resolve(cs, reference) == Some(z)
    && (reference == z || reference == cs[z].name || |reference| >= 12)
  }

  lemma ByName(cs: Containers, issued: set<Id>, x: Id)
    requires WellNamed(cs, issued) && x in cs
    ensures Resolve(cs, cs[x].name) == Some(x)
    ensures cs[x].name !in cs && !IsFullId(cs[x].name)
    ensures Firm(cs, cs[x].name, x)
  {
  }

  lemma NamesUnique(cs: Containers, issued: set<Id>)
    requires WellNamed(cs, issued)
    ensures UniqueNames(cs)
  {
  }

  lemma ById(cs: Containers, issued: set<Id>, x: Id)
    requires WellNamed(cs, issued) && x in cs
    ensures Resolve(cs, x) == Some(x)
  {
  }

  lemma FirmResolves(cs: Containers, reference: string, z: Id)
    requires Firm(cs, reference, z)
    ensures Resolve(cs, reference) == Some(z) && z in cs
  {
  }

  lemma PrefixIsHex(reference: string, x: Id)
    requires IsFullId(x) && reference <= x
    ensures '-' !in reference
  {
    assert forall i :: 0 <= i < |reference| ==> reference[i] == x[i] && Labels.IsHex(x[i]);
  }

  /** How a firm reference got its meaning. */
  lemma FirmCases(cs: Containers, issued: set<Id>, reference: string, z: Id)
    requires WellNamed(cs, issued) && Firm(cs, reference, z)
    ensures z in cs
    ensures reference == z || reference == cs[z].name
            || (|reference| >= 12 && IsOnlyPrefixMatch(cs, reference, z)
                && !NameTaken(cs, reference) && reference !in cs)
  {
  }

  lemma FirmAfterPark(cs: Containers, issued: set<Id>, reference: string, z: Id, x: Id, archive: string)
    requires WellNamed(cs, issued) && Firm(cs, reference, z)
    requires x in cs && x != z && !NameTaken(cs, archive) && '-' in archive
    ensures WellNamed(Parked(cs, x, archive), issued) ==> Firm(Parked(cs, x, archive), reference, z)
  {
    FirmCases(cs, issued, reference, z);
    var s := Parked(cs, x, archive);
    if WellNamed(s, issued) {
      assert s[z] == cs[z];
      if reference == cs[z].name {
        ByName(s, issued, z);
      } else if reference != z {
        PrefixIsHex(reference, z);
        assert IsOnlyPrefixMatch(s, reference, z);
        assert !NameTaken(s, reference);
      }
    }
  }

  lemma PrefixStart(reference: string, x: Id)
    requires |reference| >= 12
    ensures reference <= x ==> x[..12] == reference[..12]
  {
  }

  lemma FirmAfterAdd(cs: Containers, issued: set<Id>, reference: string, z: Id, x: Id, c: Container)
    requires WellNamed(cs, issued) && Firm(cs, reference, z)
    requires FreshId(issued, x)
    requires !NameTaken(cs, c.name) && !IsFullId(c.name) && reference != c.name
    ensures Firm(cs[x := c], reference, z)
  {
    FirmCases(cs, issued, reference, z);
    var s := cs[x := c];
    if reference == cs[z].name {
      ByName(s, issued + {x}, z);
    } else if reference != z {
      PrefixStart(reference, z);
      PrefixStart(reference, x);
      assert IsOnlyPrefixMatch(s, reference, z);
      assert !NameTaken(s, reference);
    }
  }

  lemma FirmAfterRemove(cs: Containers, issued: set<Id>, reference: string, z: Id, x: Id)
    requires WellNamed(cs, issued) && Firm(cs, reference, z) && x != z
    ensures Firm(cs - {x}, reference, z)
  {
    FirmCases(cs, issued, reference, z);
    var s := cs - {x};
    if reference == cs[z].name {
      ByName(s, issued, z);
    } else if reference != z {
      assert IsOnlyPrefixMatch(s, reference, z);
      assert !NameTaken(s, reference);
    }
  }

  /** A reference stays firm when containers only change their running state. */
  lemma FirmAfterUpdate(cs: Containers, s: Containers, issued: set<Id>, reference: string, z: Id)
    requires WellNamed(cs, issued) && Firm(cs, reference, z)
    requires s.Keys == cs.Keys && forall y :: y in cs ==> s[y].name == cs[y].name
    ensures Firm(s, reference, z)
  {
    FirmCases(cs, issued, reference, z);
    if reference == cs[z].name {
      ByName(s, issued, z);
    } else if reference != z {
      assert IsOnlyPrefixMatch(s, reference, z);
      assert !NameTaken(s, reference);
    }
  }

  /** One of the names the collision search tries is free. */
  ghost predicate ArchiveRoom(cs: Containers, name: string, ts: int) {
    exists n: nat :: n <= MAX_COLLISION_ATTEMPTS && !NameTaken(cs, Candidate(name, ts, n))
  }

  /** Nothing but a fault can stop a swap of `x` that creates `config` from
      `image`, given that it joins `z` if it joins anything. */
  ghost predicate Unobstructed(d: Daemon, x: Id, config: Config, image: string, z: Id)
    reads d
  {
    && x in d.containers
    && (forall ts: int :: ArchiveRoom(d.containers, d.containers[x].name, ts))
    && ResolveImage(d.images, image).Some?
    && !Conflicting(config)
    && (config.endpoints.Some? && |config.endpoints.value| > 1 ==> d.multiNetwork)
    && (SharesNamespace(config) ==>
          && z != x && z in d.containers && d.containers[z].running
          && Joins(d.containers, d.containers[x].name, config, z))
  }

  function OriginOf(store: ImageStore, config: Config, image: string): Origin {
    Origin(image, ResolveImage(store, image), config.labels)
  }

  datatype SwapError = StopFailed(error: DockerError) | AfterStop(error: DockerError, archive: Option<string>)

  /** `c` was created under `name` with the whole of `config`, on `image`. How a
      borrowed network is spelled is up to the daemon. */
  ghost predicate Remade(c: Container, name: string, config: Config, image: string, imageId: Option<ImageId>) {
    && c.name == name
    && c.imageId == imageId
    && c.config == config.(image := image, networkMode := c.config.networkMode)
    && SharesNamespace(c.config) == SharesNamespace(config)
    && (!SharesNamespace(config) ==> c.config.networkMode == config.networkMode)
  }

  /** The replacement a finished swap leaves behind. */
  ghost predicate Replacement(c: Container, name: string, config: Config, image: string, imageId: Option<ImageId>) {
    c.running && Remade(c, name, config, image, imageId)
  }

  /** `stop → rename to an archive name`, the half that takes `x` down. */
  method TakeDown(d: Daemon, name: string, ghost x: Id,
                  ghost from: Origin) returns (r: Result<string, SwapError>)
    requires d.Valid() && x in d.containers && d.containers[x].name == name
    modifies d`containers, d`history, d`faults
    ensures d.Valid()
    ensures d.faults >= old(d.faults)
    ensures SwapRun(old(d.history), d.history, old(d.containers), d.issued, x, from)
    ensures r.Failure? && r.error.StopFailed? ==>
              d.containers == old(d.containers) && d.history == old(d.history) + [d.containers]
    ensures !(r.Failure? && r.error.StopFailed?) ==> WasDown(old(d.history), d.history, x)
    ensures r.Failure? && r.error.AfterStop? ==>
              r.error.archive.None? && d.containers == WithRunning(old(d.containers), x, false)
    ensures r.Success? ==> IsArchiveOf(r.value, name) && !NameTaken(old(d.containers), r.value)
                           && d.containers == Parked(old(d.containers), x, r.value)
    ensures r.Failure? && d.faults == old(d.faults) ==> exists ts: int :: !ArchiveRoom(old(d.containers), name, ts)
  {
    hide IsFullId, WellNamed, UniqueNames, NamespacesOwned, ImagesKept, TagsServed, SwapState, SwapRun, WasDown,
      EarlierTaken, NameTaken, ArchiveRoom, Candidate, Resolve;
    ghost var cs, h, h0 := d.containers, d.history, d.history;
    ByName(cs, d.issued, x);
    OnTheWay(cs, d.issued, x, from);
    SwapRunNone(h0, cs, d.issued, x, from);
    Named(cs, x);
    var stopped := d.Stop(name);
    SwapRunStep(h0, h, cs, d.issued, d.containers, x, from);
    h := d.history;
    if stopped.Failure? {
      return Failure(StopFailed(stopped.error));
    }
    ghost var down := d.containers;
    DownNow(h0, h0, x, down);
    ByName(down, d.issued, x);
    StoppedNames(cs, x);
    // seconds since the epoch, or before it
    var ts: int := *;
    var renamed := d.RenameToOld(name, ts);
    DownStays(h0, h, d.history, x);
    match renamed {
      case Failure(e) =>
        SwapRunStep(h0, h, cs, d.issued, down, x, from);
        if d.faults == old(d.faults) { NoRoom(cs, down, name, ts); }
        return Failure(AfterStop(e, None));
      case Success(archive) =>
        assert IsArchiveOf(archive, name);
        ParkedOnTheWay(cs, d.issued, x, archive, from);
        assert d.containers == Parked(cs, x, archive);
        SwapRunStep(h0, h, cs, d.issued, d.containers, x, from);
        return Success(archive);
    }
  }

  lemma OnTheWay(cs: Containers, issued: set<Id>, x: Id, from: Origin)
    requires x in cs
    ensures SwapState(cs, issued, cs, x, from)
    ensures SwapState(cs, issued, WithRunning(cs, x, false), x, from)
  {
  }

  lemma ParkedOnTheWay(cs: Containers, issued: set<Id>, x: Id, archive: string, from: Origin)
    requires x in cs && IsArchiveOf(archive, cs[x].name)
    ensures SwapState(cs, issued, Parked(cs, x, archive), x, from)
  {
  }

  lemma SwapRunNone(h: seq<Containers>, cs: Containers, issued: set<Id>, x: Id, from: Origin)
    requires x in cs
    ensures SwapRun(h, h, cs, issued, x, from)
  {
  }

  lemma Named(cs: Containers, x: Id)
    requires x in cs
    ensures NameTaken(cs, cs[x].name)
  {
  }

  lemma NoRoom(cs: Containers, down: Containers, name: string, ts: int)
    requires forall c :: NameTaken(down, c) <==> NameTaken(cs, c)
    requires forall n: nat :: n <= MAX_COLLISION_ATTEMPTS ==> NameTaken(down, Candidate(name, ts, n))
    ensures !ArchiveRoom(cs, name, ts)
  {
    hide NameTaken, Candidate;
  }

  lemma StoppedNames(cs: Containers, x: Id)
    requires x in cs
    ensures forall c :: NameTaken(WithRunning(cs, x, false), c) <==> NameTaken(cs, c)
  {
    var s := WithRunning(cs, x, false);
    assert forall y :: y in cs ==> s[y].name == cs[y].name;
  }

  /** `create under the original name → start`, the half that brings the
      replacement up. */
  method BringUp(d: Daemon, name: string, config: Config, image: string, ghost z: Id)
    returns (r: Result<Id, DockerError>)
    requires d.Valid() && !NameTaken(d.containers, name) && !IsFullId(name)
    modifies d`containers, d`history, d`faults, d`issued, d`generation
    ensures d.Valid()
    ensures d.faults >= old(d.faults) && old(d.issued) <= d.issued
    ensures BringUpRun(old(d.history), d.history, old(d.containers), old(d.issued), name,
                       OriginOf(d.images, config, image))
    ensures BringUpState(old(d.containers), old(d.issued), d.containers, name, OriginOf(d.images, config, image))
    ensures r.Success? ==> LastIs(d.history, d.containers)
    ensures r.Success? ==>
              var y := r.value;
              && FreshId(old(d.issued), y) && y in d.containers && d.issued == old(d.issued) + {y}
              && d.containers.Keys == old(d.containers).Keys + {y}
              && Replacement(d.containers[y], name, config, image, ResolveImage(d.images, image))
              && !Conflicting(config) && ResolveImage(d.images, image).Some?
              && (!SharesNamespace(config) ==> d.containers[y].ns.owner == y)
              && (Joins(old(d.containers), name, config, z) ==> JoinedTo(old(d.containers), d.containers, y, z))
    ensures r.Failure? && d.faults == old(d.faults) ==>
              !old(d.Creatable(name, config, image))
              || (SharesNamespace(config)
                  && !(Joins(old(d.containers), name, config, z) && old(d.containers)[z].running))
  {
    hide IsFullId, WellNamed, UniqueNames, NamespacesOwned, ImagesKept, Firm, Conflicting, Resolve, NameTaken,
      ContainerReference, Probe.IsPinned, FreshId, ResolveImage, BringUpState, BringUpRun;
    ghost var cs, issued, from := d.containers, d.issued, OriginOf(d.images, config, image);
    ghost var h0, h := d.history, d.history;
    var created := d.CreateFromSpec(name, config, image);
    UntouchedOnTheWay(cs, issued, name, from);
    if created.Failure? {
      BringUpRunStep(h0, h, cs, issued, cs, name, from);
      return Failure(created.error);
    }
    var y := created.value;
    CreatedOnTheWay(cs, issued, name, from, y, d.containers[y]);
    BringUpRunStep(h0, h, cs, issued, d.containers, name, from);
    h := d.history;
    ghost var made := d.containers;
    NamesUnique(cs, issued);
    StoredModeShares(cs, d.normalises, config);
    if Joins(cs, name, config, z) {
      StoredFirm(cs, issued, d.normalises, config, z, y, made[y]);
      FirmResolves(made, ModeReference(made[y].config).value, z);
      FirmResolves(cs, ModeReference(config).value, z);
    }
    ById(made, d.issued, y);
    var started := d.Start(y);
    assert d.containers == cs[y := d.containers[y]];
    CreatedOnTheWay(cs, issued, name, from, y, d.containers[y]);
    BringUpRunStep(h0, h, cs, issued, d.containers, name, from);
    if started.Failure? {
      return Failure(started.error);
    }
    if Joins(cs, name, config, z) {
      FirmAfterUpdate(made, d.containers, d.issued, ModeReference(made[y].config).value, z);
    }
    return Success(y);
  }

  /** `config` joins the namespace of `z`, by a reference that is not `name`. */
  ghost predicate Joins(cs: Containers, name: string, config: Config, z: Id) {
    && SharesNamespace(config)
    && ModeReference(config).value != name
    && Firm(cs, ModeReference(config).value, z)
  }

  ghost predicate JoinedTo(cs: Containers, s: Containers, y: Id, z: Id)
    requires y in s
  {
    && z in cs && s[y].ns == cs[z].ns
    && SharesNamespace(s[y].config) && Firm(s, ModeReference(s[y].config).value, z)
  }

  ghost predicate BringUpState(cs: Containers, issued: set<Id>, s: Containers, name: string, from: Origin) {
    && (forall y :: y in cs ==> y in s && s[y] == cs[y])
    && (forall y :: y in s && y !in cs ==> y !in issued && s[y].name == name && MadeFrom(s[y], from))
  }

  ghost predicate BringUpRun(h0: seq<Containers>, h: seq<Containers>, cs: Containers, issued: set<Id>, name: string,
                             from: Origin) {
    Continues(h0, h) && forall i :: |h0| <= i < |h| ==> BringUpState(cs, issued, h[i], name, from)
  }

  lemma CreatedOnTheWay(cs: Containers, issued: set<Id>, name: string, from: Origin, y: Id, c: Container)
    requires WellNamed(cs, issued) && FreshId(issued, y) && c.name == name && MadeFrom(c, from)
    ensures y !in cs && BringUpState(cs, issued, cs[y := c], name, from)
  {
  }

  lemma UntouchedOnTheWay(cs: Containers, issued: set<Id>, name: string, from: Origin)
    ensures BringUpState(cs, issued, cs, name, from)
    ensures forall h :: BringUpRun(h, h, cs, issued, name, from)
  {
  }

  lemma BringUpRunStep(h0: seq<Containers>, h: seq<Containers>, cs: Containers, issued: set<Id>, s: Containers,
                       name: string, from: Origin)
    requires BringUpRun(h0, h, cs, issued, name, from) && BringUpState(cs, issued, s, name, from)
    ensures BringUpRun(h0, h + [s], cs, issued, name, from)
  {
  }

  lemma BringUpContinues(h0: seq<Containers>, h: seq<Containers>, cs: Containers, issued: set<Id>, name: string,
                         from: Origin)
    requires BringUpRun(h0, h, cs, issued, name, from)
    ensures Continues(h0, h)
  {
  }

  lemma SwapRunJoin(h0: seq<Containers>, h1: seq<Containers>, h: seq<Containers>, cs: Containers, issued: set<Id>,
                    x: Id, archive: string, from: Origin)
    requires x in cs && IsArchiveOf(archive, cs[x].name)
    requires SwapRun(h0, h1, cs, issued, x, from)
    requires BringUpRun(h1, h, Parked(cs, x, archive), issued, cs[x].name, from)
    ensures SwapRun(h0, h, cs, issued, x, from)
  {
    forall i | |h0| <= i < |h|
      ensures SwapState(cs, issued, h[i], x, from)
    {
      if i < |h1| {
        assert h[i] == h1[i];
      } else {
        BringUpOnTheWay(cs, issued, h[i], x, archive, from);
      }
    }
  }

  lemma BringUpOnTheWay(cs: Containers, issued: set<Id>, s: Containers, x: Id, archive: string, from: Origin)
    requires x in cs && IsArchiveOf(archive, cs[x].name)
    requires BringUpState(Parked(cs, x, archive), issued, s, cs[x].name, from)
    ensures SwapState(cs, issued, s, x, from)
  {
    assert s[x] == Parked(cs, x, archive)[x];
    assert forall y :: y in cs && y != x ==> Parked(cs, x, archive)[y] == cs[y];
  }

  method SwapContainer(d: Daemon, name: string, config: Config, image: string, ghost x: Id, ghost z: Id)
    returns (r: Result<(string, Id), SwapError>)
    requires d.Valid() && x in d.containers && d.containers[x].name == name
    modifies d`containers, d`history, d`faults, d`issued, d`generation
    ensures d.Valid()
    ensures d.faults >= old(d.faults) && old(d.issued) <= d.issued
    ensures SwapRun(old(d.history), d.history, old(d.containers), old(d.issued), x, OriginOf(d.images, config, image))
    ensures SwapState(old(d.containers), old(d.issued), d.containers, x, OriginOf(d.images, config, image))
    ensures r.Failure? && r.error.StopFailed? ==>
              d.containers == old(d.containers) && d.history == old(d.history) + [d.containers]
    ensures !(r.Failure? && r.error.StopFailed?) ==> WasDown(old(d.history), d.history, x)
    ensures r.Failure? && r.error.AfterStop? && r.error.archive.None? ==>
              d.containers == WithRunning(old(d.containers), x, false)
    ensures r.Failure? && r.error.AfterStop? && r.error.archive.Some? ==>
              && IsArchiveOf(r.error.archive.value, name) && !NameTaken(old(d.containers), r.error.archive.value)
              && x in d.containers
              && d.containers[x] == Parked(old(d.containers), x, r.error.archive.value)[x]
    ensures r.Success? ==> LastIs(d.history, d.containers)
    ensures r.Success? ==>
              var archive, y := r.value.0, r.value.1;
              && IsArchiveOf(archive, name) && !NameTaken(old(d.containers), archive)
              && FreshId(old(d.issued), y) && d.issued == old(d.issued) + {y}
              && Swapped(old(d.containers), d.containers, x, archive, y)
              && Replacement(d.containers[y], name, config, image, ResolveImage(d.images, image))
              && !Conflicting(config) && ResolveImage(d.images, image).Some?
              && (!SharesNamespace(config) ==> d.containers[y].ns.owner == y)
              && (Joins(old(d.containers), name, config, z) && z != x ==>
                    JoinedTo(old(d.containers), d.containers, y, z))
    ensures d.faults == old(d.faults) && old(Unobstructed(d, x, config, image, z)) ==> r.Success?
  {
    hide IsFullId, WellNamed, UniqueNames, NamespacesOwned, ImagesKept, Firm, Conflicting, Resolve,
      ContainerReference, Probe.IsPinned, FreshId, ResolveImage, OthersKept, SwapState, BringUpState,
      BringUpRun, SwapRun, WasDown;
    ghost var cs, issued, h0, from := d.containers, d.issued, d.history, OriginOf(d.images, config, image);
    ByName(cs, issued, x);
    var down := TakeDown(d, name, x, from);
    ghost var h := d.history;
    if down.Failure? {
      OnTheWay(cs, issued, x, from);
      return Failure(down.error);
    }
    var archive := down.value;
    ghost var parked := d.containers;
    ArchiveDiffers(archive, name);
    ParkedNames(cs, issued, x, archive);
    if Joins(cs, name, config, z) && z != x {
      FirmAfterPark(cs, issued, ModeReference(config).value, z, x, archive);
    }
    var up := BringUp(d, name, config, image, z);
    BringUpContinues(h, d.history, parked, issued, name, from);
    DownStays(h0, h, d.history, x);
    AfterParked(cs, issued, x, archive, d.containers, from);
    BringUpOnTheWay(cs, issued, d.containers, x, archive, from);
    SwapRunJoin(h0, h, d.history, cs, issued, x, archive, from);
    match up {
      case Failure(e) => return Failure(AfterStop(e, Some(archive)));
      case Success(y) =>
        NotIssued(cs, issued, y);
        return Success((archive, y));
    }
  }

  lemma NotIssued(cs: Containers, issued: set<Id>, y: Id)
    requires WellNamed(cs, issued) && FreshId(issued, y)
    ensures y !in cs && y !in issued
  {
  }

  lemma AfterParked(cs: Containers, issued: set<Id>, x: Id, archive: string, s: Containers, from: Origin)
    requires x in cs && BringUpState(Parked(cs, x, archive), issued, s, cs[x].name, from)
    ensures x in s && s[x] == Parked(cs, x, archive)[x] && OthersKept(cs, s, x)
  {
    assert forall k :: k in cs && k != x ==> Parked(cs, x, archive)[k] == cs[k];
  }

  lemma ParkedNames(cs: Containers, issued: set<Id>, x: Id, archive: string)
    requires WellNamed(cs, issued) && x in cs && archive != cs[x].name
    ensures !NameTaken(Parked(cs, x, archive), cs[x].name)
  {
  }

  /** Whatever spelling the daemon stores, it still means `z` once the new
      container is there. */
  lemma StoredFirm(cs: Containers, issued: set<Id>, normalises: bool, config: Config, z: Id, y: Id, c: Container)
    requires WellNamed(cs, issued) && SharesNamespace(config) && Firm(cs, ModeReference(config).value, z)
    requires FreshId(issued, y)
    requires !NameTaken(cs, c.name) && !IsFullId(c.name) && c.name != ModeReference(config).value
    requires c.config.networkMode == StoredMode(cs, normalises, config)
    ensures SharesNamespace(c.config) && Firm(cs[y := c], ModeReference(c.config).value, z)
  {
    ReferenceOfPrefixed(z);
    if normalises {
      assert ModeReference(c.config) == Some(z);
      assert UniqueNames(cs[y := c]);
    } else {
      FirmAfterAdd(cs, issued, ModeReference(config).value, z, y, c);
    }
  }
}
