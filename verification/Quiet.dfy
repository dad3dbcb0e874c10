/** Why the scheduler comes to rest: with one digest upstream, what an update has
    put in a container's place is not found behind again, whatever other updates,
    repairs and rollbacks go over it. */
module Quiet {
  import opened Wrappers
  import opened Docker
  import opened Schedule
  import opened Turns
  import Cycle
  import Planner
  import Probe
  import Reattach
  import Recreate
  import Registry
  import Rename
  import Rollout
  import Swap
  import Text

  // ----- one reference and one digest -----

  /** A container by its name, the reference it is on, what upstream serves for
      that, its compose project, and since when it is watched: the length that
      the trace and the record of pulls had then. */
  datatype Watch = Watch(
    name: string,
    ref: Registry.ImageRef,
    digest: string,
    project: Option<string>,
    since: nat,
    pulled: nat)

  /** The three normalisers agree on the repository: see
      `Registry.FamiliarAgrees`. */
  predicate WellSpelled(image: string) {
    !Registry.IsBareHubHost(Registry.StripTag(image)) && !Registry.HasNestedHubHost(Registry.StripTag(image))
  }

  predicate OnRef(w: Watch, image: string) {
    Probe.IsPinned(image) || (Registry.Parse(image) == w.ref && WellSpelled(image))
  }

  /** Its name, or a place in its project. */
  predicate Concerned(w: Watch, c: Container) {
    c.name == w.name || (w.project.Some? && InProject(c, w.project.value))
  }

  ghost predicate Placed(w: Watch, c: Container) {
    && (Concerned(w, c) ==> OnRef(w, c.config.image))
    && (c.name == w.name ==> forall p :: InProject(c, p) ==> w.project == Some(p))
  }

  /** All members of the project are on the one reference, or pinned. */
  ghost predicate AllOnRef(w: Watch, cs: Containers) { forall x :: x in cs ==> Placed(w, cs[x]) }

  ghost predicate WasPulled(w: Watch, pulls: seq<Pulled>) {
    exists i :: w.pulled <= i < |pulls| && pulls[i] == Pulled(w.ref, w.digest)
  }

  /** The container runs what upstream has, and that has been pulled since. */
  ghost predicate Fit(w: Watch, pulls: seq<Pulled>, contentOf: string -> ImageId, image: string,
                      imageId: Option<ImageId>) {
    Probe.IsPinned(image) || (imageId == Some(contentOf(w.digest)) && WasPulled(w, pulls))
  }

  ghost predicate FitIn(w: Watch, b: World, c: Container) {
    Fit(w, b.pulls, b.contentOf, c.config.image, c.imageId)
  }

  /** Whoever has the name is fit. */
  ghost predicate NamedFit(w: Watch, b: World) {
    forall x :: x in b.containers && b.containers[x].name == w.name ==> FitIn(w, b, b.containers[x])
  }

  ghost predicate HonestPulls(w: Watch, pulls: seq<Pulled>) {
    forall i :: w.pulled <= i < |pulls| && pulls[i].ref == w.ref ==> pulls[i].digest == w.digest
  }

  lemma FitStays(w: Watch, a: World, b: World, c: Container)
    requires FitIn(w, a, c) && PullsKept(a.pulls, b.pulls) && b.contentOf == a.contentOf
    ensures FitIn(w, b, c)
  {
    if !Probe.IsPinned(c.config.image) {
      var i :| w.pulled <= i < |a.pulls| && a.pulls[i] == Pulled(w.ref, w.digest);
      assert b.pulls[i] == b.pulls[..|a.pulls|][i];
    }
  }

  // ----- a fit container is not found behind -----

  lemma {:induction false} LastServedIs(w: Watch, pulls: seq<Pulled>)
    requires HonestPulls(w, pulls) && WasPulled(w, pulls)
    ensures LastServed(pulls, w.ref) == Some(w.digest)
    decreases |pulls|
  {
    var front, last := pulls[..|pulls| - 1], pulls[|pulls| - 1];
    if last.ref != w.ref {
      var i :| w.pulled <= i < |pulls| && pulls[i] == Pulled(w.ref, w.digest);
      assert front[i] == pulls[i];
      LastServedIs(w, front);
    }
  }

  lemma NoAtSign(image: string)
    requires '@' !in image
    ensures '@' !in Registry.Parse(image).repository
    ensures Probe.WantedRepository(image) == Registry.FamiliarRepository(Registry.StripTag(image))
  {
    hide Registry.FamiliarRepository;
  }

  lemma Spelled(image: string)
    requires '@' !in image && WellSpelled(image)
    ensures Probe.WantedRepository(image) == Registry.FamiliarRepository(Registry.Parse(image).repository)
  {
    hide Registry.FamiliarRepository, Registry.Parse, Registry.StripTag, Registry.IsBareHubHost,
      Registry.HasNestedHubHost, Probe.WantedRepository;
    NoAtSign(image);
    Registry.FamiliarAgrees(image);
  }

  /** The daemon's records show a container of a pulled reference to be current,
      whenever they show anything. */
  lemma FitIsQuiet(w: Watch, a: World, at: World, f: Findings)
    requires Inspects(a, at, f.target.image, f.inspected) && TagsServed(at.images, at.pulls, at.contentOf)
    requires HonestPulls(w, at.pulls) && OnRef(w, f.target.image)
    requires Fit(w, at.pulls, at.contentOf, f.target.image, f.target.imageId)
    requires Seen(f).Some? && Seen(f).value.0 == w.digest
    ensures Seen(f).value.1 != Some(true)
  {
    hide Registry.Parse, WellSpelled, Probe.LocalManifestDigests, RecordsPull, DigestsOf, Probe.UpdateAvailableFor,
      Probe.WantedRepository, Registry.FamiliarRepository;
    if f.inspected.Some? {
      var image, local := f.target.image, f.inspected.value;
      var i := ResolveImage(at.images, image).value;
      LastServedIs(w, at.pulls);
      assert Carries(at.images, w.ref, w.digest, at.contentOf);
      NoAtSign(image);
      Spelled(image);
      var entry :| entry in DigestsOf(at.images, i) && RecordsPull(entry, w.ref, w.digest);
      var repo := RepositoryOf(entry, w.ref, w.digest);
      Probe.CurrentIsUpToDate(image, local.repoDigests, w.digest, repo, f.target.imageId);
      UnnamedTag(Probe.LocalManifestDigests(image, local.repoDigests), w.digest, f.target.imageId);
    } else {
      NoDigests(w.digest, f.target.imageId);
    }
  }

  lemma NoDigests(latest: string, running: Option<string>)
    ensures Probe.UpdateAvailableFor([], latest, running, None) == None
  {
  }

  lemma UnnamedTag(digests: seq<string>, latest: string, running: Option<string>)
    ensures Probe.UpdateAvailableFor(digests, latest, running, None) ==
            Probe.UpdateAvailableFor(digests, latest, running, running)
  {
  }

  lemma RepositoryOf(entry: string, ref: Registry.ImageRef, digest: string) returns (repo: string)
    requires RecordsPull(entry, ref, digest)
    ensures '@' !in repo && entry == repo + "@" + digest
    ensures Registry.FamiliarRepository(repo) == Registry.FamiliarRepository(ref.repository)
  {
    hide Registry.FamiliarRepository;
    repo := Text.SplitOnce(entry, '@').value.0;
    assert entry == repo + ['@'] + digest;
  }

  // ----- who descends from whom -----

  /** `c` is `was`, or a container made in its place, perhaps parked. */
  ghost predicate Kin(was: Container, c: Container) {
    && c.config.labels == was.config.labels
    && (c.config.image == was.config.image || Probe.IsPinned(c.config.image))
    && (c.name == was.name || Rename.CouldBeArchive(c.name))
  }

  ghost predicate HasKin(cs0: Containers, c: Container) { exists x :: x in cs0 && Kin(cs0[x], c) }

  ghost predicate AllKin(cs0: Containers, s: Containers) { forall y :: y in s ==> HasKin(cs0, s[y]) }

  lemma KinItself(cs: Containers)
    ensures AllKin(cs, cs)
  {
    forall x | x in cs
      ensures HasKin(cs, cs[x])
    {
      assert Kin(cs[x], cs[x]);
    }
  }

  lemma AllKinJoin(a: Containers, b: Containers, c: Containers)
    requires AllKin(a, b) && AllKin(b, c)
    ensures AllKin(a, c)
  {
    hide Probe.IsPinned, Rename.CouldBeArchive;
    forall z | z in c
      ensures HasKin(a, c[z])
    {
      var y :| y in b && Kin(b[y], c[z]);
      var x :| x in a && Kin(a[x], b[y]);
      assert Kin(a[x], c[z]);
    }
  }

  lemma KinPlaced(w: Watch, was: Container, c: Container)
    requires Kin(was, c) && Placed(w, was) && !Rename.CouldBeArchive(w.name)
    ensures Placed(w, c)
  {
    hide Rename.CouldBeArchive, WellSpelled, Registry.Parse;
    forall p | c.name == w.name && InProject(c, p)
      ensures w.project == Some(p)
    {
      assert InProject(was, p);
    }
  }

  lemma AllKinOnRef(w: Watch, cs0: Containers, s: Containers)
    requires AllKin(cs0, s) && AllOnRef(w, cs0) && !Rename.CouldBeArchive(w.name)
    ensures AllOnRef(w, s)
  {
    hide Placed, Kin;
    forall y | y in s
      ensures Placed(w, s[y])
    {
      var x :| x in cs0 && Kin(cs0[x], s[y]);
      KinPlaced(w, cs0[x], s[y]);
    }
  }

  lemma ParkedKin(was: Container, c: Container)
    requires Swap.Parkable(was, c)
    ensures Kin(was, c)
  {
    hide Rename.CouldBeArchive, Rename.IsArchiveOf;
    if c.name != was.name { Rename.ArchiveCouldBe(c.name, was.name); }
  }

  lemma CycleKin(cs0: Containers, issued: set<Id>, s: Containers, o: Id, deps: set<string>, from: Swap.Origin)
    requires o in cs0 && Cycle.CycleState(cs0, issued, s, o, deps, from)
    requires from.image == cs0[o].config.image && from.labels == cs0[o].config.labels
    ensures AllKin(cs0, s)
  {
    hide Kin, Swap.Parkable, Reattach.Doubles, Swap.MadeFrom;
    forall y | y in s
      ensures HasKin(cs0, s[y])
    {
      if y in cs0 {
        if y != o && cs0[y].name in deps { assert Reattach.Accounted(cs0, issued, s, y); }
        if Swap.Parkable(cs0[y], s[y]) { ParkedKin(cs0[y], s[y]); } else { SameKin(cs0[y]); }
      } else {
        NewKin(cs0, s[y], o, deps, from);
      }
    }
  }

  lemma SameKin(c: Container)
    ensures Kin(c, c)
  {
  }

  lemma NewKin(cs0: Containers, c: Container, o: Id, deps: set<string>, from: Swap.Origin)
    requires o in cs0 && Cycle.IsNew(cs0, c, o, deps, from)
    requires from.image == cs0[o].config.image && from.labels == cs0[o].config.labels
    ensures HasKin(cs0, c)
  {
    if c.name == cs0[o].name && Swap.MadeFrom(c, from) {
      assert Kin(cs0[o], c);
    } else {
      var x :| x in cs0 && cs0[x].name == c.name && Reattach.SameBits(cs0[x], c);
      assert Kin(cs0[x], c);
    }
  }

  lemma UpdateKin(g: Rollout.Stage)
    requires Rollout.IsUpdate(g)
    ensures AllKin(g.before.containers, g.after.containers)
  {
    hide Cycle.CycleState, Cycle.CycleRun, Resolve, WellNamed, Recreate.AreDependents, Recreate.ServedNow, Swap.WasDown,
      AllKin;
    KinItself(g.before.containers);
    if g.course.down {
      CycleKin(g.before.containers, g.before.issued, g.after.containers, g.course.owner.value, g.course.deps,
               g.course.from);
    }
  }

  lemma {:induction false} ChainKin(stages: seq<Rollout.Stage>, a: World, b: World)
    requires Rollout.Chained(stages, a, b)
    ensures AllKin(a.containers, b.containers)
    decreases |stages|
  {
    hide AllKin, Rollout.IsUpdate;
    if stages == [] {
      KinItself(a.containers);
    } else {
      var last := stages[|stages| - 1];
      ChainKin(stages[..|stages| - 1], a, last.before);
      UpdateKin(last);
      AllKinJoin(a.containers, last.before.containers, b.containers);
    }
  }

  lemma RestartKin(m: World, b: World, names: seq<string>)
    requires Rollout.AfterRestarts(m, b, names)
    ensures AllKin(m.containers, b.containers)
  {
    forall y | y in b.containers
      ensures HasKin(m.containers, b.containers[y])
    {
      assert Kin(m.containers[y], b.containers[y]);
    }
  }

  lemma WentKin(a: World, b: World, run: Rollout.Run)
    requires Went(a, b, run)
    ensures AllKin(a.containers, b.containers) && PullsKept(a.pulls, b.pulls) && b.contentOf == a.contentOf
    ensures PullsKept(run.middle.pulls, b.pulls) && run.middle.contentOf == b.contentOf
  {
    hide AllKin, Rollout.Chained, Rollout.RestartState, Rollout.RestartRun, Planned;
    ChainKin(run.stages, run.start, run.middle);
    Rollout.ChainedFaults(run.stages, run.start, run.middle);
    KinItself(run.middle.containers);
    if b != run.middle { RestartKin(run.middle, b, Planned(run)); }
    AllKinJoin(a.containers, run.middle.containers, b.containers);
  }

  // ----- what an update does to a watched container -----

  /** What is made from a reference that upstream serves one digest for. */
  lemma FromFits(w: Watch, before: seq<Pulled>, pulls: seq<Pulled>, contentOf: string -> ImageId, from: Swap.Origin)
    requires Recreate.ServedNow(before, pulls, contentOf, from.image, from.imageId) && HonestPulls(w, pulls)
    requires w.pulled <= |before| && OnRef(w, from.image)
    ensures Fit(w, pulls, contentOf, from.image, from.imageId)
  {
    hide Registry.Parse;
    assert pulls[|before|].ref == Registry.Parse(from.image);
  }

  lemma DoubleFits(w: Watch, b: World, was: Container, c: Container)
    requires Reattach.SameBits(was, c) && FitIn(w, b, was)
    ensures FitIn(w, b, c)
  {
  }

  lemma NamedOwner(cs: Containers, issued: set<Id>, x: Id, name: string)
    requires WellNamed(cs, issued) && x in cs && cs[x].name == name
    ensures Resolve(cs, name) == Some(x)
  {
    Swap.ByName(cs, issued, x);
  }

  lemma SameOne(cs: Containers, issued: set<Id>, x: Id, y: Id)
    requires WellNamed(cs, issued) && x in cs && y in cs && cs[x].name == cs[y].name
    ensures x == y
  {
  }

  lemma NamedKin(cs0: Containers, s: Containers, name: string, y: Id)
    returns (x: Id)
    requires AllKin(cs0, s) && y in s && s[y].name == name && !Rename.CouldBeArchive(name)
    ensures x in cs0 && cs0[x].name == name && Kin(cs0[x], s[y])
  {
    hide Rename.CouldBeArchive;
    assert HasKin(cs0, s[y]);
    x :| x in cs0 && Kin(cs0[x], s[y]);
  }

  /** An update that went through leaves the container of its name fit. */
  lemma LandingFits(w: Watch, g: Rollout.Stage)
    requires Rollout.IsUpdate(g) && RenewedAt(g, w.name)
    requires AllOnRef(w, g.before.containers) && HonestPulls(w, g.after.pulls) && !Rename.CouldBeArchive(w.name)
    requires w.pulled <= |g.before.pulls|
    ensures NamedFit(w, g.after)
  {
    hide Cycle.CycleState, Cycle.CycleRun, WellNamed, Recreate.AreDependents, Recreate.ServedNow, Swap.WasDown,
      AllKin, Resolve, OnRef, Rename.CouldBeArchive, Fit, HonestPulls, Kin, ResolveImage;
    var a, b, c := g.before, g.after, g.course;
    UpdateKin(g);
    forall y | y in b.containers && b.containers[y].name == w.name
      ensures FitIn(w, b, b.containers[y])
    {
      var x := NamedKin(a.containers, b.containers, w.name, y);
      NamedOwner(a.containers, a.issued, x, w.name);
      SameOne(b.containers, b.issued, y, c.tried);
      assert Placed(w, a.containers[x]);
      FromFits(w, a.pulls, b.pulls, b.contentOf, c.from);
    }
  }

  /** Any other update leaves it as fit as it was. */
  lemma UpdateKeepsFit(w: Watch, g: Rollout.Stage)
    requires Rollout.IsUpdate(g) && NamedFit(w, g.before) && w.pulled <= |g.before.pulls|
    requires AllOnRef(w, g.before.containers) && HonestPulls(w, g.after.pulls) && !Rename.CouldBeArchive(w.name)
    ensures NamedFit(w, g.after)
  {
    hide Cycle.CycleState, Cycle.CycleRun, WellNamed, Recreate.AreDependents, Recreate.ServedNow, Swap.WasDown,
      Resolve, OnRef, Rename.CouldBeArchive, FitIn, HonestPulls;
    var a, b, c := g.before, g.after, g.course;
    forall y | y in b.containers && b.containers[y].name == w.name
      ensures FitIn(w, b, b.containers[y])
    {
      if !c.down {
        FitStays(w, a, b, b.containers[y]);
      } else {
        assert Placed(w, a.containers[c.owner.value]);
        CycleKeepsFit(w, a, b, c.owner.value, c.deps, c.from, y);
      }
    }
  }

  lemma CycleKeepsFit(w: Watch, a: World, b: World, o: Id, deps: set<string>, from: Swap.Origin, y: Id)
    requires o in a.containers && Cycle.CycleState(a.containers, a.issued, b.containers, o, deps, from)
    requires NamedFit(w, a) && PullsKept(a.pulls, b.pulls) && b.contentOf == a.contentOf
    requires !Rename.CouldBeArchive(w.name) && HonestPulls(w, b.pulls)
    requires a.containers[o].name == w.name ==> OnRef(w, from.image)
    requires Recreate.ServedNow(a.pulls, b.pulls, b.contentOf, from.image, from.imageId) && w.pulled <= |a.pulls|
    requires y in b.containers && b.containers[y].name == w.name
    ensures FitIn(w, b, b.containers[y])
  {
    hide FitIn, Recreate.ServedNow, HonestPulls, OnRef, Rename.CouldBeArchive, Reattach.SameBits, Fit, PullsKept;
    var cs0, s := a.containers, b.containers;
    if y in cs0 {
      if y != o && cs0[y].name in deps { assert Reattach.Accounted(cs0, a.issued, s, y); }
      if Swap.Parkable(cs0[y], s[y]) { ParkedKin(cs0[y], s[y]); }
      assert cs0[y].name == w.name && s[y].config == cs0[y].config && s[y].imageId == cs0[y].imageId;
      FitStays(w, a, b, cs0[y]);
      SameImageFits(w, b, cs0[y], s[y]);
    } else if s[y].name == cs0[o].name && Swap.MadeFrom(s[y], from) {
      FromFits(w, a.pulls, b.pulls, b.contentOf, from);
      MadeFits(w, b, s[y], from);
    } else {
      var x :| x in cs0 && cs0[x].name == s[y].name && Reattach.SameBits(cs0[x], s[y]);
      FitStays(w, a, b, cs0[x]);
      DoubleFits(w, b, cs0[x], s[y]);
    }
  }

  lemma SameImageFits(w: Watch, b: World, was: Container, c: Container)
    requires FitIn(w, b, was) && c.config == was.config && c.imageId == was.imageId
    ensures FitIn(w, b, c)
  {
  }

  lemma MadeFits(w: Watch, b: World, c: Container, from: Swap.Origin)
    requires Fit(w, b.pulls, b.contentOf, from.image, from.imageId) && Swap.MadeFrom(c, from)
    ensures FitIn(w, b, c)
  {
  }

  lemma HonestBefore(w: Watch, a: seq<Pulled>, b: seq<Pulled>)
    requires HonestPulls(w, b) && PullsKept(a, b)
    ensures HonestPulls(w, a)
  {
    assert forall i :: 0 <= i < |a| ==> b[..|a|][i] == b[i];
  }

  /** A rollout leaves a watched container fit if it was or if the rollout has
      landed on it. */
  lemma {:induction false} ChainFits(w: Watch, stages: seq<Rollout.Stage>, a: World, b: World)
    requires Rollout.Chained(stages, a, b)
    requires AllOnRef(w, a.containers) && HonestPulls(w, b.pulls) && !Rename.CouldBeArchive(w.name)
    requires w.pulled <= |a.pulls|
    requires NamedFit(w, a) || exists i :: 0 <= i < |stages| && RenewedAt(stages[i], w.name)
    ensures NamedFit(w, b)
    decreases |stages|
  {
    hide NamedFit, Rollout.IsUpdate, HonestPulls, AllOnRef, RenewedAt, PullsKept, Rename.CouldBeArchive;
    if stages != [] {
      var front, last := stages[..|stages| - 1], stages[|stages| - 1];
      ChainKin(front, a, last.before);
      AllKinOnRef(w, a.containers, last.before.containers);
      PullsGrow(front, a, last.before);
      if RenewedAt(last, w.name) {
        LandingFits(w, last);
      } else {
        Rollout.UpdateGrows(last);
        HonestBefore(w, last.before.pulls, b.pulls);
        if !NamedFit(w, a) {
          var i :| 0 <= i < |stages| && RenewedAt(stages[i], w.name);
          assert front[i] == stages[i];
        }
        ChainFits(w, front, a, last.before);
        UpdateKeepsFit(w, last);
      }
    }
  }

  lemma PullsGrow(stages: seq<Rollout.Stage>, a: World, b: World)
    requires Rollout.Chained(stages, a, b)
    ensures |a.pulls| <= |b.pulls|
  {
    Rollout.ChainedFaults(stages, a, b);
  }

  lemma RestartsKeepFit(w: Watch, m: World, b: World, names: seq<string>)
    requires Rollout.AfterRestarts(m, b, names) && NamedFit(w, m)
    ensures NamedFit(w, b)
  {
    hide FitIn;
    forall y | y in b.containers && b.containers[y].name == w.name
      ensures FitIn(w, b, b.containers[y])
    {
      FitStays(w, m, b, m.containers[y]);
      SameImageFits(w, b, m.containers[y], b.containers[y]);
    }
  }

  lemma LandingRenews(run: Rollout.Run, n: string, answers: Answers, settings: Settings)
    requires Landing(run, n, answers, settings)
    ensures exists i :: 0 <= i < |run.stages| && RenewedAt(run.stages[i], n)
  {
    hide RenewedAt, LetPass;
  }

  lemma WentFits(w: Watch, a: World, b: World, run: Rollout.Run)
    requires Went(a, b, run) && AllOnRef(w, a.containers) && HonestPulls(w, b.pulls) && !Rename.CouldBeArchive(w.name)
    requires NamedFit(w, a) || exists i :: 0 <= i < |run.stages| && RenewedAt(run.stages[i], w.name)
    requires w.pulled <= |a.pulls|
    ensures NamedFit(w, b)
  {
    hide FitIn, Rollout.Chained, Rollout.RestartState, Rollout.RestartRun, Planned, AllOnRef, HonestPulls, RenewedAt,
      Rename.CouldBeArchive;
    WentKin(a, b, run);
    HonestBefore(w, run.middle.pulls, b.pulls);
    if NamedFit(w, a) {
      forall x | x in a.containers && a.containers[x].name == w.name
        ensures FitIn(w, run.start, a.containers[x])
      {
        FitStays(w, a, run.start, a.containers[x]);
      }
    }
    ChainFits(w, run.stages, run.start, run.middle);
    if b != run.middle { RestartsKeepFit(w, run.middle, b, Planned(run)); }
  }

  // ----- what a run knows of a watched container -----

  ghost predicate HonestProbes(w: Watch, trace: seq<Event>) {
    forall i :: w.since <= i < |trace| && trace[i].Probed? && trace[i].ref == w.ref ==> trace[i].latest == w.digest
  }

  /** Nobody is looked at who goes by a name that only a clock before the epoch
      gives to an archive. */
  ghost predicate NoneEarly(w: Watch, trace: seq<Event>) {
    forall i :: w.since <= i < |trace| && trace[i].Checked? ==> !Rename.IsEarlyName(trace[i].name)
  }

  /** Upstream has been at the one digest since: every pull and every probe of
      the reference says so. And archives are told apart from what they were. */
  ghost predicate Honest(w: Watch, trace: seq<Event>, b: World) {
    && HonestPulls(w, b.pulls) && HonestProbes(w, trace)
    && NoneEarly(w, trace) && !Rename.CouldBeArchive(w.name)
  }

  ghost predicate Tracked(w: Watch, trace: seq<Event>, b: World) {
    && AllOnRef(w, b.containers) && w.pulled <= |b.pulls|
    && (LandedOn(trace, w.since, w.name) ==> NamedFit(w, b))
    && Consistent(w, trace)
  }

  lemma WatchedBefore(w: Watch, trace: seq<Event>, b: World)
    requires Tracked(w, trace, b)
    ensures w.since <= |trace| && w.pulled <= |b.pulls|
  {
    hide LandedOn, LandingHolds, OneUpstream, AllOnRef, NamedFit;
  }

  lemma PullsLonger(a: seq<Pulled>, b: seq<Pulled>)
    requires PullsKept(a, b)
    ensures |a| <= |b|
  {
  }

  lemma NothingTracked(w: Watch, trace: seq<Event>, b: World)
    requires AllOnRef(w, b.containers) && w.since == |trace| && w.pulled == |b.pulls|
    ensures Tracked(w, trace, b)
  {
  }

  lemma HonestLess(w: Watch, t: seq<Event>, a: World, longer: seq<Event>, b: World)
    requires Honest(w, longer, b) && |t| <= |longer| && longer[..|t|] == t && PullsKept(a.pulls, b.pulls)
    ensures Honest(w, t, a)
  {
    hide Rename.CouldBeArchive, HonestPulls;
    HonestBefore(w, a.pulls, b.pulls);
    assert forall i :: 0 <= i < |t| ==> longer[i] == longer[..|t|][i];
  }

  lemma LandedPush(trace: seq<Event>, e: Event, since: nat, c: string)
    requires since <= |trace|
    ensures LandedOn(trace + [e], since, c) <==> LandedOn(trace, since, c) || (e.Landed? && Covers(e, c))
  {
    var longer := trace + [e];
    assert longer[|trace|] == e && forall i :: 0 <= i < |trace| ==> longer[i] == trace[i];
    if LandedOn(trace, since, c) {
      var i :| since <= i < |trace| && trace[i].Landed? && Covers(trace[i], c);
      assert longer[i].Landed?;
    }
  }

  lemma HoldsPush(trace: seq<Event>, e: Event, since: nat, c: string)
    requires LandingHolds(trace, since, c)
    requires e.Probed? && e.name == c && LandedOn(trace, since, c) ==> e.available != Some(true)
    ensures LandingHolds(trace + [e], since, c)
  {
    hide LandedOn;
    var longer := trace + [e];
    forall j | since <= j < |longer| && longer[j].Probed? && longer[j].name == c && LandedOn(longer[..j], since, c)
      ensures longer[j].available != Some(true)
    {
      if j < |trace| { assert longer[..j] == trace[..j]; } else { assert longer[..j] == trace; }
    }
  }

  /** The trace half of `Tracked`. */
  ghost predicate Consistent(w: Watch, trace: seq<Event>) {
    && w.since <= |trace|
    && LandingHolds(trace, w.since, w.name) && OneUpstream(trace, w.since, w.name, w.digest)
  }

  lemma ConsistentPush(w: Watch, trace: seq<Event>, e: Event)
    requires Consistent(w, trace)
    requires e.Probed? && e.name == w.name && LandedOn(trace, w.since, w.name) ==> e.available != Some(true)
    requires Covers(e, w.name) ==> e.digest == w.digest
    ensures Consistent(w, trace + [e])
    ensures LandedOn(trace + [e], w.since, w.name) <==>
            LandedOn(trace, w.since, w.name) || (e.Landed? && Covers(e, w.name))
  {
    hide LandedOn, LandingHolds;
    HoldsPush(trace, e, w.since, w.name);
    LandedPush(trace, e, w.since, w.name);
  }

  predicate Neutral(e: Event) { !e.Probed? && !e.Rejected? && !e.Landed? }

  /** Bookkeeping and faults do not disturb it. */
  lemma TrackedPush(w: Watch, trace: seq<Event>, e: Event, a: World, b: World)
    requires Tracked(w, trace, a) && Neutral(e) && Rollout.Unmoved(a, b)
    ensures Tracked(w, trace + [e], b)
  {
    hide LandedOn, LandingHolds, OneUpstream, AllOnRef;
    ConsistentPush(w, trace, e);
    if LandedOn(trace, w.since, w.name) { UnmovedFit(w, a, b); }
  }

  lemma UnmovedFit(w: Watch, a: World, b: World)
    requires Rollout.Unmoved(a, b) && NamedFit(w, a)
    ensures NamedFit(w, b)
  {
  }

  lemma TrackedUnmoved(w: Watch, trace: seq<Event>, a: World, b: World)
    requires Tracked(w, trace, a) && Rollout.Unmoved(a, b)
    ensures Tracked(w, trace, b)
  {
    hide LandedOn, LandingHolds, OneUpstream, AllOnRef;
    if LandedOn(trace, w.since, w.name) { UnmovedFit(w, a, b); }
  }

  // ----- one turn -----

  /** What the tick relies on since its listing, made in the world `s` when the
      trace was `t0`: every container descends from one of those listed, and what
      has landed since is claimed. */
  ghost predicate Since(t0: seq<Event>, s: World, trace: seq<Event>, b: World) {
    && WellNamed(s.containers, s.issued)
    && AllKin(s.containers, b.containers) && PullsKept(s.pulls, b.pulls) && b.contentOf == s.contentOf
    && |t0| <= |trace| && forall n :: LandedOn(trace, |t0|, n) ==> n in After(trace).handled
  }

  /** A landing is older than the tick or was made in it. */
  lemma LandedWhen(trace: seq<Event>, t0: seq<Event>, since: nat, n: string)
    requires |t0| <= |trace| && trace[..|t0|] == t0 && LandedOn(trace, since, n)
    ensures LandedOn(t0, since, n) || LandedOn(trace, |t0|, n)
  {
    var i :| since <= i < |trace| && trace[i].Landed? && Covers(trace[i], n);
    if i < |t0| { assert t0[i] == trace[i]; }
  }

  ghost predicate ListedIn(s: World, row: Listed) {
    row.id in s.containers && row == RowOf(row.id, s.containers[row.id])
  }

  function HandledAfter(handled: set<string>, e: Event): set<string> {
    match e
    case TickStarted => {}
    case Claimed(names) => handled + Names(names)
    case _ => handled
  }

  lemma HandledPush(trace: seq<Event>, e: Event)
    ensures After(trace + [e]).handled == HandledAfter(After(trace).handled, e)
  {
    hide WithFailed, Schedule.Without, Kept;
    assert (trace + [e])[..|trace|] == trace;
  }

  /** A row of a watched container that was fit when listed is not found behind. */
  lemma RowIsQuiet(w: Watch, k: Case, t: Turn, s: World, a: World)
    requires Asked(t, k, a) && ListedIn(s, k.row) && k.row.name == w.name
    requires AllOnRef(w, s.containers) && NamedFit(w, s) && HonestPulls(w, a.pulls)
    requires PullsKept(s.pulls, a.pulls) && a.contentOf == s.contentOf
    requires Seen(t.found).Some? && (Registry.Parse(k.row.image) == w.ref ==> Seen(t.found).value.0 == w.digest)
    ensures Seen(t.found).value.1 != Some(true)
  {
    hide TagsServed, Inspects, ResolveImage, Registry.Parse, WellSpelled, HonestPulls, Probe.IsPinned,
      Probe.LocalManifestDigests, Probe.UpdateAvailableFor, PullsKept, Probe.UpdateAvailable;
    var c := s.containers[k.row.id];
    assert Placed(w, c) && FitIn(w, s, c);
    FitStays(w, s, t.inspectedAt, c);
    NotPinned(t.found);
    FitIsQuiet(w, a, t.inspectedAt, t.found);
  }

  lemma NotPinned(f: Findings)
    requires Seen(f).Some?
    ensures !Probe.IsPinned(f.target.image)
  {
    hide Probe.IsPinned;
  }

  /** Whatever an outcome names lies within reach of its trigger, so the trigger
      is on the watched reference and its digest is the one. */
  lemma ReachIsOnRef(w: Watch, row: Listed, q: Request, s: World, at: World)
    requires ListedIn(s, row) && q.name == row.name && !Rename.CouldBeArchive(row.name)
    requires WellNamed(s.containers, s.issued) && AllKin(s.containers, at.containers)
    requires AllOnRef(w, s.containers) && AllOnRef(w, at.containers) && !Rename.CouldBeArchive(w.name)
    requires Reached(at, q, w.name)
    ensures OnRef(w, row.image)
  {
    hide WellNamed, OnRef, Rename.CouldBeArchive, AllKin;
    var c := s.containers[row.id];
    assert Placed(w, c);
    if w.name != row.name {
      var project :| InProjectNamed(at.containers, project, w.name) && InProjectNamed(at.containers, project, q.name);
      var x :| x in at.containers && InProject(at.containers[x], project) && at.containers[x].name == w.name;
      assert Placed(w, at.containers[x]);
      var y :| y in at.containers && InProject(at.containers[y], project) && at.containers[y].name == row.name;
      var z := NamedKin(s.containers, at.containers, row.name, y);
      SameOne(s.containers, s.issued, z, row.id);
      assert InProject(c, project);
    }
  }

  /** The turn records a landing on `n`. */
  predicate LandsOn(k: Case, t: Turn, n: string) {
    Calls(k.policy, Seen(t.found), k.lastFailed) && t.p.outcome.Some? && t.p.outcome.value.HasLanded?
    && n in t.p.outcome.value.containers
  }

  /** The events of a turn, one after the other. */
  lemma StoryInSteps(k: Case, now: nat, t: Turn, t1: seq<Event>)
    ensures
      var ta := t1 + [Checked(k.row.name, k.policy.mode, now)];
      var tb := ta + ProbeEvents(k, t.found);
      var tc := tb + NoticeEvents(k, t.found);
      t1 + Story(k, now, t) == tc + OutcomeEvents(k, t) + [Claimed(t.p.handled)]
  {
    hide ProbeEvents, NoticeEvents, OutcomeEvents;
  }

  lemma OptionalPush(w: Watch, trace: seq<Event>, es: seq<Event>)
    requires Consistent(w, trace) && |es| <= 1
    requires forall e :: e in es ==>
               && (e.Probed? && e.name == w.name && LandedOn(trace, w.since, w.name) ==> e.available != Some(true))
               && (Covers(e, w.name) ==> e.digest == w.digest)
    ensures Consistent(w, trace + es)
    ensures LandedOn(trace + es, w.since, w.name) <==>
            LandedOn(trace, w.since, w.name) || exists e :: e in es && e.Landed? && Covers(e, w.name)
  {
    hide Consistent, LandedOn;
    if es == [] {
      assert trace + es == trace;
    } else {
      assert es == [es[0]];
      ConsistentPush(w, trace, es[0]);
    }
  }

  lemma StoryConsistent(w: Watch, k: Case, now: nat, t: Turn, t1: seq<Event>)
    requires Consistent(w, t1)
    requires Seen(t.found).Some? && k.row.name == w.name && LandedOn(t1, w.since, w.name) ==>
               Seen(t.found).value.1 != Some(true)
    requires forall e :: e in OutcomeEvents(k, t) && Covers(e, w.name) ==> e.digest == w.digest
    ensures Consistent(w, t1 + Story(k, now, t))
  {
    hide Consistent, LandedOn, Seen, Calls, CallsOut;
    var ta := t1 + [Checked(k.row.name, k.policy.mode, now)];
    var tb := ta + ProbeEvents(k, t.found);
    var tc := tb + NoticeEvents(k, t.found);
    OptionalPush(w, t1, [Checked(k.row.name, k.policy.mode, now)]);
    OptionalPush(w, ta, ProbeEvents(k, t.found));
    OptionalPush(w, tb, NoticeEvents(k, t.found));
    OptionalPush(w, tc, OutcomeEvents(k, t));
    OptionalPush(w, tc + OutcomeEvents(k, t), [Claimed(t.p.handled)]);
    StoryInSteps(k, now, t, t1);
  }

  lemma OptionalLanded(trace: seq<Event>, es: seq<Event>, since: nat, n: string)
    requires |es| <= 1 && since <= |trace|
    ensures LandedOn(trace + es, since, n) <==>
            LandedOn(trace, since, n) || exists e :: e in es && e.Landed? && Covers(e, n)
    ensures (forall e :: e in es ==> !e.TickStarted? && !e.Claimed?) ==>
              After(trace + es).handled == After(trace).handled
  {
    hide LandedOn, After;
    if es == [] {
      assert trace + es == trace;
    } else {
      assert es == [es[0]];
      LandedPush(trace, es[0], since, n);
      HandledPush(trace, es[0]);
    }
  }

  lemma StoryLands(k: Case, now: nat, t: Turn, t1: seq<Event>, since: nat, n: string)
    requires since <= |t1|
    ensures LandedOn(t1 + Story(k, now, t), since, n) <==> LandedOn(t1, since, n) || LandsOn(k, t, n)
    ensures After(t1 + Story(k, now, t)).handled == After(t1).handled + Names(t.p.handled)
  {
    hide LandedOn, After, Names, ProbeEvents, NoticeEvents, OutcomeEvents, LandsOn;
    FewEvents(k, t);
    var ta := t1 + [Checked(k.row.name, k.policy.mode, now)];
    var tb := ta + ProbeEvents(k, t.found);
    var tc := tb + NoticeEvents(k, t.found);
    var td := tc + OutcomeEvents(k, t);
    OptionalLanded(t1, [Checked(k.row.name, k.policy.mode, now)], since, n);
    OptionalLanded(ta, ProbeEvents(k, t.found), since, n);
    OptionalLanded(tb, NoticeEvents(k, t.found), since, n);
    OptionalLanded(tc, OutcomeEvents(k, t), since, n);
    OptionalLanded(td, [Claimed(t.p.handled)], since, n);
    OutcomeLands(k, t, n);
    HandledPush(td, Claimed(t.p.handled));
    StoryInSteps(k, now, t, t1);
  }

  lemma FewEvents(k: Case, t: Turn)
    ensures |ProbeEvents(k, t.found)| <= 1 && |NoticeEvents(k, t.found)| <= 1 && |OutcomeEvents(k, t)| <= 1
    ensures forall e :: e in ProbeEvents(k, t.found) ==> e.Probed?
    ensures forall e :: e in NoticeEvents(k, t.found) ==> e.Announced?
    ensures forall e :: e in OutcomeEvents(k, t) ==> e.Landed? || e.Rejected?
  {
    hide Seen, Calls, CallsOut;
  }

  lemma OutcomeLands(k: Case, t: Turn, n: string)
    ensures (exists e :: e in OutcomeEvents(k, t) && e.Landed? && Covers(e, n)) <==> LandsOn(k, t, n)
  {
    hide Seen, Calls;
    if LandsOn(k, t, n) {
      assert OutcomeEvents(k, t)[0] in OutcomeEvents(k, t);
    }
  }

  /** The world side of a turn: what its outcome rests on, or that nothing
      happened. */
  lemma TurnRests(t: Turn, k: Case, answers: Answers, settings: Settings, a: World, b: World)
    returns (run: Rollout.Run)
    requires IsTurn(t, k, answers, settings, a, b)
    ensures Asked(t, k, a)
    ensures Calls(k.policy, Seen(t.found), k.lastFailed) ==>
              Rests(t.p, RequestFor(k, t.found), answers, settings, t.inspectedAt, b, run) && Went(a, b, run)
    ensures !Calls(k.policy, Seen(t.found), k.lastFailed) ==> Rollout.Unmoved(a, b) && t.p.outcome.None?
  {
    hide Applied, Seen, QuietVerdict, TagsServed, Inspects, Landing, Reached, Rollout.Chained, Rollout.AfterRestarts;
    run := Rollout.Run(Planner.RolloutPlan("", [], [], map[], map[]), 0, [], a, a);
    if Calls(k.policy, Seen(t.found), k.lastFailed) {
      run := AppliedRests(t.p, RequestFor(k, t.found), answers, settings, t.inspectedAt, b);
    }
  }

  lemma UnmovedKin(a: World, b: World)
    requires Rollout.Unmoved(a, b)
    ensures AllKin(a.containers, b.containers) && PullsKept(a.pulls, b.pulls) && b.contentOf == a.contentOf
  {
    KinItself(a.containers);
  }

  /** What the tick relies on is there for the next turn. */
  lemma TurnSince(t: Turn, k: Case, now: nat, answers: Answers, settings: Settings, t0: seq<Event>, s: World,
                  t1: seq<Event>, a: World, b: World)
    requires IsTurn(t, k, answers, settings, a, b) && Since(t0, s, t1, a)
    ensures Since(t0, s, t1 + Story(k, now, t), b)
    ensures AllKin(a.containers, b.containers) && PullsKept(a.pulls, b.pulls) && b.contentOf == a.contentOf
  {
    hide IsTurn, Asked, Went, LandedOn, After, AllKin, WellNamed, Story, Seen, Landing, Reached;
    var run := TurnRests(t, k, answers, settings, a, b);
    if Calls(k.policy, Seen(t.found), k.lastFailed) { WentKin(a, b, run); } else { UnmovedKin(a, b); }
    AllKinJoin(s.containers, a.containers, b.containers);
    forall n | LandedOn(t1 + Story(k, now, t), |t0|, n)
      ensures n in After(t1 + Story(k, now, t)).handled
    {
      StoryLands(k, now, t, t1, |t0|, n);
    }
  }

  /** And what is known of a watched container still holds. */
  lemma TurnKeeps(w: Watch, t: Turn, k: Case, now: nat, answers: Answers, settings: Settings, t0: seq<Event>, s: World,
                  t1: seq<Event>, a: World, b: World)
    requires IsTurn(t, k, answers, settings, a, b) && Since(t0, s, t1, a)
    requires ListedIn(s, k.row) && !Rename.IsArchiveName(k.row.name) && k.row.name !in After(t1).handled
    requires |t0| <= |t1| && t1[..|t0|] == t0
    requires Tracked(w, t0, s) && Tracked(w, t1, a) && Honest(w, t1 + Story(k, now, t), b)
    ensures Tracked(w, t1 + Story(k, now, t), b)
  {
    hide IsTurn, Asked, LandedOn, After, AllKin, WellNamed, Story, Seen, Landing, Reached, AllOnRef, NamedFit,
      HonestPulls, HonestProbes, OnRef, LandingHolds, OneUpstream, Rename.CouldBeArchive, Calls, Rollout.Unmoved,
      PullsKept, Consistent;
    WatchedBefore(w, t1, a);
    RowIsNoArchive(w, k, now, t, t1);
    TurnSince(t, k, now, answers, settings, t0, s, t1, a, b);
    AllKinOnRef(w, a.containers, b.containers);
    HonestBefore(w, a.pulls, b.pulls);
    PullsLonger(a.pulls, b.pulls);
    var run := TurnRests(t, k, answers, settings, a, b);
    if Seen(t.found).Some? { SeenIsProbed(w, k, now, t, t1); }
    if Seen(t.found).Some? && k.row.name == w.name && LandedOn(t1, w.since, w.name) {
      LandedWhen(t1, t0, w.since, w.name);
      RowIsQuiet(w, k, t, s, a);
    }
    forall e | e in OutcomeEvents(k, t) && Covers(e, w.name)
      ensures e.digest == w.digest
    {
      OutcomeIsOurs(w, k, t, answers, settings, s, a, b, run, e);
    }
    StoryConsistent(w, k, now, t, t1);
    StoryLands(k, now, t, t1, w.since, w.name);
    if LandedOn(t1 + Story(k, now, t), w.since, w.name) {
      if Calls(k.policy, Seen(t.found), k.lastFailed) {
        if LandsOn(k, t, w.name) { LandingRenews(run, w.name, answers, settings); }
        WentFits(w, a, b, run);
      } else {
        UnmovedFit(w, a, b);
      }
    }
  }

  lemma RowIsNoArchive(w: Watch, k: Case, now: nat, t: Turn, t1: seq<Event>)
    requires NoneEarly(w, t1 + Story(k, now, t)) && w.since <= |t1| && !Rename.IsArchiveName(k.row.name)
    ensures !Rename.CouldBeArchive(k.row.name)
  {
    hide Rename.IsEarlyName, Rename.IsArchiveName, ProbeEvents, NoticeEvents, OutcomeEvents;
    var trace := t1 + Story(k, now, t);
    assert trace[|t1|] == Story(k, now, t)[0] == Checked(k.row.name, k.policy.mode, now);
  }

  /** A probe of the watched reference shows the one digest. */
  lemma SeenIsProbed(w: Watch, k: Case, now: nat, t: Turn, t1: seq<Event>)
    requires Seen(t.found).Some? && HonestProbes(w, t1 + Story(k, now, t)) && w.since <= |t1|
    ensures Registry.Parse(k.row.image) == w.ref ==> Seen(t.found).value.0 == w.digest
  {
    hide Seen, CallsOut, Calls, OutcomeEvents, NoticeEvents, Registry.Parse;
    var trace := t1 + Story(k, now, t);
    assert trace[|t1| + 1] == Story(k, now, t)[1] == ProbeEvents(k, t.found)[0];
  }

  lemma OutcomeIsOurs(w: Watch, k: Case, t: Turn, answers: Answers, settings: Settings, s: World, a: World, b: World,
                      run: Rollout.Run, e: Event)
    requires Asked(t, k, a) && ListedIn(s, k.row) && !Rename.CouldBeArchive(k.row.name)
    requires WellNamed(s.containers, s.issued) && AllKin(s.containers, a.containers)
    requires AllOnRef(w, s.containers) && AllOnRef(w, a.containers) && !Rename.CouldBeArchive(w.name)
    requires Calls(k.policy, Seen(t.found), k.lastFailed) ==>
               Rests(t.p, RequestFor(k, t.found), answers, settings, t.inspectedAt, b, run)
    requires Seen(t.found).Some? ==> Registry.Parse(k.row.image) == w.ref ==> Seen(t.found).value.0 == w.digest
    requires e in OutcomeEvents(k, t) && Covers(e, w.name)
    ensures e.digest == w.digest
  {
    hide AllKin, WellNamed, Landing, Reached, AllOnRef, Rename.CouldBeArchive, Probe.ProbeImage, Went,
      Registry.Parse, WellSpelled, Probe.IsPinned, TagsServed, Inspects, CurrentImage,
      Probe.UpdateAvailableFor;
    var q := RequestFor(k, t.found);
    assert Reached(t.inspectedAt, q, w.name);
    ReachIsOnRef(w, k.row, q, s, t.inspectedAt);
    NotPinned(t.found);
  }
}
