/** The Docker daemon as freshdock's `DockerOps` sees it (src/docker/mod.rs and
    the trait in src/docker/recreate.rs): containers with unique names, network
    namespaces, an image store, and a fault that may strike any call. */
module Docker {
  import opened Wrappers
  import opened Text
  import opened Rename
  import Compose
  import Labels
  import Probe
  import Registry

  type Id = string
  type ImageId = string

  /** A network namespace: the container that made it, and which of its starts.
      A restart of the owner makes a new one. */
  datatype NetNs = NetNs(owner: Id, generation: nat)

  /** What a create request carries. `rest` stands for every field that is
      copied verbatim and never read. */
  datatype Config = Config(
    image: string,
    hostname: Option<string>,
    domainname: Option<string>,
    exposedPorts: Option<set<string>>,
    networkMode: Option<string>,
    endpoints: Option<set<string>>,
    labels: Labels.LabelMap,
    rest: string)

  datatype Container = Container(name: string, config: Config, imageId: Option<ImageId>, running: bool, ns: NetNs)

  type Containers = map<Id, Container>

  /** `repoDigests` are the `repository@digest` entries an image is recorded
      under. */
  datatype ImageStore = ImageStore(
    tags: map<Registry.ImageRef, ImageId>,
    fixed: map<string, ImageId>,
    repoDigests: map<ImageId, seq<string>>)

  /** A pull, and the manifest digest the registry served for it. */
  datatype Pulled = Pulled(ref: Registry.ImageRef, digest: string)

  /** A gate's look at a container, and how long the history was at the time. */
  datatype Probing = Probing(container: Id, at: nat)

  /** A row of the list of running containers. */
  datatype Listed = Listed(name: string, id: Id, labels: Labels.LabelMap, image: string, imageId: Option<ImageId>)

  /** The inspect result the recreate cycle works from. */
  datatype Spec = Spec(name: string, imageRef: string, imageId: Option<ImageId>, config: Config)

  /** `Fault` is a failure from outside (network, daemon); `Refused` is one of
      the daemon's own rules; `Objection` is the preflight's. */
  datatype DockerError = Fault | Refused | Objection

  datatype HookStatus = Completed(exitCode: int) | HookTimedOut

  // ----- container references -----

  const CONTAINER_PREFIX: string := "container:"

  function ContainerReference(mode: string): Option<string> {
    if CONTAINER_PREFIX <= mode then Some(mode[|CONTAINER_PREFIX|..]) else None
  }

  function ModeReference(config: Config): Option<string> {
    if config.networkMode.Some? then ContainerReference(config.networkMode.value) else None
  }

  predicate SharesNamespace(config: Config) { ModeReference(config).Some? }

  predicate NetworkModeReferences(mode: string, name: string, fullId: Id) {
    match ContainerReference(mode)
    case None => false
    case Some(reference) =>
      || reference == name
      || (fullId != "" && (reference == fullId || (|reference| >= 12 && reference <= fullId)))
  }

  predicate ConfigReferences(config: Config, name: string, fullId: Id) {
    config.networkMode.Some? && NetworkModeReferences(config.networkMode.value, name, fullId)
  }

  /** The shape of a full container id: 64 hexadecimal characters. */
  predicate IsFullId(s: string) { |s| == 64 && forall i :: 0 <= i < |s| ==> Labels.IsHex(s[i]) }

  ghost predicate UniqueNames(cs: Containers) {
    forall x, y :: x in cs && y in cs && cs[x].name == cs[y].name ==> x == y
  }

  predicate NameTaken(cs: Containers, name: string) { exists x :: x in cs && cs[x].name == name }

  predicate IsOnlyPrefixMatch(cs: Containers, reference: string, x: Id) {
    x in cs && reference <= x && forall y :: y in cs && reference <= y ==> y == x
  }

  /** How the daemon looks a container up: full id, then name, then an id prefix
      that fits one container only. */
  function Resolve(cs: Containers, reference: string): (r: Option<Id>)
    requires UniqueNames(cs)
    ensures r.Some? ==> r.value in cs
  {
    if reference in cs then Some(reference)
    else if exists x :: x in cs && cs[x].name == reference then
      var x :| x in cs && cs[x].name == reference;
      Some(x)
    else if exists x :: x in cs && IsOnlyPrefixMatch(cs, reference, x) then
      var x :| x in cs && IsOnlyPrefixMatch(cs, reference, x);
      Some(x)
    else None
  }

  // ----- the rules -----

  /** The settings the daemon refuses next to a `container:` network mode. */
  predicate Conflicting(config: Config) {
    SharesNamespace(config) &&
    (config.hostname.Some? || config.domainname.Some? || config.exposedPorts.Some? || config.endpoints.Some?)
  }

  /** Some running container still uses a namespace that `x` made. */
  predicate HoldsNamespace(cs: Containers, x: Id) {
    exists y :: y in cs && y != x && cs[y].running && cs[y].ns.owner == x
  }

  function ResolveImage(store: ImageStore, image: string): Option<ImageId> {
    if Probe.IsPinned(image) then
      if image in store.fixed then Some(store.fixed[image]) else None
    else if Registry.Parse(image) in store.tags then Some(store.tags[Registry.Parse(image)])
    else None
  }

  predicate DaemonAssignedHostname(id: Id, hostname: string) { |hostname| == 12 && |id| >= 12 && hostname <= id }

  function SpecOf(id: Id, c: Container): Spec {
    var config :=
      if c.config.hostname.Some? && DaemonAssignedHostname(id, c.config.hostname.value)
      then c.config.(hostname := None) else c.config;
    Spec(c.name, c.config.image, c.imageId, config)
  }

  // ----- state changes -----

  function WithRunning(cs: Containers, x: Id, running: bool): Containers
    requires x in cs
  {
    cs[x := cs[x].(running := running)]
  }

  function WithName(cs: Containers, x: Id, name: string): Containers
    requires x in cs
  {
    cs[x := cs[x].(name := name)]
  }

  /** The stored network mode: newer daemons turn the reference into the id. */
  function StoredMode(cs: Containers, normalises: bool, config: Config): Option<string>
    requires UniqueNames(cs)
  {
    if normalises && SharesNamespace(config) && Resolve(cs, ModeReference(config).value).Some?
    then Some(CONTAINER_PREFIX + Resolve(cs, ModeReference(config).value).value)
    else config.networkMode
  }

  /** An id that cannot be taken for any other, not even by its short form. */
  predicate FreshId(issued: set<Id>, x: Id) {
    && IsFullId(x) && x !in issued
    && (forall y :: y in issued ==> |y| >= 12 && y[..12] != x[..12])
  }

  /** A stopped container with a fresh id and a free name fits in. */
  lemma CreatedValid(cs: Containers, issued: set<Id>, store: ImageStore, x: Id, c: Container)
    requires WellNamed(cs, issued) && NamespacesOwned(cs, issued) && ImagesKept(cs, store)
    requires FreshId(issued, x) && !NameTaken(cs, c.name) && !IsFullId(c.name) && !c.running
    requires c.imageId == ResolveImage(store, c.config.image)
    ensures WellNamed(cs[x := c], issued + {x})
    ensures NamespacesOwned(cs[x := c], issued + {x})
    ensures ImagesKept(cs[x := c], store)
  {
    hide NamespacesOwned, WellNamed, ImagesKept, ResolveImage, IsFullId, FreshId, NameTaken;
    CreatedNamed(cs, issued, x, c);
    CreatedOwned(cs, issued, x, c);
    CreatedKept(cs, store, x, c);
  }

  lemma CreatedNamed(cs: Containers, issued: set<Id>, x: Id, c: Container)
    requires WellNamed(cs, issued) && FreshId(issued, x) && !NameTaken(cs, c.name) && !IsFullId(c.name)
    ensures WellNamed(cs[x := c], issued + {x}) && x !in cs
  {
    hide IsFullId;
  }

  lemma CreatedOwned(cs: Containers, issued: set<Id>, x: Id, c: Container)
    requires WellNamed(cs, issued) && NamespacesOwned(cs, issued) && FreshId(issued, x) && !c.running
    ensures NamespacesOwned(cs[x := c], issued + {x})
  {
    hide IsFullId, UniqueNames, SharesNamespace;
  }

  lemma CreatedKept(cs: Containers, store: ImageStore, x: Id, c: Container)
    requires ImagesKept(cs, store) && c.imageId == ResolveImage(store, c.config.image)
    ensures ImagesKept(cs[x := c], store)
  {
    hide Probe.IsPinned, Registry.Parse;
  }

  // ----- histories -----

  /** `h` continues `h0`. */
  ghost predicate Continues(h0: seq<Containers>, h: seq<Containers>) {
    |h0| <= |h| && forall i {:trigger h[i]} :: 0 <= i < |h0| ==> h[i] == h0[i]
  }

  // ----- well-formed states -----

  ghost predicate WellNamed(cs: Containers, issued: set<Id>) {
    && UniqueNames(cs)
    && cs.Keys <= issued
    && (forall x :: x in issued ==> IsFullId(x))
    && (forall x :: x in cs ==> !IsFullId(cs[x].name))
  }

  /** Only containers with a network stack of their own make namespaces. */
  ghost predicate NamespacesOwned(cs: Containers, issued: set<Id>) {
    && (forall y :: y in cs && cs[y].running ==> cs[y].ns.owner in issued)
    && (forall x, y :: x in cs && y in cs && cs[y].running && cs[y].ns.owner == x ==> !SharesNamespace(cs[x].config))
  }

  ghost predicate IsImage(store: ImageStore, i: ImageId) {
    Probe.IsPinned(i) && i in store.fixed && store.fixed[i] == i
  }

  ghost predicate StoreValid(store: ImageStore) {
    && (forall r :: r in store.tags ==> IsImage(store, store.tags[r]))
    && (forall p :: p in store.fixed ==> IsImage(store, store.fixed[p]))
  }

  /** A container's image is in the store, and its fixed reference names it. */
  ghost predicate ImageKept(store: ImageStore, c: Container) {
    c.imageId.Some? ==>
      && IsImage(store, c.imageId.value)
      && (Probe.IsPinned(c.config.image) ==> ResolveImage(store, c.config.image) == c.imageId)
  }

  ghost predicate ImagesKept(cs: Containers, store: ImageStore) {
    && StoreValid(store)
    && forall x :: x in cs ==> ImageKept(store, cs[x])
  }

  /** The entry records `digest` under the repository of `ref`, however spelled. */
  predicate RecordsPull(entry: string, ref: Registry.ImageRef, digest: string) {
    match SplitOnce(entry, '@')
    case Some((repo, d)) =>
      d == digest && Registry.FamiliarRepository(repo) == Registry.FamiliarRepository(ref.repository)
    case None => false
  }

  function DigestsOf(store: ImageStore, i: ImageId): seq<string> {
    if i in store.repoDigests then store.repoDigests[i] else []
  }

  /** The tag names the image of `digest`, and the image is recorded under it; a
      digest reference is not recorded. */
  ghost predicate Carries(store: ImageStore, ref: Registry.ImageRef, digest: string, contentOf: string -> ImageId) {
    && ref in store.tags && store.tags[ref] == contentOf(digest)
    && ('@' in ref.repository
        || exists entry :: entry in DigestsOf(store, contentOf(digest)) && RecordsPull(entry, ref, digest))
  }

  /** The digest last served for `ref`. */
  ghost function LastServed(pulls: seq<Pulled>, ref: Registry.ImageRef): Option<string> {
    if pulls == [] then None
    else if pulls[|pulls| - 1].ref == ref then Some(pulls[|pulls| - 1].digest)
    else LastServed(pulls[..|pulls| - 1], ref)
  }

  /** A tag that was pulled and is still there carries what its last pull served. */
  ghost predicate TagsServed(store: ImageStore, pulls: seq<Pulled>, contentOf: string -> ImageId) {
    forall ref :: ref in store.tags && LastServed(pulls, ref).Some? ==>
      Carries(store, ref, LastServed(pulls, ref).value, contentOf)
  }

  /** The record `b` goes on from `a`. */
  ghost predicate PullsKept(a: seq<Pulled>, b: seq<Pulled>) { |a| <= |b| && b[..|a|] == a }

  lemma PushServed(pulls: seq<Pulled>, p: Pulled, ref: Registry.ImageRef)
    ensures LastServed(pulls + [p], ref) == if p.ref == ref then Some(p.digest) else LastServed(pulls, ref)
  {
    assert (pulls + [p])[..|pulls|] == pulls;
  }

  /** `x` borrows the network of `owner` and may be repaired with it. */
  predicate Depends(cs: Containers, selfHostname: Option<string>, x: Id, owner: Id)
    requires x in cs && owner in cs
  {
    && cs[x].running
    && ConfigReferences(cs[x].config, cs[owner].name, owner)
    && cs[x].name != cs[owner].name
    && !Labels.IsOwnContainer(selfHostname, x)
    && !Labels.ExplicitlyOptsOut(cs[x].config.labels)
  }

  /** The collision search gets as far as its `n`-th candidate at least. */
  ghost predicate EarlierTaken(cs: Containers, name: string, ts: int, n: nat) {
    n <= MAX_COLLISION_ATTEMPTS && forall m: nat :: m < n ==> NameTaken(cs, Candidate(name, ts, m))
  }

  predicate InUse(cs: Containers, i: ImageId) { exists x :: x in cs && cs[x].imageId == Some(i) }

  /** The row of a container in the two listings. */
  function RowOf(x: Id, c: Container): Listed { Listed(c.name, x, c.config.labels, c.config.image, c.imageId) }

  function MemberOf(x: Id, c: Container): Compose.ProjectMember {
    Compose.ProjectMember(c.name, x, c.config.image, c.imageId, c.config.labels, c.running)
  }

  function RowsOf(cs: Containers, ids: seq<Id>): (r: seq<Listed>)
    requires forall x :: x in ids ==> x in cs
    ensures forall row :: row in r ==> row.id in ids && row == RowOf(row.id, cs[row.id])
    ensures forall x :: x in ids ==> RowOf(x, cs[x]) in r
  {
    if ids == [] then [] else [RowOf(ids[0], cs[ids[0]])] + RowsOf(cs, ids[1..])
  }

  function MembersOf(cs: Containers, ids: seq<Id>): (r: seq<Compose.ProjectMember>)
    requires forall x :: x in ids ==> x in cs
    ensures forall m :: m in r ==> m.id in ids && m == MemberOf(m.id, cs[m.id])
    ensures forall x :: x in ids ==> MemberOf(x, cs[x]) in r
  {
    if ids == [] then [] else [MemberOf(ids[0], cs[ids[0]])] + MembersOf(cs, ids[1..])
  }

  lemma {:induction false} MemberIds(cs: Containers, ids: seq<Id>)
    requires forall x :: x in ids ==> x in cs
    ensures |MembersOf(cs, ids)| == |ids| && forall i :: 0 <= i < |ids| ==> MembersOf(cs, ids)[i].id == ids[i]
  {
    if ids != [] { MemberIds(cs, ids[1..]); }
  }

  predicate InProject(c: Container, project: string) {
    Labels.ComposeProject in c.config.labels && c.config.labels[Labels.ComposeProject] == project
  }

  /** The rows are those of the running containers. */
  ghost predicate Lists(cs: Containers, rows: seq<Listed>) {
    && (forall row :: row in rows ==> row.id in cs && cs[row.id].running && row == RowOf(row.id, cs[row.id]))
    && (forall x :: x in cs && cs[x].running ==> RowOf(x, cs[x]) in rows)
  }

  /** The members are exactly the containers of the project, each once. */
  ghost predicate Truthful(cs: Containers, project: string, members: seq<Compose.ProjectMember>) {
    && (forall m :: m in members ==>
          m.id in cs && InProject(cs[m.id], project) && m == MemberOf(m.id, cs[m.id]))
    && (forall x :: x in cs && InProject(cs[x], project) ==> MemberOf(x, cs[x]) in members)
    && (forall i, j :: 0 <= i < j < |members| ==> members[i].id != members[j].id)
  }

  predicate Describes(store: ImageStore, i: ImageId, local: Probe.LocalImage) {
    local.repoDigests == DigestsOf(store, i) && local.id in {None, Some(i)}
  }

  class Daemon {
    var containers: Containers
    var images: ImageStore
    /** Every id handed out so far. */
    var issued: set<Id>
    /** Number of the next network namespace. */
    var generation: nat
    const normalises: bool
    /** A create may attach several networks at once (API 1.44 on). */
    const multiNetwork: bool
    const selfHostname: Option<string>
    /** The image a manifest digest names on this platform. */
    const contentOf: string -> ImageId
    /** The container map after every mutating call, failed ones included. */
    ghost var history: seq<Containers>
    /** Calls that failed from outside so far. */
    ghost var faults: nat
    /** What the registry served so far. */
    ghost var pulls: seq<Pulled>
    /** The gates' looks at containers so far. */
    ghost var probes: seq<Probing>

    ghost predicate Valid()
      reads this
    {
      && WellNamed(containers, issued)
      && NamespacesOwned(containers, issued)
      && ImagesKept(containers, images)
      && TagsServed(images, pulls, contentOf)
    }

    function Lookup(reference: string): Option<Id>
      requires UniqueNames(containers)
      reads this
    {
      Resolve(containers, reference)
    }

    method Inspect(reference: string) returns (r: Result<Spec, DockerError>)
      requires Valid()
      modifies `faults
      ensures faults >= old(faults)
      ensures r.Success? ==> Lookup(reference).Some? && faults == old(faults)
                             && r.value == SpecOf(Lookup(reference).value, containers[Lookup(reference).value])
      ensures r.Failure? && faults == old(faults) ==> Lookup(reference).None?
    {
      var fault: bool := *;
      if fault {
        faults := faults + 1;
        return Failure(Fault);
      }
      var x := Lookup(reference);
      if x.None? { return Failure(Refused); }
      r := Success(SpecOf(x.value, containers[x.value]));
    }

    function Preflight(spec: Spec): Result<(), DockerError> {
      if spec.config.endpoints.Some? && |spec.config.endpoints.value| > 1 && !multiNetwork
      then Failure(Objection) else Success(())
    }

    /** The tag now names the image of the digest the registry served, and the
        image is recorded under it. */
    method Pull(ref: Registry.ImageRef) returns (r: Result<(), DockerError>, ghost digest: string)
      requires Valid()
      modifies `images, `faults, `pulls
      ensures Valid()
      ensures faults >= old(faults) && (r.Failure? ==> faults > old(faults))
      ensures r.Failure? ==> images == old(images) && pulls == old(pulls)
      ensures r.Success? ==>
                && faults == old(faults)
                && pulls == old(pulls) + [Pulled(ref, digest)]
                && images.tags == old(images).tags[ref := contentOf(digest)]
                && Carries(images, ref, digest, contentOf)
      ensures forall p :: p in old(images).fixed ==> p in images.fixed && images.fixed[p] == old(images).fixed[p]
    {
      hide WellNamed, NamespacesOwned, ImagesKept, TagsServed, Carries, RecordsPull;
      var fault: bool := *;
      var served: string := *;
      digest := served;
      var entry: string := *;
      var got := contentOf(served);
      if fault || !Probe.IsPinned(got) || (got in images.fixed && images.fixed[got] != got)
         || ('@' !in ref.repository && !RecordsPull(entry, ref, served)) {
        faults := faults + 1;
        return Failure(Fault), digest;
      }
      var store := ImageStore(images.tags[ref := got], images.fixed[got := got],
                              images.repoDigests[got := DigestsOf(images, got) + [entry]]);
      StoredServed(images, store, pulls, ref, served, entry, contentOf);
      StoredKept(containers, images, store, ref, got);
      images := store;
      pulls := pulls + [Pulled(ref, served)];
      r := Success(());
    }

    method Stop(reference: string) returns (r: Result<(), DockerError>)
      requires Valid()
      modifies `containers, `history, `faults
      ensures Valid()
      ensures history == old(history) + [containers] && faults >= old(faults)
      ensures r.Failure? ==> containers == old(containers)
      ensures r.Failure? && faults == old(faults) ==> old(Lookup(reference)).None?
      ensures r.Success? ==> faults == old(faults) && old(Lookup(reference)).Some?
                             && containers == WithRunning(old(containers), old(Lookup(reference)).value, false)
    {
      var fault: bool := *;
      var x := Lookup(reference);
      if fault {
        faults := faults + 1;
        r := Failure(Fault);
      } else if x.None? {
        r := Failure(Refused);
      } else {
        containers := WithRunning(containers, x.value, false);
        r := Success(());
      }
      history := history + [containers];
    }

    /** The process ended on its own; seen by a probe. */
    method ObserveExit(x: Id)
      requires Valid()
      modifies `containers, `history
      ensures Valid()
      ensures history == old(history) + [containers]
      ensures containers == if x in old(containers) then WithRunning(old(containers), x, false) else old(containers)
    {
      if x in containers {
        containers := WithRunning(containers, x, false);
      }
      history := history + [containers];
    }

    /** Can `x` be started: does the namespace it joins, if any, exist? */
    predicate Startable(x: Id)
      requires UniqueNames(containers)
      requires x in containers
      reads this
    {
      SharesNamespace(containers[x].config) ==>
        var owner := Resolve(containers, ModeReference(containers[x].config).value);
        owner.Some? && containers[owner.value].running
    }

    function StartedNs(x: Id): NetNs
      requires UniqueNames(containers)
      requires x in containers && Startable(x)
      reads this
    {
      if SharesNamespace(containers[x].config)
      then containers[Resolve(containers, ModeReference(containers[x].config).value).value].ns
      else NetNs(x, generation)
    }

    method Start(reference: string) returns (r: Result<(), DockerError>)
      requires Valid()
      modifies `containers, `history, `faults, `generation
      ensures Valid()
      ensures history == old(history) + [containers] && faults >= old(faults)
      ensures r.Failure? ==> containers == old(containers)
      ensures r.Failure? && faults == old(faults) ==>
                old(Lookup(reference)).None?
                || (!old(containers)[old(Lookup(reference)).value].running && !old(Startable(Lookup(reference).value)))
      ensures r.Success? ==>
                && faults == old(faults) && old(Lookup(reference)).Some?
                && var x := old(Lookup(reference)).value;
                   if old(containers)[x].running then containers == old(containers)
                   else
                     && old(Startable(x))
                     && containers ==
                        old(containers)[x := old(containers)[x].(running := true, ns := old(StartedNs(x)))]
    {
      var fault: bool := *;
      var x := Lookup(reference);
      if fault {
        faults := faults + 1;
        r := Failure(Fault);
      } else if x.None? {
        r := Failure(Refused);
      } else if containers[x.value].running {
        r := Success(());
      } else if !Startable(x.value) {
        r := Failure(Refused);
      } else {
        containers := containers[x.value := containers[x.value].(running := true, ns := StartedNs(x.value))];
        generation := generation + 1;
        r := Success(());
      }
      history := history + [containers];
    }

    /** Plain rename. */
    method RenameTo(from: string, to: string) returns (r: Result<(), DockerError>)
      requires Valid() && !IsFullId(to)
      modifies `containers, `history, `faults
      ensures Valid()
      ensures history == old(history) + [containers] && faults >= old(faults)
      ensures r.Failure? ==> containers == old(containers)
      ensures r.Failure? && faults == old(faults) ==> old(Lookup(from)).None? || NameTaken(old(containers), to)
      ensures r.Success? ==> faults == old(faults) && old(Lookup(from)).Some? && !NameTaken(old(containers), to)
                             && containers == WithName(old(containers), old(Lookup(from)).value, to)
    {
      var fault: bool := *;
      var x := Lookup(from);
      if fault {
        faults := faults + 1;
        r := Failure(Fault);
      } else if x.None? || NameTaken(containers, to) {
        r := Failure(Refused);
      } else {
        containers := WithName(containers, x.value, to);
        r := Success(());
      }
      history := history + [containers];
    }

    /** Rename to an archive name. A candidate whose lookup fails counts as
        free, so a fault can make the search settle on a taken name. */
    method RenameToOld(name: string, ts: int) returns (r: Result<string, DockerError>)
      requires Valid() && NameTaken(containers, name)
      modifies `containers, `history, `faults
      ensures Valid()
      ensures history == old(history) + [containers] && faults >= old(faults)
      ensures r.Failure? ==> containers == old(containers)
      ensures r.Failure? && faults == old(faults) ==>
                old(Lookup(name)).None?
                || forall n: nat :: n <= MAX_COLLISION_ATTEMPTS ==> NameTaken(old(containers), Candidate(name, ts, n))
      ensures r.Success? ==>
                && old(Lookup(name)).Some? && !NameTaken(old(containers), r.value)
                && (exists n: nat :: r.value == Candidate(name, ts, n) && EarlierTaken(old(containers), name, ts, n))
                && containers == WithName(old(containers), old(Lookup(name)).value, r.value)
    {
      var blind: set<string> := *;
      var snapshot := containers;
      if exists c :: c in blind {
        faults := faults + 1;
      }
      var taken := c => c !in blind && NameTaken(snapshot, c);
      var archive, n := NextAvailableOldName(name, ts, taken);
      BlindEarlier(snapshot, blind, name, ts, n, taken);
      BlindEarlier(snapshot, blind, name, ts, MAX_COLLISION_ATTEMPTS + 1, taken);
      CandidateNotFullId(name, ts, n);
      var done := RenameTo(name, archive);
      match done {
        case Success(_) => r := Success(archive);
        case Failure(e) => r := Failure(e);
      }
    }

    /** Would the daemon accept this create request? */
    predicate Creatable(name: string, config: Config, image: string)
      requires UniqueNames(containers)
      reads this
    {
      && !NameTaken(containers, name)
      && ResolveImage(images, image).Some?
      && !Conflicting(config)
      && (config.endpoints.Some? && |config.endpoints.value| > 1 ==> multiNetwork)
      && (SharesNamespace(config) ==> Resolve(containers, ModeReference(config).value).Some?)
    }

    /** The container a create request makes. */
    function Made(x: Id, name: string, config: Config, image: string): Container
      requires UniqueNames(containers)
      reads this
    {
      Container(name,
                config.(image := image, networkMode := StoredMode(containers, normalises, config)),
                ResolveImage(images, image), false, NetNs(x, 0))
    }

    method CreateFromSpec(name: string, config: Config, image: string) returns (r: Result<Id, DockerError>)
      requires Valid() && !IsFullId(name)
      modifies `containers, `history, `faults, `issued
      ensures Valid()
      ensures history == old(history) + [containers] && faults >= old(faults) && old(issued) <= issued
      ensures r.Failure? ==> containers == old(containers) && issued == old(issued)
      ensures r.Failure? && faults == old(faults) ==> !old(Creatable(name, config, image))
      ensures r.Success? ==>
                && faults == old(faults) && old(Creatable(name, config, image))
                && FreshId(old(issued), r.value)
                && issued == old(issued) + {r.value}
                && containers == old(containers)[r.value := old(Made(r.value, name, config, image))]
    {
      hide FreshId, IsFullId, NamespacesOwned, ImagesKept, Conflicting, Resolve, ResolveImage;
      var fault: bool := *;
      var x: Id := *;
      if !Creatable(name, config, image) {
        r := Failure(Refused);
      } else if fault || !FreshId(issued, x) {
        // an id that could be mistaken for another one is not something a
        // daemon hands out; it is filed under faults
        faults := faults + 1;
        r := Failure(Fault);
      } else {
        CreatedValid(containers, issued, images, x, Made(x, name, config, image));
        containers := containers[x := Made(x, name, config, image)];
        issued := issued + {x};
        r := Success(x);
      }
      history := history + [containers];
    }

    method Remove(reference: string, force: bool) returns (r: Result<(), DockerError>)
      requires Valid()
      modifies `containers, `history, `faults
      ensures Valid()
      ensures history == old(history) + [containers] && faults >= old(faults)
      ensures r.Failure? ==> containers == old(containers)
      ensures r.Failure? && faults == old(faults) ==>
                old(Lookup(reference)).None?
                || (!force && old(containers)[old(Lookup(reference)).value].running)
                || HoldsNamespace(old(containers), old(Lookup(reference)).value)
      ensures r.Success? ==>
                && faults == old(faults) && old(Lookup(reference)).Some?
                && !HoldsNamespace(old(containers), old(Lookup(reference)).value)
                && (force || !old(containers)[old(Lookup(reference)).value].running)
                && containers == old(containers) - {old(Lookup(reference)).value}
    {
      var fault: bool := *;
      var x := Lookup(reference);
      if fault {
        faults := faults + 1;
        r := Failure(Fault);
      } else if x.None? || (!force && containers[x.value].running) || HoldsNamespace(containers, x.value) {
        r := Failure(Refused);
      } else {
        containers := containers - {x.value};
        r := Success(());
      }
      history := history + [containers];
    }

    /** Running containers in this one's namespace, in the daemon's order, less
        freshdock itself and explicit opt-outs. */
    method ListNetworkDependents(reference: string) returns (r: Result<seq<string>, DockerError>)
      requires Valid()
      modifies `faults
      ensures faults >= old(faults)
      ensures r.Failure? && faults == old(faults) ==> Lookup(reference).None?
      ensures r.Success? ==>
                && faults == old(faults) && Lookup(reference).Some?
                && (forall i, j :: 0 <= i < j < |r.value| ==> r.value[i] != r.value[j])
                && (forall x :: x in containers && IsDependent(x, Lookup(reference).value) ==>
                      containers[x].name in r.value)
                && (forall n :: n in r.value ==>
                      exists x :: x in containers && containers[x].name == n && IsDependent(x, Lookup(reference).value))
    {
      var fault: bool := *;
      if fault {
        faults := faults + 1;
        return Failure(Fault);
      }
      var owner := Lookup(reference);
      if owner.None? { return Failure(Refused); }
      var names := set x | x in containers && IsDependent(x, owner.value) :: containers[x].name;
      var listed := SortedNames(names);
      SortedDistinct(listed);
      assert forall n :: n in listed <==> n in names;
      r := Success(listed);
    }

    predicate IsDependent(x: Id, owner: Id)
      requires x in containers && owner in containers
      reads this
    {
      Depends(containers, selfHostname, x, owner)
    }

    /** The running containers, in some order. */
    method ListRunning() returns (r: Result<seq<Listed>, DockerError>)
      modifies `faults
      ensures faults >= old(faults) && (r.Failure? ==> faults > old(faults))
      ensures r.Success? ==> Lists(containers, r.value)
    {
      var fault: bool := *;
      if fault {
        faults := faults + 1;
        return Failure(Fault);
      }
      return Success(RowsOf(containers, SortedNames(set x | x in containers && containers[x].running)));
    }

    /** Every container labelled into the project, stopped ones included. */
    method ListProject(project: string) returns (r: Result<seq<Compose.ProjectMember>, DockerError>)
      modifies `faults
      ensures faults >= old(faults) && (r.Failure? ==> faults > old(faults))
      ensures r.Success? ==> Truthful(containers, project, r.value)
    {
      var fault: bool := *;
      if fault {
        faults := faults + 1;
        return Failure(Fault);
      }
      var ids := SortedNames(set x | x in containers && InProject(containers[x], project));
      SortedDistinct(ids);
      MemberIds(containers, ids);
      return Success(MembersOf(containers, ids));
    }

    /** What the daemon knows of the image a reference names locally; the id is
        left out where it is not reported. */
    method InspectImage(image: string) returns (r: Option<Probe.LocalImage>)
      modifies `faults
      ensures faults >= old(faults) && (r.None? ==> faults > old(faults) || ResolveImage(images, image).None?)
      ensures r.Some? ==>
                ResolveImage(images, image).Some? && Describes(images, ResolveImage(images, image).value, r.value)
    {
      var fault, silent: bool := *, *;
      if fault {
        faults := faults + 1;
        return None;
      }
      var i := ResolveImage(images, image);
      return if i.Some? then Some(Probe.LocalImage(DigestsOf(images, i.value), if silent then None else i)) else None;
    }

    /** The image a reference names locally; `None` when the daemon cannot tell. */
    method LocalImageId(image: string) returns (r: Result<Option<ImageId>, DockerError>)
      modifies `faults
      ensures faults >= old(faults)
      ensures r.Success? && r.value.Some? ==> r.value == ResolveImage(images, image)
    {
      var fault, silent: bool := *, *;
      if fault {
        faults := faults + 1;
        return Failure(Fault);
      }
      r := Success(if silent then None else ResolveImage(images, image));
    }

    method ExecHook(reference: string, command: string) returns (r: Result<HookStatus, DockerError>)
    {
      r := *;
    }

    predicate ImageInUse(i: ImageId)
      reads this
    {
      InUse(containers, i)
    }

    ghost predicate NoneInUse(gone: set<ImageId>)
      reads this
    {
      forall i :: i in gone ==> !ImageInUse(i)
    }

    /** Images still in use are refused. */
    method RemoveImage(i: ImageId) returns (r: Result<(), DockerError>)
      requires Valid()
      modifies `images, `faults
      ensures Valid()
      ensures faults >= old(faults)
      ensures r.Failure? ==> images == old(images)
      ensures r.Failure? && faults == old(faults) ==> ImageInUse(i)
      ensures r.Success? ==> faults == old(faults) && !ImageInUse(i) && images == Without(old(images), {i})
    {
      var fault: bool := *;
      if fault {
        faults := faults + 1;
        return Failure(Fault);
      }
      if ImageInUse(i) { return Failure(Refused); }
      KeptServed(images, {i}, pulls, contentOf);
      images := Without(images, {i});
      r := Success(());
    }

    /** Drops images that no tag names and no container runs. */
    method PruneDanglingImages() returns (r: Result<(), DockerError>, ghost gone: set<ImageId>)
      requires Valid()
      modifies `images, `faults
      ensures Valid()
      ensures faults >= old(faults)
      ensures r.Failure? ==> images == old(images) && faults > old(faults)
      ensures r.Success? ==> images == Without(old(images), gone) && NoneInUse(gone) && images.tags == old(images).tags
      ensures r.Success? ==>
                forall p :: p in images.fixed ==> images.fixed[p] in images.tags.Values || ImageInUse(images.fixed[p])
    {
      hide WellNamed, NamespacesOwned, TagsServed;
      var fault: bool := *;
      if fault {
        faults := faults + 1;
        return Failure(Fault), {};
      }
      var dangling := Dangling(containers, images);
      DanglingGone(containers, images);
      KeptServed(images, dangling, pulls, contentOf);
      WithoutKept(containers, images, dangling);
      images := Without(images, dangling);
      return Success(()), dangling;
    }
  }

  function Dangling(cs: Containers, store: ImageStore): set<ImageId> {
    set p | p in store.fixed && store.fixed[p] !in store.tags.Values && !InUse(cs, store.fixed[p]) :: store.fixed[p]
  }

  lemma DanglingGone(cs: Containers, store: ImageStore)
    ensures var gone := Dangling(cs, store);
            && (forall i :: i in gone ==> !InUse(cs, i))
            && Without(store, gone).tags == store.tags
            && forall p :: p in store.fixed && store.fixed[p] !in gone ==>
                 store.fixed[p] in store.tags.Values || InUse(cs, store.fixed[p])
  {
    hide InUse;
    assert forall ref :: ref in store.tags ==> store.tags[ref] in store.tags.Values;
  }

  lemma WithoutKept(cs: Containers, store: ImageStore, gone: set<ImageId>)
    requires ImagesKept(cs, store) && forall i :: i in gone ==> !InUse(cs, i)
    ensures ImagesKept(cs, Without(store, gone))
  {
    hide Probe.IsPinned, Registry.Parse;
    var after := Without(store, gone);
    forall x | x in cs
      ensures ImageKept(after, cs[x])
    {
      assert ImageKept(store, cs[x]);
      if cs[x].imageId.Some? { assert InUse(cs, cs[x].imageId.value); }
    }
  }

  function Without(store: ImageStore, gone: set<ImageId>): ImageStore {
    ImageStore(map r | r in store.tags && store.tags[r] !in gone :: store.tags[r],
               map p | p in store.fixed && store.fixed[p] !in gone :: store.fixed[p],
               map i | i in store.repoDigests && i !in gone :: store.repoDigests[i])
  }

  lemma StoredKept(cs: Containers, before: ImageStore, after: ImageStore, ref: Registry.ImageRef, got: ImageId)
    requires ImagesKept(cs, before) && Probe.IsPinned(got) && (got in before.fixed ==> before.fixed[got] == got)
    requires after.tags == before.tags[ref := got] && after.fixed == before.fixed[got := got]
    ensures ImagesKept(cs, after)
  {
    hide Probe.IsPinned, Registry.Parse;
  }

  lemma StoredServed(before: ImageStore, after: ImageStore, pulls: seq<Pulled>, ref: Registry.ImageRef, digest: string,
                     entry: string, contentOf: string -> ImageId)
    requires TagsServed(before, pulls, contentOf)
    requires after.tags == before.tags[ref := contentOf(digest)]
    requires after.repoDigests ==
             before.repoDigests[contentOf(digest) := DigestsOf(before, contentOf(digest)) + [entry]]
    requires '@' in ref.repository || RecordsPull(entry, ref, digest)
    ensures Carries(after, ref, digest, contentOf)
    ensures TagsServed(after, pulls + [Pulled(ref, digest)], contentOf)
  {
    hide RecordsPull;
    assert entry in DigestsOf(after, contentOf(digest));
    forall q | q in after.tags && LastServed(pulls + [Pulled(ref, digest)], q).Some?
      ensures Carries(after, q, LastServed(pulls + [Pulled(ref, digest)], q).value, contentOf)
    {
      PushServed(pulls, Pulled(ref, digest), q);
      if q != ref {
        var d := LastServed(pulls, q).value;
        assert Carries(before, q, d, contentOf);
        if '@' !in q.repository {
          var e :| e in DigestsOf(before, contentOf(d)) && RecordsPull(e, q, d);
          assert e in DigestsOf(after, contentOf(d));
        }
      }
    }
  }

  lemma KeptServed(store: ImageStore, gone: set<ImageId>, pulls: seq<Pulled>, contentOf: string -> ImageId)
    requires TagsServed(store, pulls, contentOf)
    ensures TagsServed(Without(store, gone), pulls, contentOf)
  {
    hide RecordsPull;
    var after := Without(store, gone);
    forall ref | ref in after.tags && LastServed(pulls, ref).Some?
      ensures Carries(after, ref, LastServed(pulls, ref).value, contentOf)
    {
      var d := LastServed(pulls, ref).value;
      assert Carries(store, ref, d, contentOf);
      assert DigestsOf(after, contentOf(d)) == DigestsOf(store, contentOf(d));
    }
  }

  lemma WithoutKeeps(store: ImageStore, gone: set<ImageId>, image: string)
    requires ResolveImage(store, image).Some? && ResolveImage(store, image).value !in gone
    ensures ResolveImage(Without(store, gone), image) == ResolveImage(store, image)
  {
  }

  /** Candidates that count as taken are taken. */
  lemma BlindEarlier(cs: Containers, blind: set<string>, name: string, ts: int, n: nat, taken: string -> bool)
    requires forall c :: taken(c) <==> c !in blind && NameTaken(cs, c)
    ensures TakenUpTo(name, ts, taken, n) ==> forall m: nat :: m < n ==> NameTaken(cs, Candidate(name, ts, m))
  {
    hide NameTaken, Candidate;
    if TakenUpTo(name, ts, taken, n) {
      forall m: nat | m < n
        ensures NameTaken(cs, Candidate(name, ts, m))
      {
        assert taken(Candidate(name, ts, m));
      }
    }
  }

  lemma CandidateNotFullId(name: string, ts: int, n: nat)
    ensures !IsFullId(Candidate(name, ts, n))
  {
    CandidateShape(name, ts, n);
    var archive := Candidate(name, ts, n);
    assert archive[|name|] == OLD[0];
    assert !Labels.IsHex(archive[|name|]);
  }

  lemma StoredModeShares(cs: Containers, normalises: bool, config: Config)
    requires UniqueNames(cs)
    ensures SharesNamespace(config.(networkMode := StoredMode(cs, normalises, config))) == SharesNamespace(config)
  {
    ReferenceOfPrefixed(if SharesNamespace(config) && Resolve(cs, ModeReference(config).value).Some?
                        then Resolve(cs, ModeReference(config).value).value else "");
  }

  lemma ReferenceOfPrefixed(reference: string)
    ensures ContainerReference(CONTAINER_PREFIX + reference) == Some(reference)
  {
    var mode := CONTAINER_PREFIX + reference;
    assert CONTAINER_PREFIX <= mode && mode[|CONTAINER_PREFIX|..] == reference;
  }
}
