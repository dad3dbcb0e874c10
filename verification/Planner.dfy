/** The plan of a project rollout (src/rollout.rs, `plan`): which members of a
    compose project take part, in which order, and why the others do not. */
module Planner {
  import opened Wrappers
  import opened Text
  import opened Labels
  import opened Compose
  import Probe
  import Registry
  import Rename

  datatype TargetKind = OneShot | Service

  datatype PlannedTarget = PlannedTarget(container: string, service: string, kind: TargetKind, policy: Policy)

  datatype SkipReason =
    | SelfContainer
    | OptedOut
    | InvalidLabels(error: LabelError)
    | WatchOnly
    | NotEnabled
    | AlreadyCurrent
    | OneShotInFlight
    | StoppedService

  datatype SkippedMember = SkippedMember(container: string, reason: SkipReason)

  datatype RolloutPlan = RolloutPlan(
    project: string,
    targets: seq<PlannedTarget>,
    skipped: seq<SkippedMember>,
    restartCandidates: map<string, seq<string>>,
    graph: Graph)

  /** What the members are held against: the image that moved, the image id its
      tag resolves to, the settings and the project graph. */
  datatype Moved = Moved(
    image: Registry.ImageRef,
    imageId: Option<string>,
    tagImageId: Option<string>,
    defaults: PolicyDefaults,
    ownIdPrefix: Option<string>,
    graph: Graph)

  predicate SameImage(m: ProjectMember, image: Registry.ImageRef, imageId: Option<string>) {
    || Registry.Parse(m.imageRef) == image
    || (!Probe.IsPinned(m.imageRef) && m.imageId.Some? && imageId.Some? && m.imageId.value == imageId.value)
  }

  // ----- what each reason means -----

  predicate IsMember(m: ProjectMember) { Parse(m.labels).Some? }

  function ServiceName(m: ProjectMember): string
    requires IsMember(m)
  {
    Parse(m.labels).value.service
  }

  predicate IsOneShot(w: Moved, m: ProjectMember)
    requires IsMember(m)
  {
    AwaitedForCompletion(w.graph, ServiceName(m))
  }

  /** A compose member on the image that moved. */
  predicate Relevant(w: Moved, m: ProjectMember) { IsMember(m) && SameImage(m, w.image, w.imageId) }

  function PolicyFor(w: Moved, m: ProjectMember): Result<Policy, LabelError> { ParsePolicy(m.labels, w.defaults) }

  /** The circumstance that `reason` names, on its own. */
  predicate Applies(w: Moved, m: ProjectMember, reason: SkipReason)
    requires IsMember(m)
  {
    var policy := PolicyFor(w, m);
    match reason
    case SelfContainer => IsOwnContainer(w.ownIdPrefix, m.id)
    case OptedOut => ExplicitlyOptsOut(m.labels)
    case InvalidLabels(e) => policy == Failure(e)
    case WatchOnly => policy.Success? && policy.value.mode == Watch
    case NotEnabled => policy.Success? && (!policy.value.enabled || policy.value.mode == Off) && !IsOneShot(w, m)
    case AlreadyCurrent => w.tagImageId.Some? && m.imageId == w.tagImageId && !IsOneShot(w, m)
    case OneShotInFlight => m.running && IsOneShot(w, m)
    case StoppedService => !m.running && !IsOneShot(w, m)
  }

  /** Several may apply; this is how they take precedence. */
  function Rank(reason: SkipReason): nat {
    match reason
    case SelfContainer => 0
    case OptedOut => 1
    case InvalidLabels(_) => 2
    case WatchOnly => 3
    case NotEnabled => 4
    case AlreadyCurrent => 5
    case OneShotInFlight => 6
    case StoppedService => 7
  }

  ghost predicate Eligible(w: Moved, m: ProjectMember)
    requires IsMember(m)
  {
    forall reason :: !Applies(w, m, reason)
  }

  ghost predicate IsReason(w: Moved, m: ProjectMember, reason: SkipReason)
    requires IsMember(m)
  {
    Applies(w, m, reason) && forall other :: Applies(w, m, other) ==> Rank(reason) <= Rank(other)
  }

  lemma ReasonIsUnique(w: Moved, m: ProjectMember, a: SkipReason, b: SkipReason)
    requires IsMember(m) && IsReason(w, m, a) && IsReason(w, m, b)
    ensures a == b
  {
    assert Rank(a) == Rank(b);
  }

  /** An eligible member has a policy to carry into the rollout. */
  lemma EligibleHasPolicy(w: Moved, m: ProjectMember)
    requires IsMember(m) && Eligible(w, m)
    ensures PolicyFor(w, m).Success?
  {
    var policy := PolicyFor(w, m);
    if policy.Failure? {
      assert Applies(w, m, InvalidLabels(policy.error));
    }
  }

  ghost function TargetOf(w: Moved, m: ProjectMember): PlannedTarget
    requires IsMember(m) && Eligible(w, m)
  {
    EligibleHasPolicy(w, m);
    PlannedTarget(m.name, ServiceName(m), if IsOneShot(w, m) then OneShot else Service, PolicyFor(w, m).value)
  }

  // ----- the plan, member by member -----

  /** The targets of `ms`, in the order of the listing. */
  ghost function Chosen(w: Moved, ms: seq<ProjectMember>): seq<PlannedTarget> {
    if ms == [] then []
    else
      var m := ms[|ms| - 1];
      Chosen(w, ms[..|ms| - 1]) + (if Relevant(w, m) && Eligible(w, m) then [TargetOf(w, m)] else [])
  }

  ghost predicate LeftAlone(w: Moved, m: ProjectMember) { Relevant(w, m) && !Eligible(w, m) }

  /** `left` records each relevant member of `ms` that is not a target, with the
      reason that takes precedence. */
  ghost predicate Explains(w: Moved, ms: seq<ProjectMember>, left: seq<SkippedMember>) {
    if ms == [] then left == []
    else
      var m, front := ms[|ms| - 1], ms[..|ms| - 1];
      if LeftAlone(w, m) then
        && left != []
        && left[|left| - 1].container == m.name
        && IsReason(w, m, left[|left| - 1].reason)
        && Explains(w, front, left[..|left| - 1])
      else Explains(w, front, left)
  }

  predicate Restartable(w: Moved, m: ProjectMember) {
    && IsMember(m)
    && m.running
    && !IsOwnContainer(w.ownIdPrefix, m.id)
    && !ExplicitlyOptsOut(m.labels)
    && PolicyFor(w, m).Success?
    && PolicyFor(w, m).value.mode != Watch
  }

  /** The containers of `service` that may be restarted. */
  function RestartableOf(w: Moved, ms: seq<ProjectMember>, service: string): seq<string> {
    if ms == [] then []
    else
      var m := ms[|ms| - 1];
      RestartableOf(w, ms[..|ms| - 1], service)
      + (if Restartable(w, m) && ServiceName(m) == service then [m.name] else [])
  }

  function OfService(targets: seq<PlannedTarget>, service: string): seq<PlannedTarget> {
    if targets == [] then []
    else
      OfService(targets[..|targets| - 1], service)
      + (if targets[|targets| - 1].service == service then [targets[|targets| - 1]] else [])
  }

  function ContainerOf(t: PlannedTarget): string { t.container }
  function SkippedName(s: SkippedMember): string { s.container }
  function Itself(name: string): string { name }

  /** Service by service, the replicas of each in name order. */
  function Gather(order: seq<string>, targets: seq<PlannedTarget>): seq<PlannedTarget> {
    if order == [] then []
    else Gather(order[..|order| - 1], targets) + SortBy(ContainerOf, OfService(targets, order[|order| - 1]))
  }

  function Services(targets: seq<PlannedTarget>): set<string> { set t | t in targets :: t.service }

  ghost predicate InOrder(graph: Graph, services: set<string>, order: seq<string>) {
    OrderedBy(Induced(services, graph), order) && forall n :: n in order <==> n in services
  }

  ghost predicate IsPlan(w: Moved, ms: seq<ProjectMember>, plan: RolloutPlan) {
    && plan.graph == w.graph
    && (exists order ::
          InOrder(w.graph, Services(Chosen(w, ms)), order) && plan.targets == Gather(order, Chosen(w, ms)))
    && (exists left :: Explains(w, ms, left) && plan.skipped == SortBy(SkippedName, left))
    && (forall s :: s in plan.restartCandidates <==> RestartableOf(w, ms, s) != [])
    && (forall s :: s in plan.restartCandidates ==>
          plan.restartCandidates[s] == SortBy(Itself, RestartableOf(w, ms, s)))
  }

  /** Everyone but the archives. */
  function Present(ms: seq<ProjectMember>): (r: seq<ProjectMember>)
    ensures forall m :: m in r <==> m in ms && !Rename.IsArchiveName(m.name)
  {
    if ms == [] then []
    else if Rename.IsArchiveName(ms[0].name) then Present(ms[1..])
    else [ms[0]] + Present(ms[1..])
  }

  function FindMember(ms: seq<ProjectMember>, name: string): (r: Option<ProjectMember>)
    ensures r.Some? ==> r.value in ms && r.value.name == name
    ensures r.None? ==> forall m :: m in ms ==> m.name != name
  {
    if ms == [] then None
    else if ms[0].name == name then Some(ms[0])
    else FindMember(ms[1..], name)
  }

  function MovedBy(origin: ProjectMember, ms: seq<ProjectMember>, tagImageId: Option<string>, defaults: PolicyDefaults,
                   ownIdPrefix: Option<string>): Moved {
    Moved(Registry.Parse(origin.imageRef), origin.imageId, tagImageId, defaults, ownIdPrefix, GraphOf(ms))
  }

  /** The buckets hold the targets found so far. */
  ghost predicate Bucketed(byService: map<string, seq<PlannedTarget>>, chosen: seq<PlannedTarget>) {
    forall s {:trigger OfService(chosen, s)} {:trigger s in byService} ::
      && (s in byService <==> OfService(chosen, s) != [])
      && (s in byService ==> byService[s] == OfService(chosen, s))
  }

  ghost predicate Collected(candidates: map<string, seq<string>>, w: Moved, ms: seq<ProjectMember>) {
    forall s {:trigger RestartableOf(w, ms, s)} {:trigger s in candidates} ::
      && (s in candidates <==> RestartableOf(w, ms, s) != [])
      && (s in candidates ==> candidates[s] == RestartableOf(w, ms, s))
  }

  function Push<T>(m: map<string, seq<T>>, key: string, x: T): map<string, seq<T>> {
    m[key := (if key in m then m[key] else []) + [x]]
  }

  lemma EligibleWhen(w: Moved, m: ProjectMember)
    requires IsMember(m)
    ensures Eligible(w, m) <==>
            && PolicyFor(w, m).Success?
            && !Applies(w, m, SelfContainer) && !Applies(w, m, OptedOut) && !Applies(w, m, WatchOnly)
            && !Applies(w, m, NotEnabled) && !Applies(w, m, AlreadyCurrent)
            && !Applies(w, m, OneShotInFlight) && !Applies(w, m, StoppedService)
  {
    if PolicyFor(w, m).Failure? {
      assert Applies(w, m, InvalidLabels(PolicyFor(w, m).error));
    }
  }

  /** Why `m` is left alone, if it is: the cascade of checks. */
  function SkipReasonOf(m: ProjectMember, w: Moved): (r: Option<SkipReason>)
    requires IsMember(m)
  {
    var policy := PolicyFor(w, m);
    var oneShot := IsOneShot(w, m);
    if IsOwnContainer(w.ownIdPrefix, m.id) then Some(SelfContainer)
    else if ExplicitlyOptsOut(m.labels) then Some(OptedOut)
    else if policy.Failure? then Some(InvalidLabels(policy.error))
    else if policy.value.mode == Watch then Some(WatchOnly)
    else if !(policy.value.enabled && policy.value.mode != Off) && !oneShot then Some(NotEnabled)
    else if !oneShot && w.tagImageId.Some? && m.imageId == w.tagImageId then Some(AlreadyCurrent)
    else if oneShot && m.running then Some(OneShotInFlight)
    else if !oneShot && !m.running then Some(StoppedService)
    else None
  }

  /** The cascade finds the reason that takes precedence, and finds none only
      when none applies. */
  lemma SkipReasonMeaning(m: ProjectMember, w: Moved)
    requires IsMember(m)
    ensures SkipReasonOf(m, w).None? <==> Eligible(w, m)
    ensures SkipReasonOf(m, w).Some? ==> IsReason(w, m, SkipReasonOf(m, w).value)
  {
    hide Parse, ParsePolicy, IsOwnContainer, ExplicitlyOptsOut, AwaitedForCompletion, Eligible;
    EligibleWhen(w, m);
    match SkipReasonOf(m, w) {
      case None =>
      case Some(reason) =>
        AppliesExcludes(w, m, reason);
    }
  }

  lemma AppliesExcludes(w: Moved, m: ProjectMember, reason: SkipReason)
    requires IsMember(m)
    ensures Applies(w, m, reason) ==> !Eligible(w, m)
  {
  }

  lemma ChosenStep(w: Moved, front: seq<ProjectMember>, m: ProjectMember)
    ensures Chosen(w, front + [m]) ==
            if Relevant(w, m) && Eligible(w, m) then Chosen(w, front) + [TargetOf(w, m)] else Chosen(w, front)
  {
    assert (front + [m])[..|front|] == front;
  }

  lemma ExplainsNext(w: Moved, front: seq<ProjectMember>, m: ProjectMember, left: seq<SkippedMember>)
    requires Explains(w, front, left) && (Relevant(w, m) ==> Eligible(w, m))
    ensures Explains(w, front + [m], left)
  {
    assert (front + [m])[..|front|] == front;
  }

  lemma ExplainsSkip(w: Moved, front: seq<ProjectMember>, m: ProjectMember, left: seq<SkippedMember>,
                     reason: SkipReason)
    requires Explains(w, front, left) && Relevant(w, m) && !Eligible(w, m) && IsReason(w, m, reason)
    ensures Explains(w, front + [m], left + [SkippedMember(m.name, reason)])
  {
    hide Eligible, IsReason, SameImage;
    assert (front + [m])[..|front|] == front;
    var longer := left + [SkippedMember(m.name, reason)];
    assert longer[..|longer| - 1] == left;
  }

  lemma CollectedStep(candidates: map<string, seq<string>>, w: Moved, front: seq<ProjectMember>, m: ProjectMember)
    requires Collected(candidates, w, front)
    ensures !Restartable(w, m) ==> Collected(candidates, w, front + [m])
    ensures Restartable(w, m) ==> Collected(Push(candidates, ServiceName(m), m.name), w, front + [m])
  {
    assert (front + [m])[..|front|] == front;
  }

  lemma BucketedStep(byService: map<string, seq<PlannedTarget>>, chosen: seq<PlannedTarget>, t: PlannedTarget)
    requires Bucketed(byService, chosen)
    ensures Bucketed(Push(byService, t.service, t), chosen + [t])
  {
    assert (chosen + [t])[..|chosen|] == chosen;
  }

  lemma {:induction false} BucketNonEmpty(chosen: seq<PlannedTarget>, s: string)
    ensures OfService(chosen, s) != [] <==> s in Services(chosen)
  {
    if chosen != [] {
      var front, last := chosen[..|chosen| - 1], chosen[|chosen| - 1];
      BucketNonEmpty(front, s);
      assert chosen == front + [last];
      if s in Services(front) { var t :| t in front && t.service == s; assert t in chosen; }
      if s in Services(chosen) { var t :| t in chosen && t.service == s; assert t in front || t == last; }
    }
  }

  /** One pass over the members: the targets by service, the members left alone
      and the containers that may be restarted. */
  method Classify(w: Moved, present: seq<ProjectMember>)
    returns (byService: map<string, seq<PlannedTarget>>, left: seq<SkippedMember>, candidates: map<string, seq<string>>)
    ensures Bucketed(byService, Chosen(w, present))
    ensures Explains(w, present, left)
    ensures Collected(candidates, w, present)
  {
    hide IsMember, Relevant, Eligible, IsReason, IsOneShot, Restartable, PolicyFor, ServiceName, SkipReasonOf,
      Applies, Push, Bucketed, Explains, Collected, Chosen, OfService, RestartableOf;
    byService, left, candidates := map[], [], map[];
    NothingYet(w);
    for i := 0 to |present|
      invariant Bucketed(byService, Chosen(w, present[..i]))
      invariant Explains(w, present[..i], left)
      invariant Collected(candidates, w, present[..i])
    {
      var m := present[i];
      assert present[..i + 1] == present[..i] + [m];
      ChosenStep(w, present[..i], m);
      CollectedStep(candidates, w, present[..i], m);
      if Restartable(w, m) {
        RestartableIsMember(w, m);
        candidates := Push(candidates, ServiceName(m), m.name);
      }
      if Relevant(w, m) {
        RelevantIsMember(w, m);
        SkipReasonMeaning(m, w);
        match SkipReasonOf(m, w) {
          case Some(reason) =>
            ExplainsSkip(w, present[..i], m, left, reason);
            left := left + [SkippedMember(m.name, reason)];
          case None =>
            ExplainsNext(w, present[..i], m, left);
            EligibleHasPolicy(w, m);
            var kind := if IsOneShot(w, m) then OneShot else Service;
            var target := PlannedTarget(m.name, ServiceName(m), kind, PolicyFor(w, m).value);
            BucketedStep(byService, Chosen(w, present[..i]), target);
            byService := Push(byService, ServiceName(m), target);
        }
      } else {
        ExplainsNext(w, present[..i], m, left);
      }
    }
    assert present[..|present|] == present;
  }

  lemma NothingYet(w: Moved)
    ensures Bucketed(map[], Chosen(w, [])) && Explains(w, [], []) && Collected(map[], w, [])
  {
  }

  lemma RestartableIsMember(w: Moved, m: ProjectMember)
    requires Restartable(w, m)
    ensures IsMember(m)
  {
  }

  lemma RelevantIsMember(w: Moved, m: ProjectMember)
    requires Relevant(w, m)
    ensures IsMember(m)
  {
  }

  /** The plan after the image that `trigger` runs has moved; archives take no
      part, and a trigger that is not listed gets an empty plan. */
  ghost predicate IsPlanFor(plan: RolloutPlan, project: string, members: seq<ProjectMember>, trigger: string,
                            tagImageId: Option<string>, defaults: PolicyDefaults, ownIdPrefix: Option<string>) {
    && plan.project == project
    && match FindMember(Present(members), trigger)
       case None => plan == RolloutPlan(project, [], [], map[], GraphOf(Present(members)))
       case Some(origin) =>
         IsPlan(MovedBy(origin, Present(members), tagImageId, defaults, ownIdPrefix), Present(members), plan)
  }

  /** What was left alone is recorded in one way only. */
  lemma {:induction false} ExplainsUnique(w: Moved, ms: seq<ProjectMember>, a: seq<SkippedMember>,
                                          b: seq<SkippedMember>)
    requires Explains(w, ms, a) && Explains(w, ms, b)
    ensures a == b
  {
    hide Relevant, Eligible, IsReason;
    if ms != [] {
      var m, front := ms[|ms| - 1], ms[..|ms| - 1];
      if LeftAlone(w, m) {
        RelevantIsMember(w, m);
        ReasonIsUnique(w, m, a[|a| - 1].reason, b[|b| - 1].reason);
        ExplainsUnique(w, front, a[..|a| - 1], b[..|b| - 1]);
        assert a == a[..|a| - 1] + [a[|a| - 1]] && b == b[..|b| - 1] + [b[|b| - 1]];
      } else {
        ExplainsUnique(w, front, a, b);
      }
    }
  }

  /** The members and the settings leave one plan. */
  lemma PlanIsUnique(w: Moved, ms: seq<ProjectMember>, a: RolloutPlan, b: RolloutPlan)
    requires IsPlan(w, ms, a) && IsPlan(w, ms, b) && a.project == b.project
    ensures a == b
  {
    hide Chosen, Explains, RestartableOf, Gather, SortBy, OrderedBy, Induced;
    var chosen := Chosen(w, ms);
    var o1 :| InOrder(w.graph, Services(chosen), o1) && a.targets == Gather(o1, chosen);
    var o2 :| InOrder(w.graph, Services(chosen), o2) && b.targets == Gather(o2, chosen);
    OrderIsUnique(Induced(Services(chosen), w.graph), o1, o2);
    var l1 :| Explains(w, ms, l1) && a.skipped == SortBy(SkippedName, l1);
    var l2 :| Explains(w, ms, l2) && b.skipped == SortBy(SkippedName, l2);
    ExplainsUnique(w, ms, l1, l2);
    assert a.restartCandidates == b.restartCandidates;
  }

  method Plan(project: string, members: seq<ProjectMember>, trigger: string, tagImageId: Option<string>,
              defaults: PolicyDefaults, ownIdPrefix: Option<string>)
    returns (plan: RolloutPlan)
    ensures IsPlanFor(plan, project, members, trigger, tagImageId, defaults, ownIdPrefix)
  {
    hide FindMember, Present, MovedBy, Chosen, Explains, RestartableOf, OfService, OrderedBy, Induced, SortBy,
      StrictlySorted, GraphOf, Services, IsPlan, Collected, HasCycle, Rename.IsArchiveName, Bucketed, Gather;
    var present := Present(members);
    var origin := FindMember(present, trigger);
    if origin.None? {
      return RolloutPlan(project, [], [], map[], GraphOf(present));
    }
    var w := MovedBy(origin.value, present, tagImageId, defaults, ownIdPrefix);
    assert w.graph == GraphOf(present) by { MovedGraph(origin.value, present, tagImageId, defaults, ownIdPrefix); }
    var byService, left, candidates := Classify(w, present);
    ghost var chosen := Chosen(w, present);
    var restarts := map s | s in candidates :: SortBy(Itself, candidates[s]);
    BucketKeys(byService, chosen);
    var order, _ := TopologicalOrder(SortedNames(byService.Keys), w.graph);
    assert (set n | n in SortedNames(byService.Keys)) == Services(chosen);
    var targets := Assemble(order, byService, chosen);
    assert InOrder(w.graph, Services(chosen), order);
    plan := RolloutPlan(project, targets, SortBy(SkippedName, left), restarts, w.graph);
    PlanMade(w, present, order, left, candidates, plan);
  }

  /** The targets, service by service. */
  method Assemble(order: seq<string>, byService: map<string, seq<PlannedTarget>>, ghost chosen: seq<PlannedTarget>)
    returns (targets: seq<PlannedTarget>)
    requires Bucketed(byService, chosen) && forall n :: n in order ==> n in byService
    ensures targets == Gather(order, chosen)
  {
    hide OfService, SortBy, Bucketed;
    targets := [];
    for i := 0 to |order|
      invariant targets == Gather(order[..i], chosen)
    {
      assert order[..i + 1][..i] == order[..i];
      BucketIs(byService, chosen, order[i]);
      targets := targets + SortBy(ContainerOf, byService[order[i]]);
    }
    assert order[..|order|] == order;
  }

  lemma BucketIs(byService: map<string, seq<PlannedTarget>>, chosen: seq<PlannedTarget>, s: string)
    requires Bucketed(byService, chosen) && s in byService
    ensures byService[s] == OfService(chosen, s)
  {
    hide OfService;
  }

  lemma PlanMade(w: Moved, ms: seq<ProjectMember>, order: seq<string>, left: seq<SkippedMember>,
                 candidates: map<string, seq<string>>, plan: RolloutPlan)
    requires plan.graph == w.graph
    requires InOrder(w.graph, Services(Chosen(w, ms)), order) && plan.targets == Gather(order, Chosen(w, ms))
    requires Explains(w, ms, left) && plan.skipped == SortBy(SkippedName, left)
    requires Collected(candidates, w, ms)
    requires plan.restartCandidates == map s | s in candidates :: SortBy(Itself, candidates[s])
    ensures IsPlan(w, ms, plan)
  {
    hide Chosen, Explains, RestartableOf, InOrder, Services, Gather, SortBy;
  }

  lemma MovedGraph(origin: ProjectMember, ms: seq<ProjectMember>, tagImageId: Option<string>, defaults: PolicyDefaults,
                   ownIdPrefix: Option<string>)
    ensures MovedBy(origin, ms, tagImageId, defaults, ownIdPrefix).graph == GraphOf(ms)
  {
  }

  lemma BucketKeys(byService: map<string, seq<PlannedTarget>>, chosen: seq<PlannedTarget>)
    requires Bucketed(byService, chosen)
    ensures byService.Keys == Services(chosen)
  {
    hide OfService, Services;
    forall s
      ensures s in byService <==> s in Services(chosen)
    {
      BucketNonEmpty(chosen, s);
    }
  }

  // ----- what a plan guarantees: conservation -----

  ghost function RelevantNames(w: Moved, ms: seq<ProjectMember>): seq<string> {
    if ms == [] then []
    else
      RelevantNames(w, ms[..|ms| - 1]) + (if Relevant(w, ms[|ms| - 1]) then [ms[|ms| - 1].name] else [])
  }

  function TargetNames(plan: RolloutPlan): seq<string> { Names(ContainerOf, plan.targets) }
  function LeftNames(plan: RolloutPlan): seq<string> { Names(SkippedName, plan.skipped) }

  lemma {:induction false} OfServiceCounts(targets: seq<PlannedTarget>, s: string, t: PlannedTarget)
    ensures multiset(OfService(targets, s))[t] == if t.service == s then multiset(targets)[t] else 0
  {
    if targets != [] {
      var front, last := targets[..|targets| - 1], targets[|targets| - 1];
      OfServiceCounts(front, s, t);
      assert targets == front + [last];
      assert OfService(front, s) + [] == OfService(front, s);
    }
  }

  lemma {:induction false} GatherCounts(order: seq<string>, targets: seq<PlannedTarget>, t: PlannedTarget)
    requires NoRepeats(order)
    ensures multiset(Gather(order, targets))[t] == if t.service in order then multiset(targets)[t] else 0
  {
    if order != [] {
      var front, last := order[..|order| - 1], order[|order| - 1];
      assert order == front + [last];
      GatherCounts(front, targets, t);
      SortByKeeps(ContainerOf, OfService(targets, last));
      OfServiceCounts(targets, last, t);
    }
  }

  /** The targets are the chosen members, rearranged. */
  lemma TargetsAreChosen(w: Moved, ms: seq<ProjectMember>, plan: RolloutPlan)
    requires IsPlan(w, ms, plan)
    ensures multiset(plan.targets) == multiset(Chosen(w, ms))
  {
    hide Chosen, Explains, RestartableOf, Gather, OrderedBy;
    var chosen := Chosen(w, ms);
    var order :| InOrder(w.graph, Services(chosen), order) && plan.targets == Gather(order, chosen);
    OrderHasNoRepeats(Induced(Services(chosen), w.graph), order);
    forall t
      ensures multiset(plan.targets)[t] == multiset(chosen)[t]
    {
      GatherCounts(order, chosen, t);
      if t.service !in order { assert t !in chosen; }
    }
  }

  lemma OrderHasNoRepeats(edges: Edges, order: seq<string>)
    requires OrderedBy(edges, order)
    ensures NoRepeats(order)
  {
    hide OrderedBy;
    forall i, j | 0 <= i < j < |order|
      ensures order[i] != order[j]
    {
      OrderIsDistinct(edges, order, i, j);
    }
  }

  lemma {:induction false} ChosenAndLeft(w: Moved, ms: seq<ProjectMember>, left: seq<SkippedMember>)
    requires Explains(w, ms, left)
    ensures multiset(Names(ContainerOf, Chosen(w, ms))) + multiset(Names(SkippedName, left)) ==
            multiset(RelevantNames(w, ms))
  {
    hide IsMember, Eligible, IsReason, Relevant, Chosen, Names, RelevantNames;
    if ms == [] {
      assert Chosen(w, ms) == [] by { ChosenOfNone(w); }
      NothingRelevant(w);
    } else {
      var m, front := ms[|ms| - 1], ms[..|ms| - 1];
      assert ms == front + [m];
      ChosenStep(w, front, m);
      RelevantStep(w, front, m);
      if LeftAlone(w, m) {
        var before, last := left[..|left| - 1], left[|left| - 1];
        ChosenAndLeft(w, front, before);
        assert left == before + [last];
        NamesPush(SkippedName, before, last);
      } else {
        ChosenAndLeft(w, front, left);
        if Relevant(w, m) {
          RelevantIsMember(w, m);
          NamesPush(ContainerOf, Chosen(w, front), TargetOf(w, m));
        }
      }
    }
  }

  lemma ChosenOfNone(w: Moved)
    ensures Chosen(w, []) == []
  {
  }

  /** Every compose member on the image that moved is in the plan once, as a
      target or with a reason, and nobody else is. */
  lemma PlanConserves(w: Moved, ms: seq<ProjectMember>, plan: RolloutPlan)
    requires IsPlan(w, ms, plan)
    ensures multiset(TargetNames(plan)) + multiset(LeftNames(plan)) == multiset(RelevantNames(w, ms))
  {
    hide Chosen, Explains, RestartableOf, InOrder;
    TargetsAreChosen(w, ms, plan);
    NamesPermute(ContainerOf, plan.targets, Chosen(w, ms));
    var left :| Explains(w, ms, left) && plan.skipped == SortBy(SkippedName, left);
    SortByKeeps(SkippedName, left);
    NamesPermute(SkippedName, plan.skipped, left);
    ChosenAndLeft(w, ms, left);
  }

  ghost predicate UniqueMembers(ms: seq<ProjectMember>) {
    forall i, j :: 0 <= i < j < |ms| ==> ms[i].name != ms[j].name
  }

  lemma NothingRelevant(w: Moved)
    ensures RelevantNames(w, []) == []
  {
  }

  lemma RelevantStep(w: Moved, front: seq<ProjectMember>, m: ProjectMember)
    ensures RelevantNames(w, front + [m]) ==
            if Relevant(w, m) then RelevantNames(w, front) + [m.name] else RelevantNames(w, front)
  {
    hide Relevant;
    assert (front + [m])[..|front|] == front;
  }

  lemma {:induction false} RelevantNamed(w: Moved, ms: seq<ProjectMember>, n: string)
    ensures n in RelevantNames(w, ms) <==> exists m :: m in ms && m.name == n && Relevant(w, m)
  {
    hide Relevant, RelevantNames;
    if ms == [] {
      NothingRelevant(w);
    } else {
      var front, last := ms[..|ms| - 1], ms[|ms| - 1];
      RelevantNamed(w, front, n);
      RelevantStep(w, front, last);
      assert ms == front + [last];
    }
  }

  lemma {:induction false} RelevantOnce(w: Moved, ms: seq<ProjectMember>, n: string)
    requires UniqueMembers(ms)
    ensures multiset(RelevantNames(w, ms))[n] <= 1
    ensures n in RelevantNames(w, ms) <==> exists m :: m in ms && m.name == n && Relevant(w, m)
  {
    hide Relevant, RelevantNames;
    RelevantNamed(w, ms, n);
    if ms == [] {
      NothingRelevant(w);
    } else {
      var front, last := ms[..|ms| - 1], ms[|ms| - 1];
      RelevantOnce(w, front, n);
      RelevantStep(w, front, last);
      assert ms == front + [last];
      if n in RelevantNames(w, front) {
        var m :| m in front && m.name == n && Relevant(w, m);
        assert n != last.name;
      }
    }
  }

  /** With unique names: the targets are all different, none of them is also
      skipped, and each relevant member is found on exactly one side. */
  lemma PlanPartition(w: Moved, ms: seq<ProjectMember>, plan: RolloutPlan, n: string)
    requires IsPlan(w, ms, plan) && UniqueMembers(ms)
    ensures NoRepeats(TargetNames(plan)) && NoRepeats(LeftNames(plan))
    ensures !(n in TargetNames(plan) && n in LeftNames(plan))
    ensures n in TargetNames(plan) || n in LeftNames(plan) <==> exists m :: m in ms && m.name == n && Relevant(w, m)
  {
    hide IsPlan, Relevant, Names, RelevantNames;
    PlanConserves(w, ms, plan);
    var targets, left, all := TargetNames(plan), LeftNames(plan), RelevantNames(w, ms);
    forall x
      ensures multiset(targets)[x] + multiset(left)[x] <= 1
      ensures x in targets || x in left <==> x in all
    {
      RelevantOnce(w, ms, x);
      assert multiset(all)[x] == multiset(targets)[x] + multiset(left)[x];
    }
    CountsNoRepeats(targets);
    CountsNoRepeats(left);
    RelevantOnce(w, ms, n);
  }

  // ----- the gates -----

  ghost predicate Becomes(w: Moved, m: ProjectMember, t: PlannedTarget) {
    Relevant(w, m) && Eligible(w, m) && t == TargetOf(w, m)
  }

  lemma {:induction false} ChosenFrom(w: Moved, ms: seq<ProjectMember>, t: PlannedTarget)
    requires t in Chosen(w, ms)
    ensures exists m :: m in ms && Becomes(w, m, t)
  {
    hide Relevant, Eligible, TargetOf, IsMember;
    var m, front := ms[|ms| - 1], ms[..|ms| - 1];
    assert ms == front + [m];
    ChosenStep(w, front, m);
    if t in Chosen(w, front) {
      ChosenFrom(w, front, t);
    } else {
      assert Becomes(w, m, t);
    }
  }

  /** What is true of every target. */
  ghost predicate Gated(w: Moved, m: ProjectMember, t: PlannedTarget) {
    && IsMember(m) && m.name == t.container && ServiceName(m) == t.service
    && !IsOwnContainer(w.ownIdPrefix, m.id)
    && !ExplicitlyOptsOut(m.labels)
    && PolicyFor(w, m) == Success(t.policy)
    && t.policy.mode != Watch
    && match t.kind
       case OneShot => IsOneShot(w, m) && !m.running
       case Service =>
         && !IsOneShot(w, m) && m.running
         && t.policy.enabled && t.policy.mode != Off
         && !(w.tagImageId.Some? && m.imageId == w.tagImageId)
  }

  /** Every target is a present member on the moved image that passes the gates. */
  lemma TargetIsGated(w: Moved, ms: seq<ProjectMember>, plan: RolloutPlan, t: PlannedTarget)
    requires IsPlan(w, ms, plan) && t in plan.targets
    ensures exists m :: m in ms && Relevant(w, m) && Gated(w, m, t)
  {
    hide IsPlan, Chosen, Becomes, Relevant, Gated;
    TargetsAreChosen(w, ms, plan);
    assert t in multiset(plan.targets);
    assert t in Chosen(w, ms);
    ChosenFrom(w, ms, t);
    var m :| m in ms && Becomes(w, m, t);
    BecomesGated(w, m, t);
  }

  /** A target is a member of the project as listed. */
  lemma TargetIsMember(plan: RolloutPlan, project: string, members: seq<ProjectMember>, trigger: string,
                       tagImageId: Option<string>, defaults: PolicyDefaults, ownIdPrefix: Option<string>, n: string)
    requires IsPlanFor(plan, project, members, trigger, tagImageId, defaults, ownIdPrefix) && n in TargetNames(plan)
    ensures exists m :: m in members && m.name == n
  {
    hide IsPlan, Relevant, Parse, MovedBy;
    var present := Present(members);
    var i :| 0 <= i < |plan.targets| && TargetNames(plan)[i] == n;
    var w := MovedBy(FindMember(present, trigger).value, present, tagImageId, defaults, ownIdPrefix);
    TargetIsGated(w, present, plan, plan.targets[i]);
    var m :| m in present && Relevant(w, m) && Gated(w, m, plan.targets[i]);
    assert m in members && m.name == n;
  }

  lemma BecomesGated(w: Moved, m: ProjectMember, t: PlannedTarget)
    requires Becomes(w, m, t)
    ensures Relevant(w, m) && Gated(w, m, t)
  {
    hide SameImage, Parse, ParsePolicy, IsOwnContainer, ExplicitlyOptsOut, AwaitedForCompletion, Eligible;
    EligibleWhen(w, m);
  }

  /** The reason recorded for a member that was left alone is true of it, and no
      reason with precedence is. */
  lemma {:induction false} LeftForReason(w: Moved, ms: seq<ProjectMember>, left: seq<SkippedMember>, s: SkippedMember)
    requires Explains(w, ms, left) && s in left
    ensures exists m :: m in ms && m.name == s.container && LeftAlone(w, m) && IsReason(w, m, s.reason)
  {
    hide LeftAlone, IsReason, IsMember;
    var m, front := ms[|ms| - 1], ms[..|ms| - 1];
    if LeftAlone(w, m) {
      LeftIsMember(w, m);
      var before, last := left[..|left| - 1], left[|left| - 1];
      assert left == before + [last];
      if s in before { LeftForReason(w, front, before, s); } else { assert s == last; }
    } else {
      LeftForReason(w, front, left, s);
    }
    assert ms == front + [m];
  }

  lemma LeftIsMember(w: Moved, m: ProjectMember)
    requires LeftAlone(w, m)
    ensures IsMember(m)
  {
  }

  lemma SkippedForReason(w: Moved, ms: seq<ProjectMember>, plan: RolloutPlan, s: SkippedMember)
    requires IsPlan(w, ms, plan) && s in plan.skipped
    ensures exists m :: m in ms && m.name == s.container && LeftAlone(w, m) && IsReason(w, m, s.reason)
  {
    hide Explains, LeftAlone, IsReason, RestartableOf, InOrder;
    var left :| Explains(w, ms, left) && plan.skipped == SortBy(SkippedName, left);
    SortByKeeps(SkippedName, left);
    assert s in multiset(plan.skipped);
    assert s in left;
    LeftForReason(w, ms, left, s);
  }

  // ----- the trigger -----

  predicate Covers(plan: RolloutPlan, container: string) { container in TargetNames(plan) }

  function SkipReasonFor(plan: RolloutPlan, container: string): Option<SkipReason> {
    FirstReason(plan.skipped, container)
  }

  function FirstReason(skipped: seq<SkippedMember>, container: string): (r: Option<SkipReason>)
    ensures r.Some? <==> container in Names(SkippedName, skipped)
    ensures r.Some? ==> SkippedMember(container, r.value) in skipped
  {
    if skipped == [] then None
    else if skipped[0].container == container then
      assert skipped[0] == SkippedMember(container, skipped[0].reason);
      assert Names(SkippedName, skipped)[0] == container;
      Some(skipped[0].reason)
    else
      NamesWithout(SkippedName, skipped, 0);
      assert Names(SkippedName, skipped) == [skipped[0].container] + Names(SkippedName, skipped[1..]);
      FirstReason(skipped[1..], container)
  }

  /** A trigger that is a compose member is covered or has a skip reason. */
  lemma TriggerAccounted(w: Moved, ms: seq<ProjectMember>, plan: RolloutPlan, origin: ProjectMember)
    requires IsPlan(w, ms, plan) && origin in ms && IsMember(origin) && w.image == Registry.Parse(origin.imageRef)
    ensures Covers(plan, origin.name) || SkipReasonFor(plan, origin.name).Some?
    ensures UniqueMembers(ms) ==> !(Covers(plan, origin.name) && SkipReasonFor(plan, origin.name).Some?)
  {
    hide IsPlan, Names, RelevantNames, UniqueMembers, IsMember;
    PlanConserves(w, ms, plan);
    assert Relevant(w, origin);
    RelevantListed(w, ms, origin);
    var n := origin.name;
    assert n in multiset(RelevantNames(w, ms));
    assert n in multiset(TargetNames(plan)) + multiset(LeftNames(plan));
    if UniqueMembers(ms) { PlanPartition(w, ms, plan, n); }
  }

  lemma {:induction false} RelevantListed(w: Moved, ms: seq<ProjectMember>, m: ProjectMember)
    requires m in ms && Relevant(w, m)
    ensures m.name in RelevantNames(w, ms)
  {
    hide Relevant;
    var front, last := ms[..|ms| - 1], ms[|ms| - 1];
    assert ms == front + [last];
    if m in front { RelevantListed(w, front, m); }
  }

  // ----- dependencies first -----

  lemma {:induction false} OfServiceOnly(targets: seq<PlannedTarget>, s: string)
    ensures forall t :: t in OfService(targets, s) ==> t.service == s
  {
    if targets != [] { OfServiceOnly(targets[..|targets| - 1], s); }
  }

  lemma ReplicasOnly(targets: seq<PlannedTarget>, s: string, k: nat)
    requires k < |SortBy(ContainerOf, OfService(targets, s))|
    ensures SortBy(ContainerOf, OfService(targets, s))[k].service == s
  {
    var replicas := OfService(targets, s);
    OfServiceOnly(targets, s);
    SortByKeeps(ContainerOf, replicas);
    assert SortBy(ContainerOf, replicas)[k] in multiset(SortBy(ContainerOf, replicas));
  }

  lemma {:induction false} GatherPlace(order: seq<string>, targets: seq<PlannedTarget>, i: nat,
                                       j: nat) returns (a: nat, b: nat)
    requires i <= j < |Gather(order, targets)|
    ensures a <= b < |order|
    ensures Gather(order, targets)[i].service == order[a] && Gather(order, targets)[j].service == order[b]
  {
    hide SortBy, OfService;
    var front, last := order[..|order| - 1], order[|order| - 1];
    var head := |Gather(front, targets)|;
    if j < head {
      a, b := GatherPlace(front, targets, i, j);
    } else {
      b := |order| - 1;
      ReplicasOnly(targets, last, j - head);
      if i < head {
        var c: nat;
        a, c := GatherPlace(front, targets, i, i);
      } else {
        a := b;
        ReplicasOnly(targets, last, i - head);
      }
    }
  }

  predicate DependsOn(graph: Graph, n: string, d: string) {
    n in graph && exists i :: 0 <= i < |graph[n]| && graph[n][i].service == d
  }

  ghost function PlanEdges(plan: RolloutPlan): Edges { Induced(Services(plan.targets), plan.graph) }

  /** Every replica of a service comes after every replica of each other service
      in the plan that it depends on, unless it can reach a dependency cycle. */
  lemma DependenciesComeFirst(w: Moved, ms: seq<ProjectMember>, plan: RolloutPlan, i: nat, j: nat)
    requires IsPlan(w, ms, plan) && i < |plan.targets| && j < |plan.targets|
    requires DependsOn(plan.graph, plan.targets[j].service, plan.targets[i].service)
    requires plan.targets[i].service != plan.targets[j].service
    requires !Endless(PlanEdges(plan), plan.targets[j].service)
    ensures i < j
  {
    hide Chosen, Explains, RestartableOf, OrderedBy, HasChain, Endless;
    var chosen, d, n := Chosen(w, ms), plan.targets[i].service, plan.targets[j].service;
    var order :| InOrder(w.graph, Services(chosen), order) && plan.targets == Gather(order, chosen);
    TargetsAreChosen(w, ms, plan);
    SameServices(plan.targets, chosen);
    var edges := PlanEdges(plan);
    EdgeOf(Services(chosen), plan.graph, n, d, plan.targets, i, j);
    if j <= i {
      var a, b := GatherPlace(order, chosen, j, i);
      DependencyFirst(edges, order, b, a);
    }
  }

  lemma SameServices(a: seq<PlannedTarget>, b: seq<PlannedTarget>)
    requires multiset(a) == multiset(b)
    ensures Services(a) == Services(b)
  {
    forall t
      ensures t in a <==> t in b
    {
      assert t in a <==> t in multiset(a);
      assert t in b <==> t in multiset(b);
    }
  }

  lemma EdgeOf(services: set<string>, graph: Graph, n: string, d: string, targets: seq<PlannedTarget>, i: nat, j: nat)
    requires services == Services(targets) && i < |targets| && j < |targets|
    requires targets[i].service == d && targets[j].service == n && d != n && DependsOn(graph, n, d)
    ensures n in Induced(services, graph) && d in Induced(services, graph)[n]
  {
    assert targets[i] in targets && targets[j] in targets;
    var k :| 0 <= k < |graph[n]| && graph[n][k].service == d;
    assert d in InSet(services, graph, n);
  }

  // ----- restarts -----

  function CandidatesOf(candidates: map<string, seq<string>>, service: string): seq<string> {
    if service in candidates then candidates[service] else []
  }

  function Flatten(candidates: map<string, seq<string>>, services: seq<string>): seq<string> {
    if services == [] then []
    else Flatten(candidates, services[..|services| - 1]) + CandidatesOf(candidates, services[|services| - 1])
  }

  function RestartsFor(plan: RolloutPlan, updated: set<string>): seq<string> {
    Flatten(plan.restartCandidates, RestartDependents(plan.graph, updated))
  }

  lemma {:induction false} FlattenFrom(candidates: map<string, seq<string>>, services: seq<string>, n: string)
    ensures n in Flatten(candidates, services) <==> exists s :: s in services && n in CandidatesOf(candidates, s)
  {
    hide CandidatesOf;
    if services != [] {
      var front, last := services[..|services| - 1], services[|services| - 1];
      assert services == front + [last];
      FlattenFrom(candidates, front, n);
    }
  }

  lemma {:induction false} RestartableFrom(w: Moved, ms: seq<ProjectMember>, s: string, n: string)
    ensures n in RestartableOf(w, ms, s) <==>
            exists m :: m in ms && m.name == n && Restartable(w, m) && ServiceName(m) == s
  {
    hide IsMember, IsOwnContainer, ExplicitlyOptsOut, PolicyFor, ServiceName;
    if ms != [] {
      var front, last := ms[..|ms| - 1], ms[|ms| - 1];
      assert ms == front + [last];
      RestartableFrom(w, front, s, n);
    }
  }

  ghost predicate Restarts(w: Moved, m: ProjectMember, updated: set<string>) {
    && Restartable(w, m)
    && ServiceName(m) in w.graph && ServiceName(m) !in updated
    && RestartsWith(w.graph[ServiceName(m)], updated)
  }

  lemma CandidateNames(w: Moved, ms: seq<ProjectMember>, plan: RolloutPlan, s: string)
    requires IsPlan(w, ms, plan)
    ensures multiset(CandidatesOf(plan.restartCandidates, s)) == multiset(RestartableOf(w, ms, s))
  {
    hide Chosen, Explains, InOrder, RestartableOf;
    SortByKeeps(Itself, RestartableOf(w, ms, s));
    assert s in plan.restartCandidates <==> RestartableOf(w, ms, s) != [];
  }

  /** A container is restarted exactly when it may be and its own service, not
      updated itself, asks for it on one that was. */
  lemma RestartsMeaning(w: Moved, ms: seq<ProjectMember>, plan: RolloutPlan, updated: set<string>, n: string)
    requires IsPlan(w, ms, plan)
    ensures n in RestartsFor(plan, updated) <==> exists m :: m in ms && m.name == n && Restarts(w, m, updated)
  {
    hide IsPlan, RestartableOf, Restartable, CandidatesOf, RestartsWith, StrictlySorted, ServiceName, IsMember;
    PlanGraph(w, ms, plan);
    var services := RestartDependents(plan.graph, updated);
    FlattenFrom(plan.restartCandidates, services, n);
    forall s
      ensures n in CandidatesOf(plan.restartCandidates, s) <==>
              exists m :: m in ms && m.name == n && RestartableIn(w, m, s)
    {
      CandidateNames(w, ms, plan, s);
      RestartableFrom(w, ms, s, n);
      assert n in CandidatesOf(plan.restartCandidates, s) <==> n in multiset(CandidatesOf(plan.restartCandidates, s));
      assert n in RestartableOf(w, ms, s) <==> n in multiset(RestartableOf(w, ms, s));
      RestartableInMeaning(w, ms, s, n);
    }
    forall m
      ensures Restarts(w, m, updated) <==> exists s :: s in services && RestartableIn(w, m, s)
    {
      RestartsIn(w, m, updated, services);
    }
  }

  lemma PlanGraph(w: Moved, ms: seq<ProjectMember>, plan: RolloutPlan)
    requires IsPlan(w, ms, plan)
    ensures plan.graph == w.graph
  {
  }

  ghost predicate RestartableIn(w: Moved, m: ProjectMember, s: string) { Restartable(w, m) && ServiceName(m) == s }

  lemma RestartableInMeaning(w: Moved, ms: seq<ProjectMember>, s: string, n: string)
    ensures (exists m :: m in ms && m.name == n && RestartableIn(w, m, s)) <==>
            exists m :: m in ms && m.name == n && Restartable(w, m) && ServiceName(m) == s
  {
    hide IsOwnContainer, ExplicitlyOptsOut, PolicyFor, Parse;
    forall m
      ensures RestartableIn(w, m, s) <==> Restartable(w, m) && ServiceName(m) == s
    {
    }
  }

  lemma RestartsIn(w: Moved, m: ProjectMember, updated: set<string>, services: seq<string>)
    requires services == RestartDependents(w.graph, updated)
    ensures Restarts(w, m, updated) <==> exists s :: s in services && RestartableIn(w, m, s)
  {
    hide IsOwnContainer, ExplicitlyOptsOut, PolicyFor, RestartsWith, Parse;
    if Restarts(w, m, updated) {
      assert ServiceName(m) in services && RestartableIn(w, m, ServiceName(m));
    }
  }

  /** Once every service of the plan is updated, no target is restarted, and no
      container twice. */
  lemma RestartsApart(w: Moved, ms: seq<ProjectMember>, plan: RolloutPlan, updated: set<string>, n: string)
    requires IsPlan(w, ms, plan) && UniqueMembers(ms) && Services(plan.targets) <= updated
    ensures n in RestartsFor(plan, updated) ==> n !in TargetNames(plan)
  {
    hide IsPlan, Gated, Restarts, Relevant, Names, Parse;
    RestartsMeaning(w, ms, plan, updated, n);
    if n in RestartsFor(plan, updated) && n in TargetNames(plan) {
      var m :| m in ms && m.name == n && Restarts(w, m, updated);
      var k :| 0 <= k < |TargetNames(plan)| && TargetNames(plan)[k] == n;
      var t := plan.targets[k];
      assert t.service in Services(plan.targets);
      TargetIsGated(w, ms, plan, t);
      var m' :| m' in ms && Relevant(w, m') && Gated(w, m', t);
      SameMember(w, ms, m, m', t, updated);
    }
  }

  lemma SameMember(w: Moved, ms: seq<ProjectMember>, m: ProjectMember, m': ProjectMember, t: PlannedTarget,
                   updated: set<string>)
    requires UniqueMembers(ms) && m in ms && m' in ms && m.name == t.container
    requires Restarts(w, m, updated) && Gated(w, m', t)
    ensures t.service !in updated
  {
    hide Restartable, IsOneShot, PolicyFor, RestartsWith, Parse;
    var i :| 0 <= i < |ms| && ms[i] == m;
    var j :| 0 <= j < |ms| && ms[j] == m';
  }

  lemma {:induction false} RestartableOnce(w: Moved, ms: seq<ProjectMember>, s: string, n: string)
    requires UniqueMembers(ms)
    ensures multiset(RestartableOf(w, ms, s))[n] <= 1
  {
    hide Restartable, ServiceName, IsMember;
    if ms != [] {
      var front, last := ms[..|ms| - 1], ms[|ms| - 1];
      assert ms == front + [last];
      RestartableOnce(w, front, s, n);
      NamesOf(w, front, s, n);
      assert RestartableOf(w, front, s) + [] == RestartableOf(w, front, s);
    }
  }

  lemma {:induction false} NamesOf(w: Moved, ms: seq<ProjectMember>, s: string, n: string)
    ensures n in RestartableOf(w, ms, s) ==> exists m :: m in ms && m.name == n && ServiceIs(m, s)
  {
    hide Restartable;
    RestartableFrom(w, ms, s, n);
    if n in RestartableOf(w, ms, s) {
      var m :| m in ms && m.name == n && RestartableIn(w, m, s);
      RestartableService(w, m, s);
    }
  }

  ghost predicate ServiceIs(m: ProjectMember, s: string) { IsMember(m) && ServiceName(m) == s }

  lemma RestartableService(w: Moved, m: ProjectMember, s: string)
    requires RestartableIn(w, m, s)
    ensures ServiceIs(m, s)
  {
  }

  lemma {:induction false} FlattenOnce(candidates: map<string, seq<string>>, services: seq<string>, n: string)
    requires NoRepeats(services)
    requires forall s :: multiset(CandidatesOf(candidates, s))[n] <= 1
    requires forall s, s' :: n in CandidatesOf(candidates, s) && n in CandidatesOf(candidates, s') ==> s == s'
    ensures multiset(Flatten(candidates, services))[n] <= 1
  {
    hide CandidatesOf;
    if services != [] {
      var front, last := services[..|services| - 1], services[|services| - 1];
      FlattenOnce(candidates, front, n);
      FlattenFrom(candidates, front, n);
      assert n in multiset(Flatten(candidates, front)) <==> n in Flatten(candidates, front);
      assert n in multiset(CandidatesOf(candidates, last)) <==> n in CandidatesOf(candidates, last);
      assert forall i :: 0 <= i < |front| ==> front[i] == services[i];
      assert last !in front;
    }
  }

  /** Nor is any container restarted twice. */
  lemma RestartsOnce(w: Moved, ms: seq<ProjectMember>, plan: RolloutPlan, updated: set<string>)
    requires IsPlan(w, ms, plan) && UniqueMembers(ms)
    ensures NoRepeats(RestartsFor(plan, updated))
  {
    hide IsPlan, CandidatesOf, RestartableOf, Flatten, RestartsWith, StrLess, ServiceIs;
    var services := RestartDependents(plan.graph, updated);
    SortedDistinct(services);
    forall n
      ensures multiset(RestartsFor(plan, updated))[n] <= 1
    {
      forall s
        ensures multiset(CandidatesOf(plan.restartCandidates, s))[n] <= 1
        ensures n in CandidatesOf(plan.restartCandidates, s) ==> exists m :: m in ms && m.name == n && ServiceIs(m, s)
      {
        CandidateNames(w, ms, plan, s);
        RestartableOnce(w, ms, s, n);
        NamesOf(w, ms, s, n);
        assert n in multiset(CandidatesOf(plan.restartCandidates, s)) <==> n in CandidatesOf(plan.restartCandidates, s);
        assert n in multiset(RestartableOf(w, ms, s)) <==> n in RestartableOf(w, ms, s);
      }
      forall s, s' | n in CandidatesOf(plan.restartCandidates, s) && n in CandidatesOf(plan.restartCandidates, s')
        ensures s == s'
      {
        var m :| m in ms && m.name == n && ServiceIs(m, s);
        var m' :| m' in ms && m'.name == n && ServiceIs(m', s');
        OneService(ms, m, m', s, s');
      }
      FlattenOnce(plan.restartCandidates, services, n);
    }
    CountsNoRepeats(RestartsFor(plan, updated));
  }

  lemma OneService(ms: seq<ProjectMember>, m: ProjectMember, m': ProjectMember, s: string, s': string)
    requires UniqueMembers(ms) && m in ms && m' in ms && m.name == m'.name && ServiceIs(m, s) && ServiceIs(m', s')
    ensures s == s'
  {
    hide Parse;
    var i :| 0 <= i < |ms| && ms[i] == m;
    var j :| 0 <= j < |ms| && ms[j] == m';
  }
}
