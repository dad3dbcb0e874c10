/** One container's turn in a tick (`process_container` and `apply_update` of
    src/scheduler.rs): what is found out, what is done about it and what is left
    for the tick to record. */
module Turns {
  import opened Wrappers
  import opened Labels
  import opened Docker
  import opened Schedule
  import Compose
  import Health
  import Probe
  import Recreate
  import Registry
  import Rollout
  import Planner
  import Text

  type World = Recreate.World

  datatype ProbeTarget = ProbeTarget(image: string, imageId: Option<string>)

  datatype Verdict =
    | UpToDate
    | UnknownDigest
    | UpdateSeen
    | WasUpdated
    | NotUpdated
    | PinnedImage
    | WentWrong

  datatype UpdateOutcome =
    | WasRejected(digest: string, containers: seq<string>)
    | HasLanded(containers: seq<string>)

  /** What one processed container leaves for the tick to record. */
  datatype Processed = Processed(handled: seq<string>, outcome: Option<UpdateOutcome>, verdicts: seq<Verdict>)

  datatype Settings = Settings(
    defaults: PolicyDefaults,
    health: Health.HealthConfig,
    ownIdPrefix: Option<string>,
    composeAware: bool,
    pruneDangling: bool,
    oneShotTimeout: nat)

  /** What the world outside the daemon answers in one turn: the registry, and
      the probes of each gate. */
  datatype Answers = Answers(
    fetched: Result<string, Probe.FetchError>,
    envs: nat -> Health.Environment,
    plainEnv: Health.Environment)

  ghost predicate Ticking(a: Answers, step: nat) {
    Health.Advances(a.plainEnv, step) && forall i: nat :: Health.Advances(a.envs(i), step)
  }

  // ----- verdicts -----

  function StepVerdicts(steps: seq<Rollout.RolloutStep>): seq<Verdict> {
    if steps == [] then []
    else StepVerdicts(steps[..|steps| - 1]) + (if steps[|steps| - 1].Restarted? then [] else [WasUpdated])
  }

  function LeftVerdicts(left: seq<string>, failedAt: Option<string>): seq<Verdict> {
    if left == [] then []
    else
      LeftVerdicts(left[..|left| - 1], failedAt)
      + [if failedAt == Some(left[|left| - 1]) then WentWrong else NotUpdated]
  }

  function FailedAt(report: Rollout.RolloutReport): Option<string> {
    match report.aborted
    case Some(StepFailed(container, _)) => Some(container)
    case _ => None
  }

  function RolloutVerdicts(report: Rollout.RolloutReport): seq<Verdict> {
    StepVerdicts(report.steps) + LeftVerdicts(report.notCompleted, FailedAt(report))
  }

  lemma {:induction false} StepVerdictsCount(steps: seq<Rollout.RolloutStep>)
    ensures |StepVerdicts(steps)| == |Rollout.MovedSteps(steps)|
    ensures forall i :: 0 <= i < |StepVerdicts(steps)| ==> StepVerdicts(steps)[i] == WasUpdated
  {
    if steps != [] { StepVerdictsCount(steps[..|steps| - 1]); }
  }

  lemma {:induction false} LeftVerdictsCount(left: seq<string>, failedAt: Option<string>)
    ensures |LeftVerdicts(left, failedAt)| == |left|
    ensures forall i :: 0 <= i < |left| ==>
              LeftVerdicts(left, failedAt)[i] == if failedAt == Some(left[i]) then WentWrong else NotUpdated
  {
    if left != [] { LeftVerdictsCount(left[..|left| - 1], failedAt); }
  }

  /** One verdict per planned target, in plan order: `k` updated, then what was
      left, of which one failed exactly when the abort was a step error. */
  lemma VerdictsPerTarget(plan: Planner.RolloutPlan, report: Rollout.RolloutReport, k: nat)
    requires Rollout.Reports(plan, report, k) && Text.NoRepeats(Planner.TargetNames(plan))
    ensures |RolloutVerdicts(report)| == |plan.targets|
    ensures forall i :: 0 <= i < |plan.targets| ==>
              RolloutVerdicts(report)[i] ==
              if i < k then WasUpdated
              else if i == k && report.aborted.Some? && report.aborted.value.StepFailed? then WentWrong
              else NotUpdated
  {
    hide Rollout.Without, Rollout.OnlyRestarts, Rollout.MovedSteps, Rollout.IsStepFor, Text.Names;
    var names := Planner.TargetNames(plan);
    Rollout.ImageTargetsArePlanned(plan, report, k);
    StepVerdictsCount(report.steps);
    LeftVerdictsCount(report.notCompleted, FailedAt(report));
    if report.aborted.Some? {
      var left := report.notCompleted;
      assert left == names[k..] && |StepVerdicts(report.steps)| == k;
      forall i | k <= i < |names|
        ensures RolloutVerdicts(report)[i] ==
                if i == k && report.aborted.value.StepFailed? then WentWrong else NotUpdated
      {
        assert RolloutVerdicts(report)[i] == LeftVerdicts(left, FailedAt(report))[i - k];
        assert left[i - k] == names[i] && names[k] == report.aborted.value.container;
      }
    }
  }

  // ----- one update -----

  function RolloutProcessed(report: Rollout.RolloutReport, latest: string): Processed {
    var targets := Rollout.ImageTargets(report);
    var outcome :=
      match report.aborted
      case Some(reason) => if Rollout.RejectedTheImage(reason) then Some(WasRejected(latest, targets)) else None
      case None => if Rollout.Touched(report) == [] then None else Some(HasLanded(targets));
    Processed(Rollout.Claimed(report), outcome, RolloutVerdicts(report))
  }

  function PlainProcessed(name: string, latest: string, r: Result<Recreate.RecreateOutcome, DockerError>): Processed {
    match r
    case Success(Recreated(_, _)) => Processed([name], Some(HasLanded([name])), [WasUpdated])
    case Success(RolledBack(_)) => Processed([name], Some(WasRejected(latest, [name])), [NotUpdated])
    case Success(SkippedByHook(_)) => Processed([name], None, [NotUpdated])
    case Failure(_) => Processed([name], None, [WentWrong])
  }

  /** An update as asked for: of which container, under which policy and labels,
      to which digest, and the image id that marks a member as current. */
  datatype Request = Request(
    name: string,
    policy: Policy,
    labels: LabelMap,
    latest: string,
    currentImage: Option<string>)

  function ConfigFor(q: Request, settings: Settings): Rollout.RolloutConfig {
    Rollout.RolloutConfig(settings.health, settings.pruneDangling, settings.oneShotTimeout, q.currentImage)
  }

  /** From `a` to `b` the project's rollout was run, and `p` is what its report
      leaves. */
  ghost predicate AfterRollout(p: Processed, q: Request, answers: Answers, settings: Settings, a: World, b: World) {
    Compose.Parse(q.labels).Some? && exists report, run, listing ::
      ByRollout(p, q, answers, settings, a, b, Compose.Parse(q.labels).value.project, report, run, listing)
  }

  ghost predicate ByRollout(p: Processed, q: Request, answers: Answers, settings: Settings, a: World, b: World,
                            project: string, report: Rollout.RolloutReport, run: Rollout.Run,
                            listing: Result<seq<Compose.ProjectMember>, DockerError>) {
    && p == RolloutProcessed(report, q.latest)
    && (listing.Success? ==>
          Rollout.IsPlanned(a, project, listing.value, run.plan, q.name, ConfigFor(q, settings), settings.defaults,
                            settings.ownIdPrefix))
    && Rollout.IsReportFor(report, run, listing, project, q.name, ConfigFor(q, settings), answers.envs, a, b)
  }

  /** From `a` to `b` the container alone was updated, and `p` is what that
      leaves. */
  ghost predicate AfterPlain(p: Processed, q: Request, answers: Answers, settings: Settings, a: World, b: World) {
    exists start, r, c :: ByPlain(p, q, answers, settings, a, b, start, r, c)
  }

  ghost predicate ByPlain(p: Processed, q: Request, answers: Answers, settings: Settings, a: World, b: World,
                          start: World, r: Result<Recreate.RecreateOutcome, DockerError>, c: Recreate.Course) {
    && Rollout.Unmoved(a, start) && WellNamed(start.containers, start.issued) && WellNamed(b.containers, b.issued)
    && Recreate.Updated(start, b, q.name, settings.health, answers.plainEnv,
                        Rollout.CleanupFor(q.policy, settings.pruneDangling), q.policy.hooks, r, c)
    && p == PlainProcessed(q.name, q.latest, r)
  }

  /** The project's plan has no more to offer than this container, or leaves it
      out for a reason that need not be respected. */
  ghost predicate FallsBack(q: Request, settings: Settings, a: World) {
    exists members, plan :: FallsBackOn(q, settings, a, members, plan)
  }

  ghost predicate FallsBackOn(q: Request, settings: Settings, a: World, members: seq<Compose.ProjectMember>,
                              plan: Planner.RolloutPlan) {
    && Compose.Parse(q.labels).Some?
    && Rollout.IsPlanned(a, Compose.Parse(q.labels).value.project, members, plan, q.name, ConfigFor(q, settings),
                         settings.defaults, settings.ownIdPrefix)
    && (Rollout.AddsNothingFor(plan, q.name)
        || (!Planner.Covers(plan, q.name) && Planner.SkipReasonFor(plan, q.name) != Some(Planner.OneShotInFlight)))
  }

  /** From `a` to `b` the project's rollout was run, or the plain update where
      there is no project or the plan falls back. */
  ghost predicate Applied(p: Processed, q: Request, answers: Answers, settings: Settings, a: World, b: World) {
    if !settings.composeAware || Compose.Parse(q.labels).None? then AfterPlain(p, q, answers, settings, a, b)
    else
      || AfterRollout(p, q, answers, settings, a, b)
      || (FallsBack(q, settings, a) && AfterPlain(p, q, answers, settings, a, b))
  }

  /** The project's rollout where there is one, the plain update otherwise. */
  method ApplyUpdate(d: Daemon, q: Request, answers: Answers, settings: Settings, ghost step: nat)
    returns (p: Processed)
    requires d.Valid() && Ticking(answers, step)
    modifies d
    ensures d.Valid() && Applied(p, q, answers, settings, old(Recreate.WorldOf(d)), Recreate.WorldOf(d))
  {
    hide Daemon.Valid, Compose.Parse, RolloutProcessed, Rollout.IsReportFor, Rollout.IsPlanned, Health.Advances,
      Planner.Covers, Planner.SkipReasonFor, Rollout.AddsNothingFor, Recreate.Updated, PlainProcessed, WellNamed;
    ghost var a, start := Recreate.WorldOf(d), Recreate.WorldOf(d);
    if settings.composeAware {
      var report, run, listing :=
        Rollout.ForContainer(d, q.name, q.labels, ConfigFor(q, settings), answers.envs, settings.defaults,
                             settings.ownIdPrefix, step);
      if report.Some? {
        p := RolloutProcessed(report.value, q.latest);
        assert ByRollout(p, q, answers, settings, a, Recreate.WorldOf(d), Compose.Parse(q.labels).value.project,
                         report.value, run, listing);
        return;
      }
      start := Recreate.WorldOf(d);
      assert Compose.Parse(q.labels).Some? ==> FallsBackOn(q, settings, a, listing.value, run.plan);
    }
    var cleanup := Rollout.CleanupFor(q.policy, settings.pruneDangling);
    Rollout.DaemonNamed(d);
    var r, c :=
      Recreate.RecreateWithHealth(d, q.name, settings.health, answers.plainEnv, step, cleanup, q.policy.hooks);
    p := PlainProcessed(q.name, q.latest, r);
    Rollout.DaemonNamed(d);
    assert ByPlain(p, q, answers, settings, a, Recreate.WorldOf(d), start, r, c);
  }

  // ----- one container -----

  /** What is found out in one turn about a container's image: the target to
      probe, the local image if the daemon can tell, and the registry's word. */
  datatype Findings = Findings(
    target: ProbeTarget,
    inspected: Option<Probe.LocalImage>,
    fetched: Result<string, Probe.FetchError>)

  function Found(f: Findings): Probe.ProbeOutcome { Probe.ProbeImage(f.target.image, f.inspected, f.fetched) }

  /** The digest upstream has, and whether that is an update for the container. */
  function Seen(f: Findings): Option<(string, Option<bool>)> {
    match Found(f)
    case Fetched(local, latest, tagImageId) =>
      Some((latest, Probe.UpdateAvailableFor(local, latest, f.target.imageId, tagImageId)))
    case _ => None
  }

  /** An update is due, and it is freshdock's to apply. */
  predicate Calls(policy: Policy, seen: Option<(string, Option<bool>)>, lastFailed: Option<string>) {
    && seen.Some? && seen.value.1 == Some(true)
    && policy.mode != Watch && policy.mode != Off
    && lastFailed != Some(seen.value.0)
  }

  predicate CallsOut(policy: Policy, seen: Option<(string, Option<bool>)>, lastNotified: Option<string>) {
    && seen.Some? && seen.value.1 == Some(true)
    && policy.mode == Watch && policy.notify
    && lastNotified != Some(seen.value.0)
  }

  /** The verdict on a container that is not updated. */
  function QuietVerdict(policy: Policy, f: Findings): Verdict {
    match Found(f)
    case Pinned => PinnedImage
    case NoAnswer(_) => WentWrong
    case Fetched(local, latest, tagImageId) =>
      match Probe.UpdateAvailableFor(local, latest, f.target.imageId, tagImageId)
      case None => UnknownDigest
      case Some(false) => UpToDate
      case Some(true) => if policy.mode == Watch then UpdateSeen else NotUpdated
  }

  /** The image id that marks a member as current: the tag's, once the tag
      carries the upstream digest. */
  function CurrentImage(f: Findings): Option<string> {
    match Found(f)
    case Fetched(local, latest, tagImageId) =>
      if Probe.UpdateAvailable(local, latest) == Some(false) then tagImageId else None
    case _ => None
  }

  /** A container at its turn: the row it is listed with, its policy and what the
      scheduler remembers of it. */
  datatype Case = Case(row: Listed, policy: Policy, lastFailed: Option<string>, lastNotified: Option<string>)

  /** How the turn went on from there: what was found out, when the image was
      inspected, and what is left to record. */
  datatype Turn = Turn(found: Findings, inspectedAt: World, p: Processed)

  function RequestFor(k: Case, f: Findings): Request
    requires Seen(f).Some?
  {
    Request(k.row.name, k.policy, k.row.labels, Seen(f).value.0, CurrentImage(f))
  }

  /** What the daemon says of the image a reference names: nothing if it names
      none, or on a fault. A digest reference is not asked about. */
  ghost predicate Inspects(a: World, w: World, image: string, inspected: Option<Probe.LocalImage>) {
    match inspected
    case Some(local) =>
      ResolveImage(w.images, image).Some? && Describes(w.images, ResolveImage(w.images, image).value, local)
    case None => Probe.IsPinned(image) || ResolveImage(w.images, image).None? || w.faults > a.faults
  }

  /** What was found out is about the listed container, and true of `a`. */
  ghost predicate Asked(t: Turn, k: Case, a: World) {
    && t.found.target == ProbeTarget(k.row.image, k.row.imageId)
    && Rollout.Unmoved(a, t.inspectedAt) && Inspects(a, t.inspectedAt, k.row.image, t.found.inspected)
    && TagsServed(t.inspectedAt.images, t.inspectedAt.pulls, t.inspectedAt.contentOf)
  }

  /** The turn of `k` between the worlds `a` and `b`: the daemon was asked in a
      valid state, and touched only for a called-for update. */
  ghost predicate IsTurn(t: Turn, k: Case, answers: Answers, settings: Settings, a: World, b: World) {
    && Asked(t, k, a) && t.found.fetched == answers.fetched
    && (if Calls(k.policy, Seen(t.found), k.lastFailed)
        then Applied(t.p, RequestFor(k, t.found), answers, settings, t.inspectedAt, b)
        else t.p == Processed([], None, [QuietVerdict(k.policy, t.found)]) && Rollout.Unmoved(a, b))
  }

  /** One image inspect. */
  method Look(d: Daemon, image: string) returns (inspected: Option<Probe.LocalImage>)
    requires d.Valid()
    modifies d`faults
    ensures d.Valid() && Rollout.Unmoved(old(Recreate.WorldOf(d)), Recreate.WorldOf(d))
    ensures Inspects(old(Recreate.WorldOf(d)), Recreate.WorldOf(d), image, inspected)
    ensures TagsServed(d.images, d.pulls, d.contentOf)
  {
    hide WellNamed, NamespacesOwned, ImagesKept, TagsServed, ResolveImage;
    if Probe.IsPinned(image) { return None; }
    inspected := d.InspectImage(image);
  }

  method ProcessContainer(d: Daemon, k: Case, target: ProbeTarget, answers: Answers, settings: Settings,
                          ghost step: nat)
    returns (f: Findings, p: Processed, announced: Option<string>, ghost inspectedAt: World)
    requires d.Valid() && Ticking(answers, step) && target == ProbeTarget(k.row.image, k.row.imageId)
    modifies d
    ensures d.Valid()
    ensures IsTurn(Turn(f, inspectedAt, p), k, answers, settings, old(Recreate.WorldOf(d)), Recreate.WorldOf(d))
    ensures announced == if CallsOut(k.policy, Seen(f), k.lastNotified) then Some(Seen(f).value.0) else None
  {
    hide Daemon.Valid, Applied, Ticking, TagsServed, Inspects, Probe.ProbeImage, Probe.UpdateAvailableFor,
      Probe.UpdateAvailable;
    announced := None;
    var inspected := Look(d, target.image);
    f := Findings(target, inspected, answers.fetched);
    inspectedAt := Recreate.WorldOf(d);
    match Found(f) {
      case Fetched(local, latest, tagImageId) =>
        match Probe.UpdateAvailableFor(local, latest, target.imageId, tagImageId) {
          case None => p := Processed([], None, [UnknownDigest]);
          case Some(false) => p := Processed([], None, [UpToDate]);
          case Some(true) =>
            match k.policy.mode {
              case Watch =>
                if k.policy.notify && k.lastNotified != Some(latest) {
                  announced := Some(latest);
                }
                p := Processed([], None, [UpdateSeen]);
              case Off => p := Processed([], None, [NotUpdated]);
              case _ =>
                if k.lastFailed == Some(latest) {
                  p := Processed([], None, [NotUpdated]);
                } else {
                  p := ApplyUpdate(d, RequestFor(k, f), answers, settings, step);
                }
            }
        }
      case Pinned => p := Processed([], None, [PinnedImage]);
      case NoAnswer(_) => p := Processed([], None, [WentWrong]);
    }
  }

  // ----- what the tick records of it -----

  function ProbeEvents(k: Case, f: Findings): seq<Event> {
    if Seen(f).Some? then [Probed(k.row.name, Registry.Parse(k.row.image), Seen(f).value.0, Seen(f).value.1)] else []
  }

  function NoticeEvents(k: Case, f: Findings): seq<Event> {
    if CallsOut(k.policy, Seen(f), k.lastNotified) then [Announced(k.row.name, Seen(f).value.0)] else []
  }

  function OutcomeEvents(k: Case, t: Turn): seq<Event> {
    if !Calls(k.policy, Seen(t.found), k.lastFailed) then []
    else
      match t.p.outcome
      case None => []
      case Some(WasRejected(digest, containers)) => [Rejected(k.row.name, digest, containers)]
      case Some(HasLanded(containers)) => [Landed(k.row.name, Seen(t.found).value.0, containers)]
  }

  /** The events of one container's turn. */
  function Story(k: Case, now: nat, t: Turn): seq<Event> {
    [Checked(k.row.name, k.policy.mode, now)] + ProbeEvents(k, t.found) + NoticeEvents(k, t.found) + OutcomeEvents(k, t)
    + [Claimed(t.p.handled)]
  }

  /** The turn of a polled container whose update is rejected tells that story. */
  lemma RejectedStory(k: Case, now: nat, t: Turn, digest: string, containers: seq<string>)
    requires k.policy.mode == Live && k.lastFailed != Some(digest)
    requires Seen(t.found) == Some((digest, Some(true)))
    requires t.p.outcome == Some(WasRejected(digest, containers)) && t.p.handled == containers
    ensures Story(k, now, t) == RejectedTurn(k.row.name, now, Registry.Parse(k.row.image), digest, containers)
  {
    hide Seen, Registry.Parse;
  }

  // ----- what an update leaves, read off the updates themselves -----

  /** From `a` to `b` went some updates, one after the other, and then restarts
      or nothing. */
  ghost predicate Went(a: World, b: World, run: Rollout.Run) {
    && Rollout.Unmoved(a, run.start) && Rollout.Chained(run.stages, run.start, run.middle)
    && (b == run.middle || Rollout.AfterRestarts(run.middle, b, Planned(run)))
  }

  ghost function Planned(run: Rollout.Run): seq<string> {
    Planner.RestartsFor(run.plan, Planner.Services(run.plan.targets))
  }

  /** The update put a new container under `n`, made from what its reference
      resolved to. */
  ghost predicate RenewedAt(g: Rollout.Stage, n: string) {
    g.name == n && Recreate.Renewed(g.before, g.after, g.course)
  }

  /** The gate of the update let it pass: exit zero, or a healthy container. */
  ghost predicate LetPass(g: Rollout.Stage, settings: Settings, env: Health.Environment) {
    match g.outcome
    case Once(_) => Health.ExitVerdict(env, settings.oneShotTimeout, Health.Finished(0), g.course.polls)
    case Plain(_) => Health.HealthVerdict(env, settings.health, Health.Healthy, g.course.polls)
  }

  /** The gate of the update had another verdict. */
  ghost predicate TurnedDown(g: Rollout.Stage, settings: Settings, env: Health.Environment) {
    match g.outcome
    case Once(_) =>
      exists v :: Health.ExitVerdict(env, settings.oneShotTimeout, v, g.course.polls) && v != Health.Finished(0)
    case Plain(_) =>
      exists v :: Health.HealthVerdict(env, settings.health, v, g.course.polls) && v != Health.Healthy
  }

  /** What the gate of the `i`-th update is given; a plain update has no plan. */
  ghost function GateOf(run: Rollout.Run, answers: Answers, i: nat): Health.Environment {
    if run.plan.targets == [] then answers.plainEnv else answers.envs(i)
  }

  /** One of the updates renewed `n`, and its gate let it pass. */
  ghost predicate Landing(run: Rollout.Run, n: string, answers: Answers, settings: Settings) {
    exists i ::
      0 <= i < |run.stages| && RenewedAt(run.stages[i], n)
      && LetPass(run.stages[i], settings, GateOf(run, answers, i))
  }

  /** The gate of one of the updates turned it down. */
  ghost predicate Refusal(run: Rollout.Run, answers: Answers, settings: Settings) {
    exists i :: 0 <= i < |run.stages| && TurnedDown(run.stages[i], settings, GateOf(run, answers, i))
  }

  /** `n` is the container itself, or both are of one project. */
  ghost predicate Reached(w: World, q: Request, n: string) {
    || n == q.name
    || exists project :: InProjectNamed(w.containers, project, n) && InProjectNamed(w.containers, project, q.name)
  }

  ghost predicate InProjectNamed(cs: Containers, project: string, n: string) {
    exists x :: x in cs && InProject(cs[x], project) && cs[x].name == n
  }

  /** What the outcome of an update rests on: all it names were within reach and
      are claimed; what has landed was put there by an update that passed its gate;
      and a rejection is the word of a gate. */
  ghost predicate Rests(p: Processed, q: Request, answers: Answers, settings: Settings, a: World, b: World,
                        run: Rollout.Run) {
    && Went(a, b, run)
    && (p.outcome.Some? ==> q.name in p.outcome.value.containers)
    && (p.outcome.Some? && p.outcome.value.WasRejected? ==>
          p.outcome.value.digest == q.latest && Refusal(run, answers, settings))
    && (p.outcome.Some? ==>
          forall n :: n in p.outcome.value.containers ==> n in p.handled && Reached(a, q, n))
    && (p.outcome.Some? && p.outcome.value.HasLanded? ==>
          forall n :: n in p.outcome.value.containers ==> Landing(run, n, answers, settings))
  }

  lemma AppliedRests(p: Processed, q: Request, answers: Answers, settings: Settings, a: World, b: World)
    returns (run: Rollout.Run)
    requires Applied(p, q, answers, settings, a, b)
    ensures Rests(p, q, answers, settings, a, b, run)
  {
    hide Rests, ByRollout, ByPlain;
    if AfterPlain(p, q, answers, settings, a, b) {
      var start, r, c :| ByPlain(p, q, answers, settings, a, b, start, r, c);
      run := PlainRests(p, q, answers, settings, a, b, start, r, c);
    } else {
      var project := Compose.Parse(q.labels).value.project;
      var report, r, listing :| ByRollout(p, q, answers, settings, a, b, project, report, r, listing);
      run := RolloutRests(p, q, answers, settings, a, b, project, report, r, listing);
    }
  }

  lemma PlainRests(p: Processed, q: Request, answers: Answers, settings: Settings, a: World, b: World, start: World,
                   r: Result<Recreate.RecreateOutcome, DockerError>, c: Recreate.Course)
    returns (run: Rollout.Run)
    requires ByPlain(p, q, answers, settings, a, b, start, r, c)
    ensures Rests(p, q, answers, settings, a, b, run)
  {
    hide Recreate.Keeps, Recreate.Renewed, Recreate.Gated, Recreate.PutBack, Recreate.Rejoined, Recreate.TidiedUp,
      Recreate.Stranded, Recreate.ClearWay, Recreate.ListedIfGated, Health.HealthVerdict, WellNamed, Compose.Parse;
    var g := Rollout.Stage(q.name, start, b, c, Rollout.Plain(r));
    run := Rollout.Run(Planner.RolloutPlan("", [], [], map[], map[]), 0, [g], start, b);
    Rollout.ChainedNothing(start);
    Rollout.ChainedPush([], g, start);
    assert [] + [g] == [g];
    assert run.stages[0] == g && GateOf(run, answers, 0) == answers.plainEnv;
  }

  lemma RolloutRests(p: Processed, q: Request, answers: Answers, settings: Settings, a: World, b: World,
                     project: string, report: Rollout.RolloutReport, r: Rollout.Run,
                     listing: Result<seq<Compose.ProjectMember>, DockerError>)
    returns (run: Rollout.Run)
    requires ByRollout(p, q, answers, settings, a, b, project, report, r, listing)
    ensures Rests(p, q, answers, settings, a, b, run)
  {
    hide Rollout.Ran, Rollout.ImageTargets, Rollout.Claimed, Rollout.IsPlanned, RolloutVerdicts, Landing, Refusal,
      Reached, Planner.Covers, Planner.SkipReasonFor, Rollout.AddsNothingFor;
    var cfg, envs := ConfigFor(q, settings), answers.envs;
    Rollout.ReportKeepsAll(report, r, listing, project, q.name, cfg, envs, a, b);
    if listing.Failure? || !Planner.Covers(r.plan, q.name) {
      run := r.(stages := [], start := b, middle := b);
      Rollout.ChainedNothing(b);
    } else {
      run := r;
      RanWent(r, cfg, envs, report, a, b);
      if report.aborted.Some? && Rollout.RejectedTheImage(report.aborted.value) {
        AbortRefuses(r, cfg, answers, settings, report, b);
      }
      forall n | n in Rollout.ImageTargets(report)
        ensures n in Rollout.Claimed(report) && Reached(a, q, n)
        ensures report.aborted.None? ==> Landing(run, n, answers, settings)
      {
        Rollout.TargetIsClaimed(report, n);
        TargetReached(q, a, project, report, r, listing.value, cfg, envs, b, settings, n);
        if report.aborted.None? { TargetLanded(r, cfg, answers, settings, report, b, n); }
      }
    }
  }

  lemma RanWent(run: Rollout.Run, cfg: Rollout.RolloutConfig, envs: nat -> Health.Environment,
                report: Rollout.RolloutReport, a: World, b: World)
    requires Rollout.Unmoved(a, run.start) && Rollout.Ran(run, cfg, envs, report, b)
    ensures Went(a, b, run)
  {
    hide Rollout.Chained, Rollout.AfterRestarts, Rollout.TookPlace, Rollout.Reports, Rollout.Worked;
  }

  lemma TargetReached(q: Request, a: World, project: string, report: Rollout.RolloutReport, run: Rollout.Run,
                      members: seq<Compose.ProjectMember>, cfg: Rollout.RolloutConfig,
                      envs: nat -> Health.Environment, b: World, settings: Settings, n: string)
    requires Rollout.IsPlanned(a, project, members, run.plan, q.name, cfg, settings.defaults, settings.ownIdPrefix)
    requires Rollout.Ran(run, cfg, envs, report, b) && Planner.Covers(run.plan, q.name)
    requires n in Rollout.ImageTargets(report)
    ensures Reached(a, q, n)
  {
    hide Rollout.Ran, Rollout.ImageTargets, Planner.TargetNames, Planner.IsPlanFor;
    Rollout.RanReports(run, cfg, envs, report, b);
    Rollout.ReportedIsTarget(run.plan, report, run.k, n);
    forall t | t in Planner.TargetNames(run.plan)
      ensures InProjectNamed(a.containers, project, t)
    {
      Planner.TargetIsMember(run.plan, project, members, q.name, cfg.tagImageId, settings.defaults,
                             settings.ownIdPrefix, t);
      var m :| m in members && m.name == t;
      assert m.id in a.containers && a.containers[m.id].name == t;
    }
  }

  lemma TargetLanded(run: Rollout.Run, cfg: Rollout.RolloutConfig, answers: Answers, settings: Settings,
                     report: Rollout.RolloutReport, b: World, n: string)
    requires Rollout.Ran(run, cfg, answers.envs, report, b) && report.aborted.None?
    requires n in Rollout.ImageTargets(report) && Holds(cfg, settings)
    ensures Landing(run, n, answers, settings)
  {
    hide Rollout.Chained, Rollout.AfterRestarts, Rollout.TookPlace, Rollout.StepOf, Rollout.IsStageOf,
      Rollout.ImageTargets, Rollout.OnlyRestarts, Rollout.Without, Rollout.IsStepFor, Rollout.Passed,
      Rollout.IsAbortOf, Recreate.Renewed, Planner.RestartsFor, Planner.TargetNames, LetPass;
    var envs := answers.envs;
    Rollout.ReportedIsTarget(run.plan, report, run.k, n);
    var i := Rollout.TargetIndex(run.plan, n);
    Rollout.StepMeans(run.stages[i], run.plan.targets[i], cfg, envs(i));
    Rollout.StageName(run.stages[i], run.plan.targets[i], cfg, envs(i));
    PassedIsLetPass(run.stages[i], run.plan.targets[i], cfg, envs(i), settings);
    assert RenewedAt(run.stages[i], n) && GateOf(run, answers, i) == envs(i);
  }

  /** The settings the rollout runs with. */
  predicate Holds(cfg: Rollout.RolloutConfig, settings: Settings) {
    cfg.health == settings.health && cfg.oneShotTimeout == settings.oneShotTimeout
  }

  lemma PassedIsLetPass(g: Rollout.Stage, t: Planner.PlannedTarget, cfg: Rollout.RolloutConfig,
                        env: Health.Environment, settings: Settings)
    requires Rollout.IsStageOf(g, t, cfg, env) && Holds(cfg, settings)
    ensures Rollout.Passed(env, cfg, t, g.course.polls) ==> LetPass(g, settings, env)
    ensures Rollout.TurnedDown(env, cfg, t, g.course.polls) ==> TurnedDown(g, settings, env)
  {
    hide Recreate.RanOnce, Recreate.Updated, Health.ExitVerdict, Health.HealthVerdict;
  }

  lemma AbortRefuses(run: Rollout.Run, cfg: Rollout.RolloutConfig, answers: Answers, settings: Settings,
                     report: Rollout.RolloutReport, b: World)
    requires Rollout.Ran(run, cfg, answers.envs, report, b) && Holds(cfg, settings)
    requires report.aborted.Some? && Rollout.RejectedTheImage(report.aborted.value)
    ensures Refusal(run, answers, settings)
  {
    hide Rollout.Chained, Rollout.AfterRestarts, Rollout.TookPlace, Rollout.StepOf, Rollout.IsStageOf,
      Rollout.OnlyRestarts, Rollout.Without, Rollout.IsStepFor, Rollout.Passed, Rollout.TurnedDown, Recreate.Renewed,
      Planner.RestartsFor, Planner.TargetNames, TurnedDown;
    var k, envs := run.k, answers.envs;
    Rollout.StepMeans(run.stages[k], run.plan.targets[k], cfg, envs(k));
    PassedIsLetPass(run.stages[k], run.plan.targets[k], cfg, envs(k), settings);
    assert GateOf(run, answers, k) == envs(k);
  }
}
