/** Running a rollout plan (src/rollout.rs, `execute`): the targets in order
    through the recreate cycle, up to the first that fails, then the restarts. */
module Rollout {
  import opened Wrappers
  import opened Text
  import opened Docker
  import opened Cycle
  import opened Planner
  import Compose
  import Health
  import Labels
  import Reattach
  import Recreate
  import Rename
  import Swap

  datatype RolloutConfig = RolloutConfig(
    health: Health.HealthConfig,
    pruneDangling: bool,
    oneShotTimeout: nat,
    tagImageId: Option<ImageId>)

  datatype AbortReason =
    | OneShotFailed(container: string, exitCode: int)
    | OneShotTimedOut(container: string)
    | RolledBack(container: string)
    | Deferred(container: string, reason: Recreate.HookSkipReason)
    | StepFailed(container: string, error: DockerError)

  /** The new image itself failed; a deferral or an error says nothing of it. */
  predicate RejectedTheImage(reason: AbortReason) {
    reason.RolledBack? || reason.OneShotFailed? || reason.OneShotTimedOut?
  }

  datatype RolloutStep =
    | OneShotCompleted(container: string)
    | Updated(container: string, newId: Id, notify: bool)
    | Restarted(container: string)

  datatype RolloutReport = RolloutReport(
    project: string,
    steps: seq<RolloutStep>,
    aborted: Option<AbortReason>,
    notCompleted: seq<string>,
    skipped: seq<SkippedMember>)

  function StepContainer(step: RolloutStep): string { step.container }

  function Touched(report: RolloutReport): seq<string> { Names(StepContainer, report.steps) }

  function Claimed(report: RolloutReport): seq<string> { Touched(report) + report.notCompleted }

  /** Leaves the restarts out. */
  function MovedSteps(steps: seq<RolloutStep>): seq<string> {
    if steps == [] then []
    else
      MovedSteps(steps[..|steps| - 1])
      + (if steps[|steps| - 1].Restarted? then [] else [steps[|steps| - 1].container])
  }

  function ImageTargets(report: RolloutReport): seq<string> { MovedSteps(report.steps) + report.notCompleted }

  // ----- the update of one target -----

  type World = Recreate.World

  datatype Outcome =
    | Once(once: Result<Recreate.OneShotOutcome, DockerError>)
    | Plain(plain: Result<Recreate.RecreateOutcome, DockerError>)

  /** One update: the container name it was asked for, the worlds before and
      after, its course and what came out. */
  datatype Stage = Stage(name: string, before: World, after: World, course: Recreate.Course, outcome: Outcome)

  function CleanupFor(policy: Labels.Policy, pruneDangling: bool): Recreate.Cleanup {
    Recreate.Cleanup(policy.cleanup, pruneDangling)
  }

  /** `g` is what the recreate cycle of the target's kind promises. */
  ghost predicate IsStageOf(g: Stage, t: PlannedTarget, cfg: RolloutConfig, env: Health.Environment) {
    var cleanup := CleanupFor(t.policy, cfg.pruneDangling);
    && g.name == t.container
    && match t.kind
       case OneShot =>
         g.outcome.Once?
         && Recreate.RanOnce(g.before, g.after, g.name, cfg.oneShotTimeout, env, cleanup, g.outcome.once, g.course)
       case Service =>
         g.outcome.Plain?
         && Recreate.Updated(g.before, g.after, g.name, cfg.health, env, cleanup, t.policy.hooks, g.outcome.plain,
                             g.course)
  }

  /** What any update promises, whatever its gate. */
  ghost predicate IsUpdate(g: Stage) {
    && Recreate.Keeps(g.before, g.after, g.name, g.course, g.course.gate)
    && WellNamed(g.before.containers, g.before.issued) && WellNamed(g.after.containers, g.after.issued)
  }

  lemma StageIsUpdate(g: Stage, t: PlannedTarget, cfg: RolloutConfig, env: Health.Environment)
    requires IsStageOf(g, t, cfg, env)
    requires WellNamed(g.before.containers, g.before.issued) && WellNamed(g.after.containers, g.after.issued)
    ensures IsUpdate(g)
  {
    hide Recreate.Keeps;
  }

  /** How an update shows in the report of a rollout. */
  function StepOf(t: PlannedTarget, outcome: Outcome): Result<RolloutStep, AbortReason> {
    match outcome
    case Once(Success(OneShotCompleted)) => Success(RolloutStep.OneShotCompleted(t.container))
    case Once(Success(OneShotFailed(code))) => Failure(OneShotFailed(t.container, code))
    case Once(Success(OneShotTimedOut)) => Failure(OneShotTimedOut(t.container))
    case Once(Success(OneShotSkipped(reason))) => Failure(Deferred(t.container, reason))
    case Once(Failure(e)) => Failure(StepFailed(t.container, e))
    case Plain(Success(Recreated(_, newId))) => Success(Updated(t.container, newId, t.policy.notify))
    case Plain(Success(RolledBack(_))) => Failure(RolledBack(t.container))
    case Plain(Success(SkippedByHook(reason))) => Failure(Deferred(t.container, reason))
    case Plain(Failure(e)) => Failure(StepFailed(t.container, e))
  }

  method RunTarget(d: Daemon, t: PlannedTarget, cfg: RolloutConfig, env: Health.Environment, ghost step: nat)
    returns (r: Result<RolloutStep, AbortReason>, ghost g: Stage)
    requires d.Valid() && Health.Advances(env, step)
    modifies d
    ensures d.Valid() && g.before == old(Recreate.WorldOf(d)) && g.after == Recreate.WorldOf(d)
    ensures IsStageOf(g, t, cfg, env) && r == StepOf(t, g.outcome)
  {
    hide Daemon.Valid, Health.Advances, Recreate.RanOnce, Recreate.Updated;
    ghost var a := Recreate.WorldOf(d);
    var cleanup := CleanupFor(t.policy, cfg.pruneDangling);
    match t.kind {
      case OneShot =>
        var out, c := Recreate.RecreateOneShot(d, t.container, cfg.oneShotTimeout, env, step, cleanup);
        g := Stage(t.container, a, Recreate.WorldOf(d), c, Once(out));
        r := StepOf(t, Once(out));
      case Service =>
        var out, c := Recreate.RecreateWithHealth(d, t.container, cfg.health, env, step, cleanup, t.policy.hooks);
        g := Stage(t.container, a, Recreate.WorldOf(d), c, Plain(out));
        r := StepOf(t, Plain(out));
    }
  }

  /** The gate of the target's kind lets it pass after that many polls. */
  ghost predicate Passed(env: Health.Environment, cfg: RolloutConfig, t: PlannedTarget, polls: nat) {
    match t.kind
    case OneShot => Health.ExitVerdict(env, cfg.oneShotTimeout, Health.Finished(0), polls)
    case Service => Health.HealthVerdict(env, cfg.health, Health.Healthy, polls)
  }

  /** The gate looked and does not let the target pass. */
  ghost predicate TurnedDown(env: Health.Environment, cfg: RolloutConfig, t: PlannedTarget, polls: nat) {
    match t.kind
    case OneShot => exists outcome :: Health.ExitVerdict(env, cfg.oneShotTimeout, outcome, polls)
                                      && outcome != Health.Finished(0)
    case Service => exists outcome :: Health.HealthVerdict(env, cfg.health, outcome, polls)
                                      && outcome != Health.Healthy
  }

  ghost predicate IsStepFor(t: PlannedTarget, step: RolloutStep) {
    match t.kind
    case OneShot => step == RolloutStep.OneShotCompleted(t.container)
    case Service => step.Updated? && step.container == t.container && step.notify == t.policy.notify
  }

  /** Why the update of `t` was given up: an image is rejected on its gate's word
      alone, and a deferral left everything alone. */
  ghost predicate IsAbortOf(env: Health.Environment, cfg: RolloutConfig, t: PlannedTarget, g: Stage,
                            reason: AbortReason) {
    && reason.container == t.container
    && (RejectedTheImage(reason) ==> TurnedDown(env, cfg, t, g.course.polls))
    && match reason
       case OneShotFailed(_, code) =>
         t.kind == OneShot && code != 0
         && Health.ExitVerdict(env, cfg.oneShotTimeout, Health.Finished(code), g.course.polls)
       case OneShotTimedOut(_) =>
         t.kind == OneShot && Health.ExitVerdict(env, cfg.oneShotTimeout, Health.TimedOut, g.course.polls)
       case RolledBack(_) => t.kind == Service
       case Deferred(_, _) =>
         && t.kind == Service && t.policy.hooks.preUpdate.Some?
         && g.course.polls == 0 && g.after.containers == g.before.containers
       case StepFailed(_, _) =>
         g.course.polls == 0 || (t.kind == Service && TurnedDown(env, cfg, t, g.course.polls))
  }

  /** What a step or an abort says of the gate. */
  lemma StepMeans(g: Stage, t: PlannedTarget, cfg: RolloutConfig, env: Health.Environment)
    requires IsStageOf(g, t, cfg, env)
    ensures match StepOf(t, g.outcome)
            case Success(step) =>
              IsStepFor(t, step) && Passed(env, cfg, t, g.course.polls) && Recreate.Renewed(g.before, g.after, g.course)
            case Failure(reason) => IsAbortOf(env, cfg, t, g, reason)
  {
    hide Health.ExitVerdict, Health.HealthVerdict, Recreate.Renewed, Recreate.Gated, Recreate.PutBack,
      Recreate.Rejoined, Recreate.TidiedUp, Recreate.Stranded, Recreate.KeptAside, Recreate.ClearWay;
  }

  // ----- the report -----

  /** The first `k` steps complete the first `k` targets. */
  ghost predicate Completes(targets: seq<PlannedTarget>, steps: seq<RolloutStep>, k: nat) {
    k <= |targets| && k <= |steps| && forall i :: 0 <= i < k ==> IsStepFor(targets[i], steps[i])
  }

  /** The names that are not in `touched`. */
  function Without(names: seq<string>, touched: seq<string>): seq<string> {
    if names == [] then []
    else (if names[0] in touched then [] else [names[0]]) + Without(names[1..], touched)
  }

  ghost predicate OnlyRestarts(steps: seq<RolloutStep>, restarts: seq<string>) {
    && (forall i :: 0 <= i < |steps| ==> steps[i].Restarted?)
    && multiset(Names(StepContainer, steps)) <= multiset(restarts)
  }

  /** What a report says: the first `k` targets completed; then either the next
      one gave up, or nothing is left and only restarts follow. */
  ghost predicate Reports(plan: RolloutPlan, report: RolloutReport, k: nat) {
    && report.project == plan.project && report.skipped == plan.skipped
    && Completes(plan.targets, report.steps, k)
    && match report.aborted
       case Some(reason) =>
         && k < |plan.targets| && |report.steps| == k
         && reason.container == plan.targets[k].container
         && report.notCompleted == Without(TargetNames(plan), Touched(report))
       case None =>
         && k == |plan.targets| && report.notCompleted == []
         && OnlyRestarts(report.steps[k..], RestartsFor(plan, Services(plan.targets)))
  }

  /** The same containers under the same names, on the same images. */
  ghost predicate OnlyRestarted(before: Containers, s: Containers) {
    && (forall x :: x in s <==> x in before)
    && (forall x :: x in before ==>
          s[x].name == before[x].name && s[x].config == before[x].config && s[x].imageId == before[x].imageId)
  }

  /** One of `names` is resolved to `x`. */
  ghost predicate IsMeant(cs: Containers, names: seq<string>, x: Id) {
    UniqueNames(cs) && exists i :: 0 <= i < |names| && Resolve(cs, names[i]) == Some(x)
  }

  /** A state in which nobody but those meant by `names` has been stopped or
      started. */
  ghost predicate RestartState(before: Containers, s: Containers, names: seq<string>) {
    && OnlyRestarted(before, s)
    && forall x :: x in before && !IsMeant(before, names, x) ==> s[x] == before[x]
  }

  ghost predicate RestartRun(from: nat, h: seq<Containers>, before: Containers, names: seq<string>) {
    from <= |h| && forall i :: from <= i < |h| ==> RestartState(before, h[i], names)
  }

  /** A stop or a start of the container meant by `name`. */
  lemma FlippedOnly(before: Containers, cs: Containers, name: string, x: Id, c: Container)
    requires RestartState(before, cs, [name]) && UniqueNames(before) && Resolve(before, name) == Some(x) && x in cs
    requires c.name == cs[x].name && c.config == cs[x].config && c.imageId == cs[x].imageId
    ensures RestartState(before, cs[x := c], [name])
  {
    hide Resolve;
    assert [name][0] == name;
  }

  lemma SameOnly(before: Containers, names: seq<string>)
    ensures RestartState(before, before, names)
  {
  }

  /** Between two states from `from` on the container `name` is resolved to went
      from stopped to running. */
  ghost predicate Rerun(before: Containers, from: nat, h: seq<Containers>, name: string) {
    && UniqueNames(before) && Resolve(before, name).Some?
    && exists i :: from <= i < |h| - 1 && Rises(h, i, Resolve(before, name).value)
  }

  ghost predicate Rises(h: seq<Containers>, i: nat, x: Id)
    requires i + 1 < |h|
  {
    x in h[i] && x in h[i + 1] && !h[i][x].running && h[i + 1][x].running
  }

  /** The container `name` is resolved to runs in `s`. */
  ghost predicate IsUp(before: Containers, s: Containers, name: string) {
    && UniqueNames(before) && Resolve(before, name).Some?
    && Resolve(before, name).value in s && s[Resolve(before, name).value].running
  }

  /** No two of `names` mean the same container. */
  ghost predicate Distinctly(cs: Containers, names: seq<string>) {
    && UniqueNames(cs)
    && forall i, j :: 0 <= i < j < |names| && Resolve(cs, names[i]).Some? ==>
         Resolve(cs, names[i]) != Resolve(cs, names[j])
  }

  /** Only a fault can keep this container from being restarted: it exists and
      makes a network namespace of its own. */
  ghost predicate CanRestart(cs: Containers, container: string) {
    UniqueNames(cs) && Resolve(cs, container).Some? && !SharesNamespace(cs[Resolve(cs, container).value].config)
  }

  ghost predicate AllCanRestart(cs: Containers, containers: seq<string>) {
    forall i :: 0 <= i < |containers| ==> CanRestart(cs, containers[i])
  }

  lemma StaysRestartable(before: Containers, s: Containers, container: string)
    requires UniqueNames(before) && UniqueNames(s) && OnlyRestarted(before, s) && CanRestart(before, container)
    ensures CanRestart(s, container)
  {
    hide Resolve;
    SameLookup(before, s, container);
  }

  lemma OneCanRestart(before: Containers, s: Containers, containers: seq<string>, i: nat)
    requires UniqueNames(before) && UniqueNames(s) && OnlyRestarted(before, s)
    requires AllCanRestart(before, containers) && i < |containers|
    ensures CanRestart(s, containers[i])
  {
    hide CanRestart;
    StaysRestartable(before, s, containers[i]);
  }

  /** Stops and starts the container `container` resolves to, and no other. */
  method Restart(d: Daemon, container: string) returns (done: bool)
    requires d.Valid()
    modifies d`containers, d`history, d`faults, d`generation
    ensures d.Valid() && Continues(old(d.history), d.history) && d.faults >= old(d.faults)
    ensures RestartRun(|old(d.history)|, d.history, old(d.containers), [container])
    ensures RestartState(old(d.containers), d.containers, [container])
    ensures done ==>
              && Rerun(old(d.containers), |old(d.history)|, d.history, container)
              && IsUp(old(d.containers), d.containers, container)
    ensures d.faults == old(d.faults) && CanRestart(old(d.containers), container) ==> done
  {
    hide IsFullId, UniqueNames, NamespacesOwned, ImagesKept, Resolve, RestartState;
    ghost var before, h0 := d.containers, d.history;
    SameOnly(before, [container]);
    var x := d.Lookup(container);
    var _ := d.Inspect(container);
    var stopped := d.Stop(container);
    if stopped.Failure? { return false; }
    FlippedOnly(before, before, container, x.value, d.containers[x.value]);
    ghost var middle := d.containers;
    OnlyState(before, middle, [container]);
    SameLookup(before, middle, container);
    var started := d.Start(container);
    if started.Success? {
      FlippedOnly(before, middle, container, x.value, d.containers[x.value]);
      assert Rises(d.history, |h0|, x.value);
    }
    return started.Success?;
  }

  lemma OnlyState(before: Containers, s: Containers, names: seq<string>)
    requires RestartState(before, s, names)
    ensures OnlyRestarted(before, s)
  {
  }

  lemma SameLookup(before: Containers, s: Containers, reference: string)
    requires UniqueNames(before) && UniqueNames(s) && OnlyRestarted(before, s)
    ensures Resolve(s, reference) == Resolve(before, reference)
  {
  }

  /** The first updates of `targets`, each of which made a step, and the one that
      gave up, if one did. */
  ghost predicate Worked(targets: seq<PlannedTarget>, cfg: RolloutConfig, envs: nat -> Health.Environment,
                         stages: seq<Stage>, steps: seq<RolloutStep>, aborted: Option<AbortReason>) {
    && |stages| == (if aborted.Some? then |steps| + 1 else |steps|) && |stages| <= |targets|
    && (forall i :: 0 <= i < |stages| ==> IsStageOf(stages[i], targets[i], cfg, envs(i)))
    && (forall i :: 0 <= i < |steps| ==> StepOf(targets[i], stages[i].outcome) == Success(steps[i]))
    && (aborted.Some? ==> StepOf(targets[|steps|], stages[|steps|].outcome) == Failure(aborted.value))
  }

  /** The updates follow one another, each from where the last one ended. */
  ghost predicate Chained(stages: seq<Stage>, a: World, b: World)
    decreases |stages|
  {
    if stages == [] then b == a
    else
      var last := stages[|stages| - 1];
      IsUpdate(last) && last.after == b && Chained(stages[..|stages| - 1], a, last.before)
  }

  /** From `m` to `b` containers meant by `names` were stopped and started, and
      nobody else was touched. */
  ghost predicate AfterRestarts(m: World, b: World, names: seq<string>) {
    && b == m.(containers := b.containers, history := b.history, faults := b.faults) && b.faults >= m.faults
    && Continues(m.history, b.history)
    && RestartState(m.containers, b.containers, names) && RestartRun(|m.history|, b.history, m.containers, names)
  }

  /** The restarts that were reported took place: each container was stopped and
      then ran, and it runs at the end unless another name means it too. */
  ghost predicate TookPlace(m: World, b: World, names: seq<string>, steps: seq<RolloutStep>) {
    && (forall step :: step in steps ==> Rerun(m.containers, |m.history|, b.history, step.container))
    && (Distinctly(m.containers, names) ==>
          forall step :: step in steps ==> IsUp(m.containers, b.containers, step.container))
  }

  lemma NoneAfter(m: World, names: seq<string>)
    ensures AfterRestarts(m, m, names) && OnlyRestarts([], []) && TookPlace(m, m, names, [])
  {
  }

  lemma CompletesPush(targets: seq<PlannedTarget>, cfg: RolloutConfig, envs: nat -> Health.Environment,
                      stages: seq<Stage>, steps: seq<RolloutStep>, aborted: Option<AbortReason>)
    requires Worked(targets, cfg, envs, stages, steps, aborted)
    ensures Completes(targets, steps, |steps|)
    ensures aborted.Some? ==> aborted.value.container == targets[|steps|].container
  {
    hide IsStageOf, StepOf, IsStepFor, Passed, IsAbortOf, Recreate.Renewed;
    forall i | 0 <= i < |steps|
      ensures IsStepFor(targets[i], steps[i])
    {
      StepMeans(stages[i], targets[i], cfg, envs(i));
    }
    if aborted.Some? {
      StepMeans(stages[|steps|], targets[|steps|], cfg, envs(|steps|));
      AbortNames(envs(|steps|), cfg, targets[|steps|], stages[|steps|], aborted.value);
    }
  }

  lemma AbortNames(env: Health.Environment, cfg: RolloutConfig, t: PlannedTarget, g: Stage, reason: AbortReason)
    requires IsAbortOf(env, cfg, t, g, reason)
    ensures reason.container == t.container
  {
  }

  /** The updates, in plan order, up to the first that gives up. */
  method UpdateTargets(d: Daemon, plan: RolloutPlan, cfg: RolloutConfig, envs: nat -> Health.Environment,
                       ghost step: nat)
    returns (steps: seq<RolloutStep>, aborted: Option<AbortReason>, updated: set<string>, ghost stages: seq<Stage>)
    requires d.Valid() && forall i: nat :: Health.Advances(envs(i), step)
    modifies d
    ensures d.Valid() && Chained(stages, old(Recreate.WorldOf(d)), Recreate.WorldOf(d))
    ensures Worked(plan.targets, cfg, envs, stages, steps, aborted)
    ensures aborted.None? ==> |steps| == |plan.targets| && updated == Services(plan.targets)
  {
    hide Chained, IsUpdate, IsStageOf, Health.Advances, Daemon.Valid, StepOf, WellNamed;
    ghost var a := Recreate.WorldOf(d);
    steps, updated, stages := [], {}, [];
    ChainedNothing(a);
    for i := 0 to |plan.targets|
      invariant d.Valid() && i == |steps| == |stages|
      invariant Worked(plan.targets, cfg, envs, stages, steps, None)
      invariant Chained(stages, a, Recreate.WorldOf(d))
      invariant updated == Services(plan.targets[..i])
    {
      var t := plan.targets[i];
      DaemonNamed(d);
      var done, g := RunTarget(d, t, cfg, envs(i), step);
      DaemonNamed(d);
      StageIsUpdate(g, t, cfg, envs(i));
      ChainedPush(stages, g, a);
      stages := stages + [g];
      if done.Failure? {
        return steps, Some(done.error), updated, stages;
      }
      steps := steps + [done.value];
      ServicesPush(plan.targets, i);
      updated := updated + {t.service};
    }
    assert plan.targets[..|plan.targets|] == plan.targets;
    aborted := None;
  }

  lemma ChainedNothing(a: World)
    ensures Chained([], a, a)
  {
  }

  lemma ChainedPush(stages: seq<Stage>, g: Stage, a: World)
    requires Chained(stages, a, g.before) && IsUpdate(g)
    ensures Chained(stages + [g], a, g.after)
  {
    assert (stages + [g])[..|stages|] == stages;
  }

  lemma ServicesPush(targets: seq<PlannedTarget>, i: nat)
    requires i < |targets|
    ensures Services(targets[..i + 1]) == Services(targets[..i]) + {targets[i].service}
  {
    assert targets[..i + 1] == targets[..i] + [targets[i]];
  }

  method RestartAll(d: Daemon, restarts: seq<string>) returns (more: seq<RolloutStep>)
    requires d.Valid()
    modifies d`containers, d`history, d`faults, d`generation
    ensures d.Valid() && d.faults >= old(d.faults)
    ensures AfterRestarts(old(Recreate.WorldOf(d)), Recreate.WorldOf(d), restarts)
    ensures OnlyRestarts(more, restarts)
    ensures TookPlace(old(Recreate.WorldOf(d)), Recreate.WorldOf(d), restarts, more)
    ensures d.faults == old(d.faults) && AllCanRestart(old(d.containers), restarts) ==>
              Names(StepContainer, more) == restarts
    ensures restarts == [] ==> Recreate.WorldOf(d) == old(Recreate.WorldOf(d))
  {
    hide AfterRestarts, OnlyRestarts, TookPlace, RestartRun, RestartState, Rerun, IsUp, Continues, Daemon.Valid,
      CanRestart, AllCanRestart, Names, Resolve, UniqueNames;
    ghost var m := Recreate.WorldOf(d);
    more := [];
    DaemonNamesUnique(d);
    NoneAfter(m, restarts);
    for i := 0 to |restarts|
      invariant d.Valid() && d.faults >= old(d.faults)
      invariant d.faults == old(d.faults) && AllCanRestart(old(d.containers), restarts) ==>
                  Names(StepContainer, more) == restarts[..i]
      invariant AfterRestarts(m, Recreate.WorldOf(d), restarts)
      invariant OnlyRestarts(more, restarts[..i]) && TookPlace(m, Recreate.WorldOf(d), restarts, more)
      invariant i == 0 ==> Recreate.WorldOf(d) == m
    {
      var done := RestartOne(d, m, restarts, i, more);
      OneMore(more, restarts, i);
      NamesPush(StepContainer, more, Restarted(restarts[i]));
      assert restarts[..i + 1] == restarts[..i] + [restarts[i]];
      if done {
        more := more + [Restarted(restarts[i])];
      }
    }
    assert restarts[..|restarts|] == restarts;
  }

  lemma OneMore(more: seq<RolloutStep>, restarts: seq<string>, i: nat)
    requires i < |restarts| && OnlyRestarts(more, restarts[..i])
    ensures OnlyRestarts(more, restarts[..i + 1])
    ensures OnlyRestarts(more + [Restarted(restarts[i])], restarts[..i + 1])
  {
    assert restarts[..i + 1] == restarts[..i] + [restarts[i]];
    NamesPush(StepContainer, more, Restarted(restarts[i]));
  }

  /** One of the restarts, in terms of all of them. */
  method RestartOne(d: Daemon, ghost m: World, restarts: seq<string>, i: nat, ghost more: seq<RolloutStep>)
    returns (done: bool)
    requires d.Valid() && i < |restarts| && AfterRestarts(m, Recreate.WorldOf(d), restarts)
    requires OnlyRestarts(more, restarts[..i]) && TookPlace(m, Recreate.WorldOf(d), restarts, more)
    requires UniqueNames(m.containers)
    modifies d`containers, d`history, d`faults, d`generation
    ensures d.Valid() && d.faults >= old(d.faults)
    ensures AfterRestarts(m, Recreate.WorldOf(d), restarts)
    ensures TookPlace(m, Recreate.WorldOf(d), restarts, if done then more + [Restarted(restarts[i])] else more)
    ensures d.faults == old(d.faults) && AllCanRestart(m.containers, restarts) ==> done
  {
    hide OnlyRestarts, TookPlace, RestartState, RestartRun, Rerun, IsUp, Daemon.Valid, CanRestart, AllCanRestart,
      Resolve, UniqueNames, OnlyRestarted;
    ghost var w := Recreate.WorldOf(d);
    DaemonNamesUnique(d);
    OnlyState(m.containers, w.containers, restarts);
    if AllCanRestart(m.containers, restarts) { OneCanRestart(m.containers, w.containers, restarts, i); }
    done := Restart(d, restarts[i]);
    RestartsJoin(m, w, Recreate.WorldOf(d), restarts, i);
    OthersTookPlace(m, w, Recreate.WorldOf(d), restarts, i, more);
    if done {
      SeenEarlier(m.containers, w.containers, d.containers, |m.history|, |w.history|, d.history, restarts[i]);
      OneMoreTookPlace(m, Recreate.WorldOf(d), restarts, more, Restarted(restarts[i]));
    }
  }

  lemma RestartsJoin(m: World, w: World, b: World, restarts: seq<string>, i: nat)
    requires i < |restarts| && AfterRestarts(m, w, restarts) && AfterRestarts(w, b, [restarts[i]])
    requires UniqueNames(m.containers) && UniqueNames(w.containers)
    ensures AfterRestarts(m, b, restarts)
  {
    hide RestartState;
    StateJoin(m.containers, w.containers, b.containers, restarts, i);
    forall k | |m.history| <= k < |b.history|
      ensures RestartState(m.containers, b.history[k], restarts)
    {
      if k >= |w.history| { StateJoin(m.containers, w.containers, b.history[k], restarts, i); }
    }
  }

  lemma StateJoin(before: Containers, s: Containers, t: Containers, restarts: seq<string>, i: nat)
    requires i < |restarts| && RestartState(before, s, restarts) && RestartState(s, t, [restarts[i]])
    requires UniqueNames(before) && UniqueNames(s)
    ensures RestartState(before, t, restarts)
  {
    hide Resolve, UniqueNames;
    SameLookup(before, s, restarts[i]);
  }

  lemma StillRerun(before: Containers, from: nat, h: seq<Containers>, longer: seq<Containers>, name: string)
    requires Rerun(before, from, h, name) && Continues(h, longer)
    ensures Rerun(before, from, longer, name)
  {
    hide Resolve, UniqueNames;
    var k :| from <= k < |h| - 1 && Rises(h, k, Resolve(before, name).value);
    assert Rises(longer, k, Resolve(before, name).value);
  }

  lemma StillUp(before: Containers, s: Containers, t: Containers, name: string, other: string)
    requires UniqueNames(before) && UniqueNames(s) && OnlyRestarted(before, s) && RestartState(s, t, [other])
    requires IsUp(before, s, name) && Resolve(before, other) != Resolve(before, name)
    ensures IsUp(before, t, name)
  {
    hide Resolve, UniqueNames;
    SameLookup(before, s, other);
    assert !IsMeant(s, [other], Resolve(before, name).value);
  }

  /** A later restart does not undo an earlier one of another container. */
  lemma OthersTookPlace(m: World, w: World, b: World, restarts: seq<string>, i: nat, more: seq<RolloutStep>)
    requires i < |restarts| && OnlyRestarted(m.containers, w.containers)
    requires RestartState(w.containers, b.containers, [restarts[i]])
    requires UniqueNames(m.containers) && UniqueNames(w.containers) && Continues(w.history, b.history)
    requires OnlyRestarts(more, restarts[..i]) && TookPlace(m, w, restarts, more)
    ensures TookPlace(m, b, restarts, more)
  {
    hide Resolve, UniqueNames, OnlyRestarts, Rerun, IsUp, OnlyRestarted, RestartState;
    forall step | step in more
      ensures Rerun(m.containers, |m.history|, b.history, step.container)
      ensures Distinctly(m.containers, restarts) ==> IsUp(m.containers, b.containers, step.container)
    {
      StillRerun(m.containers, |m.history|, w.history, b.history, step.container);
      if Distinctly(m.containers, restarts) {
        StepIsNamed(more, restarts[..i], step);
        OtherThanEarlier(m.containers, w.containers, restarts, i, step.container);
        StillUp(m.containers, w.containers, b.containers, step.container, restarts[i]);
      }
    }
  }

  lemma OtherThanEarlier(before: Containers, s: Containers, restarts: seq<string>, i: nat, name: string)
    requires i < |restarts| && Distinctly(before, restarts) && name in restarts[..i] && IsUp(before, s, name)
    ensures Resolve(before, restarts[i]) != Resolve(before, name)
  {
    hide Resolve, UniqueNames;
    var j :| 0 <= j < i && restarts[..i][j] == name;
    assert restarts[j] == name;
  }

  lemma StepIsNamed(more: seq<RolloutStep>, names: seq<string>, step: RolloutStep)
    requires OnlyRestarts(more, names) && step in more
    ensures step.container in names
  {
    var i :| 0 <= i < |more| && more[i] == step;
    assert Names(StepContainer, more)[i] == step.container;
    InSeq(Names(StepContainer, more), step.container);
    InSeq(names, step.container);
  }

  /** The same restart, seen from an earlier state. */
  lemma SeenEarlier(before: Containers, s: Containers, t: Containers, from: nat, at: nat, h: seq<Containers>,
                    name: string)
    requires UniqueNames(before) && UniqueNames(s) && OnlyRestarted(before, s) && from <= at
    requires Rerun(s, at, h, name) && IsUp(s, t, name)
    ensures Rerun(before, from, h, name) && IsUp(before, t, name)
  {
    hide Resolve, UniqueNames, OnlyRestarted;
    SameLookup(before, s, name);
  }

  lemma OneMoreTookPlace(m: World, b: World, restarts: seq<string>, more: seq<RolloutStep>, step: RolloutStep)
    requires TookPlace(m, b, restarts, more)
    requires Rerun(m.containers, |m.history|, b.history, step.container)
    requires IsUp(m.containers, b.containers, step.container)
    ensures TookPlace(m, b, restarts, more + [step])
  {
    hide Rerun, IsUp, Distinctly;
  }

  lemma DaemonNamed(d: Daemon)
    requires d.Valid()
    ensures WellNamed(d.containers, d.issued)
  {
  }

  lemma DaemonNamesUnique(d: Daemon)
    requires d.Valid()
    ensures UniqueNames(d.containers)
  {
  }

  /** A rollout as it went: the plan, the number of targets it completed, the
      updates, and the worlds in which it began and in which the updates were
      over. */
  datatype Run = Run(plan: RolloutPlan, k: nat, stages: seq<Stage>, start: World, middle: World)

  /** What `execute` guarantees: the report accounts for every target, what it
      reports did happen, each update is the recreate cycle of its target from
      where the last one ended, and after them come restarts or nothing. */
  ghost predicate Ran(run: Run, cfg: RolloutConfig, envs: nat -> Health.Environment, report: RolloutReport, b: World) {
    && Reports(run.plan, report, run.k)
    && Worked(run.plan.targets, cfg, envs, run.stages, report.steps[..run.k], report.aborted)
    && Chained(run.stages, run.start, run.middle)
    && var restarts := RestartsFor(run.plan, Services(run.plan.targets));
       && (if report.aborted.Some? then b == run.middle
           else
             && AfterRestarts(run.middle, b, restarts)
             && TookPlace(run.middle, b, restarts, report.steps[run.k..]))
       && (restarts == [] ==> b == run.middle)
  }

  method Execute(d: Daemon, plan: RolloutPlan, cfg: RolloutConfig, envs: nat -> Health.Environment, ghost step: nat)
    returns (report: RolloutReport, ghost run: Run)
    requires d.Valid() && forall i: nat :: Health.Advances(envs(i), step)
    modifies d
    ensures d.Valid() && run.plan == plan && run.start == old(Recreate.WorldOf(d))
    ensures Ran(run, cfg, envs, report, Recreate.WorldOf(d))
    // without a fault every restart that can be done is done
    ensures report.aborted.None? && d.faults == old(d.faults)
            && AllCanRestart(run.middle.containers, RestartsFor(plan, Services(plan.targets))) ==>
              Names(StepContainer, report.steps[run.k..]) == RestartsFor(plan, Services(plan.targets))
  {
    hide Chained, IsStageOf, RestartsFor, Health.Advances, Daemon.Valid, AfterRestarts, StepOf, Without, OnlyRestarts,
      TookPlace, Worked, AllCanRestart, IsStepFor;
    ghost var a := Recreate.WorldOf(d);
    var steps, aborted, updated, stages := UpdateTargets(d, plan, cfg, envs, step);
    ghost var m := Recreate.WorldOf(d);
    run := Run(plan, |steps|, stages, a, m);
    CompletesPush(plan.targets, cfg, envs, stages, steps, aborted);
    ChainedFaults(stages, a, m);
    WorkedLength(plan.targets, cfg, envs, stages, steps, aborted);
    NoneAfter(m, []);
    if aborted.Some? {
      var left := Without(TargetNames(plan), Names(StepContainer, steps));
      report := RolloutReport(plan.project, steps, aborted, left, plan.skipped);
      assert steps[..|steps|] == steps;
      return;
    }
    var more := RestartAll(d, RestartsFor(plan, updated));
    assert (steps + more)[..|steps|] == steps && (steps + more)[|steps|..] == more;
    report := RolloutReport(plan.project, steps + more, None, [], plan.skipped);
  }

  lemma WorkedLength(targets: seq<PlannedTarget>, cfg: RolloutConfig, envs: nat -> Health.Environment,
                     stages: seq<Stage>, steps: seq<RolloutStep>, aborted: Option<AbortReason>)
    requires Worked(targets, cfg, envs, stages, steps, aborted)
    ensures |stages| == (if aborted.Some? then |steps| + 1 else |steps|) && |stages| <= |targets|
  {
  }

  lemma {:induction false} ChainedFaults(stages: seq<Stage>, a: World, b: World)
    requires Chained(stages, a, b)
    ensures b.faults >= a.faults && b.contentOf == a.contentOf && PullsKept(a.pulls, b.pulls)
    decreases |stages|
  {
    if stages != [] {
      var last := stages[|stages| - 1];
      ChainedFaults(stages[..|stages| - 1], a, last.before);
      UpdateGrows(last);
    }
  }

  lemma UpdateGrows(g: Stage)
    requires IsUpdate(g)
    ensures g.after.faults >= g.before.faults && g.after.contentOf == g.before.contentOf
    ensures PullsKept(g.before.pulls, g.after.pulls)
  {
  }

  // ----- the report accounts for every target -----

  lemma {:induction false} MovedPrefix(targets: seq<PlannedTarget>, steps: seq<RolloutStep>, k: nat)
    requires Completes(targets, steps, k)
    ensures MovedSteps(steps[..k]) == Names(ContainerOf, targets)[..k]
    ensures Names(StepContainer, steps)[..k] == Names(ContainerOf, targets)[..k]
  {
    if k > 0 {
      MovedPrefix(targets, steps, k - 1);
      assert steps[..k][..k - 1] == steps[..k - 1];
      assert IsStepFor(targets[k - 1], steps[k - 1]);
    }
  }

  lemma {:induction false} MovedThenRestarts(steps: seq<RolloutStep>, k: nat)
    requires k <= |steps| && forall i :: k <= i < |steps| ==> steps[i].Restarted?
    ensures MovedSteps(steps) == MovedSteps(steps[..k])
    decreases |steps|
  {
    if k == |steps| {
      assert steps[..k] == steps;
    } else {
      var front := steps[..|steps| - 1];
      MovedThenRestarts(front, k);
      assert front[..k] == steps[..k];
    }
  }

  lemma {:induction false} WithoutAll(names: seq<string>, touched: seq<string>)
    requires forall i :: 0 <= i < |names| ==> names[i] !in touched
    ensures Without(names, touched) == names
  {
    if names != [] { WithoutAll(names[1..], touched); }
  }

  lemma {:induction false} WithoutTail(names: seq<string>, touched: seq<string>, k: nat)
    requires k <= |names|
    requires forall i :: 0 <= i < |names| ==> (names[i] in touched <==> i < k)
    ensures Without(names, touched) == names[k..]
  {
    if k == 0 {
      WithoutAll(names, touched);
    } else {
      WithoutTail(names[1..], touched, k - 1);
      assert names[1..][k - 1..] == names[k..];
    }
  }

  /** Aborted or not, the report lists as image targets exactly the planned
      containers, in plan order. */
  lemma ImageTargetsArePlanned(plan: RolloutPlan, report: RolloutReport, k: nat)
    requires Reports(plan, report, k) && NoRepeats(TargetNames(plan))
    ensures ImageTargets(report) == TargetNames(plan)
    ensures report.aborted.Some? ==> report.notCompleted == TargetNames(plan)[k..]
  {
    hide Names, IsStepFor, MovedSteps, Without, RestartsFor;
    var names, steps := TargetNames(plan), report.steps;
    MovedPrefix(plan.targets, steps, k);
    forall i | k <= i < |steps|
      ensures steps[i].Restarted?
    {
      assert steps[i] == steps[k..][i - k];
    }
    MovedThenRestarts(steps, k);
    if report.aborted.Some? {
      assert Touched(report) == names[..k];
      assert forall i :: 0 <= i < |names| ==> (names[i] in names[..k] <==> i < k);
      WithoutTail(names, Touched(report), k);
      assert names[..k] + names[k..] == names;
    } else {
      assert names[..k] == names;
    }
  }

  /** For a plan of uniquely named members: no container is claimed twice, every
      target is claimed, and what was merely restarted is no target. */
  lemma ClaimsAreDisjoint(w: Moved, ms: seq<Compose.ProjectMember>, plan: RolloutPlan, report: RolloutReport, k: nat)
    requires IsPlan(w, ms, plan) && UniqueMembers(ms) && Reports(plan, report, k)
    ensures NoRepeats(Claimed(report))
    ensures forall n :: n in TargetNames(plan) ==> n in Claimed(report)
    ensures forall step :: step in report.steps && step.Restarted? ==> step.container !in TargetNames(plan)
  {
    hide *;
    PlanPartition(w, ms, plan, "");
    var names, tail := TargetNames(plan), Names(StepContainer, RestartSteps(report, k));
    ClaimedIs(plan, report, k);
    RestartsOnce(w, ms, plan, Services(plan.targets));
    forall n
      ensures n in RestartsFor(plan, Services(plan.targets)) ==> n !in names
    {
      RestartsApart(w, ms, plan, Services(plan.targets), n);
    }
    JoinNoRepeats(names, RestartsFor(plan, Services(plan.targets)), tail);
    RestartedInTail(plan, report, k);
  }

  /** The steps after the completed targets. */
  ghost function RestartSteps(report: RolloutReport, k: nat): seq<RolloutStep> {
    if k <= |report.steps| then report.steps[k..] else []
  }

  lemma ClaimedIs(plan: RolloutPlan, report: RolloutReport, k: nat)
    requires Reports(plan, report, k) && NoRepeats(TargetNames(plan))
    ensures Claimed(report) == TargetNames(plan) + Names(StepContainer, RestartSteps(report, k))
    ensures multiset(Names(StepContainer, RestartSteps(report, k))) <=
            multiset(RestartsFor(plan, Services(plan.targets)))
  {
    hide NoRepeats, MovedSteps, RestartsFor, IsStepFor, Without, Services;
    var names := TargetNames(plan);
    ImageTargetsArePlanned(plan, report, k);
    MovedPrefix(plan.targets, report.steps, k);
    if report.aborted.Some? {
      assert RestartSteps(report, k) == [];
      assert names[..k] + names[k..] == names;
    }
  }

  lemma JoinNoRepeats(names: seq<string>, restarts: seq<string>, tail: seq<string>)
    requires NoRepeats(names) && NoRepeats(restarts) && multiset(tail) <= multiset(restarts)
    requires forall n :: n in restarts ==> n !in names
    ensures NoRepeats(names + tail) && forall n :: n in tail ==> n !in names
  {
    hide NoRepeats;
    forall n
      ensures multiset(names + tail)[n] <= 1 && (n in tail ==> n !in names)
    {
      NoRepeatsCounts(names, n);
      NoRepeatsCounts(restarts, n);
      assert multiset(tail)[n] <= multiset(restarts)[n];
      InSeq(tail, n);
      InSeq(restarts, n);
      InSeq(names, n);
    }
    CountsNoRepeats(names + tail);
  }

  lemma RestartedInTail(plan: RolloutPlan, report: RolloutReport, k: nat)
    requires Reports(plan, report, k)
    ensures forall step :: step in report.steps && step.Restarted? ==>
              step.container in Names(StepContainer, RestartSteps(report, k))
  {
    hide IsStepFor, Without, RestartsFor, OnlyRestarts;
    var steps := report.steps;
    forall step | step in steps && step.Restarted?
      ensures step.container in Names(StepContainer, steps[k..])
    {
      var i :| 0 <= i < |steps| && steps[i] == step;
      if i < k { StepIsNoRestart(plan.targets[i], step); }
      assert Names(StepContainer, steps[k..])[i - k] == step.container;
    }
  }

  lemma InSeq(s: seq<string>, n: string)
    ensures n in s <==> multiset(s)[n] > 0
  {
  }

  lemma StepIsNoRestart(t: PlannedTarget, step: RolloutStep)
    requires IsStepFor(t, step)
    ensures !step.Restarted?
  {
  }

  // ----- what happens on the way -----

  /** Nothing on the way from `h0` lost a container of `cs0`. */
  ghost predicate KeepsAll(h0: seq<Containers>, h: seq<Containers>, cs0: Containers, cs: Containers) {
    Continues(h0, h) && Survives(cs0, cs) && forall i :: |h0| <= i < |h| ==> Survives(cs0, h[i])
  }

  lemma KeepsAllJoin(h0: seq<Containers>, h1: seq<Containers>, h: seq<Containers>, cs0: Containers, cs1: Containers,
                     cs: Containers)
    requires KeepsAll(h0, h1, cs0, cs1) && KeepsAll(h1, h, cs1, cs)
    ensures KeepsAll(h0, h, cs0, cs)
  {
    hide Survives;
    SurvivesTransitive(cs0, cs1, cs);
    forall i | |h0| <= i < |h|
      ensures Survives(cs0, h[i])
    {
      if i >= |h1| { SurvivesTransitive(cs0, cs1, h[i]); }
    }
  }

  lemma SurvivesItself(s: Containers)
    ensures Survives(s, s)
  {
    forall x | x in s
      ensures HasHeir(s, s[x].name)
    {
      assert Rename.Descends(s[x].name, s[x].name);
    }
  }

  /** In no state of an update has a container been lost. */
  lemma UpdateKeepsAll(g: Stage)
    requires IsUpdate(g)
    ensures KeepsAll(g.before.history, g.after.history, g.before.containers, g.after.containers)
  {
    hide Survives, CycleState, Resolve, UniqueNames, Recreate.ServedNow, Recreate.AreDependents, Swap.WasDown;
    var a, b, c := g.before, g.after, g.course;
    SurvivesItself(a.containers);
    if c.owner.Some? {
      CycleSurvives(a.containers, a.issued, b.containers, c.owner.value, c.deps, c.from);
      forall i | |a.history| <= i < |b.history|
        ensures Survives(a.containers, b.history[i])
      {
        CycleSurvives(a.containers, a.issued, b.history[i], c.owner.value, c.deps, c.from);
      }
    }
  }

  lemma {:induction false} ChainedKeepsAll(stages: seq<Stage>, a: World, b: World)
    requires Chained(stages, a, b)
    ensures KeepsAll(a.history, b.history, a.containers, b.containers)
    decreases |stages|
  {
    hide KeepsAll, IsUpdate;
    if stages == [] {
      NothingLost(a.history, a.containers);
    } else {
      var last := stages[|stages| - 1];
      ChainedKeepsAll(stages[..|stages| - 1], a, last.before);
      UpdateKeepsAll(last);
      KeepsAllJoin(a.history, last.before.history, b.history, a.containers, last.before.containers, b.containers);
    }
  }

  lemma NothingLost(h: seq<Containers>, cs: Containers)
    ensures KeepsAll(h, h, cs, cs)
  {
    SurvivesItself(cs);
  }

  lemma RestartedSurvives(cs0: Containers, before: Containers, s: Containers)
    requires Survives(cs0, before) && OnlyRestarted(before, s)
    ensures Survives(cs0, s)
  {
    forall x | x in cs0
      ensures HasHeir(s, cs0[x].name)
    {
      assert HasHeir(before, cs0[x].name);
      var y :| y in before && Rename.Descends(before[y].name, cs0[x].name);
      assert y in s && s[y].name == before[y].name;
    }
  }

  lemma RestartsKeepAll(m: World, b: World, names: seq<string>)
    requires AfterRestarts(m, b, names)
    ensures KeepsAll(m.history, b.history, m.containers, b.containers)
  {
    hide Survives, OnlyRestarted, IsMeant;
    SurvivesItself(m.containers);
    RestartedSurvives(m.containers, m.containers, b.containers);
    forall i | |m.history| <= i < |b.history|
      ensures Survives(m.containers, b.history[i])
    {
      RestartedSurvives(m.containers, m.containers, b.history[i]);
    }
  }

  /** Never lose a container: in every state of every rollout each initial
      container has itself, a replacement or an archive to show for it. */
  lemma RolloutSurvives(run: Run, cfg: RolloutConfig, envs: nat -> Health.Environment, report: RolloutReport, b: World)
    requires Ran(run, cfg, envs, report, b)
    ensures KeepsAll(run.start.history, b.history, run.start.containers, b.containers)
  {
    hide KeepsAll, Reports, Worked, AfterRestarts, TookPlace, Chained, RestartsFor;
    var a, m := run.start, run.middle;
    ChainedKeepsAll(run.stages, a, m);
    NothingLost(m.history, m.containers);
    if report.aborted.None? { RestartsKeepAll(m, b, RestartsFor(run.plan, Services(run.plan.targets))); }
    KeepsAllJoin(a.history, m.history, b.history, a.containers, m.containers, b.containers);
  }

  /** No update asked for by one of `names` can be meant for the container `x`
      of `cs`: none is its name or a prefix of its id, and it does not borrow
      anyone's network. */
  ghost predicate Apart(names: seq<string>, cs: Containers, x: Id) {
    x in cs && !SharesNamespace(cs[x].config) && forall n :: n in names ==> n != cs[x].name && !(n <= x)
  }

  /** `x` is the same in every state from `a` to `b`. */
  ghost predicate Untouched(a: World, b: World, x: Id) {
    && Continues(a.history, b.history)
    && x in a.containers && x in b.containers && b.containers[x] == a.containers[x]
    && forall i :: |a.history| <= i < |b.history| ==> x in b.history[i] && b.history[i][x] == a.containers[x]
  }

  /** Whoever no restart can be meant for is the same in every state of them: none
      of the names is its own or a prefix of its id. */
  lemma RestartsLeaveApart(m: World, b: World, names: seq<string>, x: Id)
    requires AfterRestarts(m, b, names) && x in m.containers
    requires forall n :: n in names ==> n != m.containers[x].name && !(n <= x)
    ensures Untouched(m, b, x)
  {
    forall i | 0 <= i < |names| && UniqueNames(m.containers)
      ensures Resolve(m.containers, names[i]) != Some(x)
    {
      assert names[i] in names;
      NotMeant(m.containers, names[i], x);
    }
  }

  lemma NotMeant(cs: Containers, name: string, x: Id)
    requires UniqueNames(cs) && x in cs && name != cs[x].name && !(name <= x)
    ensures Resolve(cs, name) != Some(x)
  {
  }

  /** No container of a target is restarted, unless its id starts with the name of
      one that is: it is the same in every state of the restarts. */
  lemma TargetsAreNotRestarted(w: Moved, ms: seq<Compose.ProjectMember>, run: Run, cfg: RolloutConfig,
                               envs: nat -> Health.Environment, report: RolloutReport, b: World, x: Id)
    requires IsPlan(w, ms, run.plan) && UniqueMembers(ms) && Ran(run, cfg, envs, report, b)
    requires x in run.middle.containers && run.middle.containers[x].name in TargetNames(run.plan)
    requires forall n :: n in RestartsFor(run.plan, Services(run.plan.targets)) ==> !(n <= x)
    ensures Untouched(run.middle, b, x)
  {
    hide IsPlan, UniqueMembers, Reports, Worked, Chained, RestartsFor, AfterRestarts, TookPlace, Untouched;
    var m, names := run.middle, RestartsFor(run.plan, Services(run.plan.targets));
    if report.aborted.Some? {
      NothingTouched(m, x);
    } else {
      forall n | n in names
        ensures n != m.containers[x].name
      {
        RestartsApart(w, ms, run.plan, Services(run.plan.targets), n);
      }
      RestartsLeaveApart(m, b, names, x);
    }
  }

  lemma NothingTouched(m: World, x: Id)
    requires x in m.containers
    ensures Untouched(m, m, x)
  {
  }

  lemma UpdateLeavesApart(g: Stage, x: Id)
    requires IsUpdate(g) && Apart([g.name], g.before.containers, x)
    ensures Untouched(g.before, g.after, x)
  {
    hide Recreate.ServedNow, Swap.WasDown;
    var a, c := g.before, g.course;
    assert g.name in [g.name];
    if c.owner.Some? {
      assert c.owner.value != x;
      assert a.containers[x].name !in c.deps by {
        if a.containers[x].name in c.deps { NoBorrower(a, c.owner.value, c.deps, x); }
      }
    }
  }

  lemma NoBorrower(a: World, o: Id, deps: set<string>, x: Id)
    requires UniqueNames(a.containers) && o in a.containers && Recreate.AreDependents(a, o, deps)
    requires x in a.containers && a.containers[x].name in deps
    ensures SharesNamespace(a.containers[x].config)
  {
    var k :| k in a.containers && a.containers[k].name == a.containers[x].name
             && Depends(a.containers, a.selfHostname, k, o);
    assert k == x;
  }

  ghost predicate ApartFrom(stages: seq<Stage>, cs: Containers, x: Id) {
    forall i :: 0 <= i < |stages| ==> Apart([stages[i].name], cs, x)
  }

  lemma {:induction false} ChainedLeavesApart(stages: seq<Stage>, a: World, b: World, x: Id)
    requires Chained(stages, a, b) && x in a.containers && ApartFrom(stages, a.containers, x)
    ensures Untouched(a, b, x)
    decreases |stages|
  {
    hide IsUpdate, Apart;
    if stages != [] {
      var front, last := stages[..|stages| - 1], stages[|stages| - 1];
      assert forall i :: 0 <= i < |front| ==> front[i] == stages[i];
      ChainedLeavesApart(front, a, last.before, x);
      assert Apart([last.name], a.containers, x);
      ApartStays(last.name, a.containers, last.before.containers, x);
      UpdateLeavesApart(last, x);
    }
  }

  lemma ApartStays(name: string, cs: Containers, s: Containers, x: Id)
    requires Apart([name], cs, x) && x in s && s[x] == cs[x]
    ensures Apart([name], s, x)
  {
  }

  lemma {:induction false} ChainedPrefix(stages: seq<Stage>, a: World, b: World, j: nat)
    requires Chained(stages, a, b) && j < |stages|
    ensures Chained(stages[..j], a, stages[j].before) && IsUpdate(stages[j])
    decreases |stages|
  {
    hide IsUpdate;
    if j < |stages| - 1 {
      var front := stages[..|stages| - 1];
      ChainedPrefix(front, a, stages[|stages| - 1].before, j);
      assert front[..j] == stages[..j] && front[j] == stages[j];
    }
  }

  /** Migration before code: once the update of target `j` has begun, every
      target whose service its own depends on has passed its gate (a one-shot was
      seen to exit zero, a service was healthy), all replicas included. Up to
      that moment no state of the run has changed a container that is apart from
      the targets before `j`, such as the container of target `j` itself. A
      service that can reach a dependency cycle is exempt. */
  lemma MigrationBeforeCode(w: Moved, ms: seq<Compose.ProjectMember>, run: Run, cfg: RolloutConfig,
                            envs: nat -> Health.Environment, report: RolloutReport, b: World, i: nat, j: nat)
    requires IsPlan(w, ms, run.plan) && Ran(run, cfg, envs, report, b)
    requires i < |run.plan.targets| && j < |run.stages|
    requires run.plan.targets[i].service != run.plan.targets[j].service
    requires DependsOn(run.plan.graph, run.plan.targets[j].service, run.plan.targets[i].service)
    requires !Compose.Endless(PlanEdges(run.plan), run.plan.targets[j].service)
    ensures i < j && i < run.k && IsStepFor(run.plan.targets[i], report.steps[i])
    ensures Passed(envs(i), cfg, run.plan.targets[i], run.stages[i].course.polls)
    ensures forall x :: Apart(TargetNames(run.plan)[..j], run.start.containers, x) ==>
              Untouched(run.start, run.stages[j].before, x)
  {
    hide IsPlan, Passed, IsStepFor, IsAbortOf, Chained, DependsOn, PlanEdges, Compose.Endless, OnlyRestarts, Without,
      AfterRestarts, TookPlace, StepOf, IsStageOf, Recreate.Renewed, Untouched, Names, RestartsFor;
    DependenciesComeFirst(w, ms, run.plan, i, j);
    var stages, targets := run.stages, run.plan.targets;
    ChainedPrefix(stages, run.start, run.middle, j);
    StepMeans(stages[i], targets[i], cfg, envs(i));
    forall x | Apart(TargetNames(run.plan)[..j], run.start.containers, x)
      ensures Untouched(run.start, stages[j].before, x)
    {
      StagesAreNamed(run, cfg, envs, report, b, j, x);
      ChainedLeavesApart(stages[..j], run.start, stages[j].before, x);
    }
  }

  lemma StagesAreNamed(run: Run, cfg: RolloutConfig, envs: nat -> Health.Environment, report: RolloutReport, b: World,
                       j: nat, x: Id)
    requires Ran(run, cfg, envs, report, b) && j <= |run.stages|
    requires Apart(TargetNames(run.plan)[..j], run.start.containers, x)
    ensures x in run.start.containers && ApartFrom(run.stages[..j], run.start.containers, x)
  {
    hide Reports, Chained, AfterRestarts, TookPlace, StepOf, Recreate.RanOnce, Recreate.Updated, RestartsFor;
    var names := TargetNames(run.plan);
    forall i | 0 <= i < j
      ensures Apart([run.stages[i].name], run.start.containers, x)
    {
      assert IsStageOf(run.stages[i], run.plan.targets[i], cfg, envs(i));
      NamesAt(run.plan, i);
      assert names[..j][i] == run.stages[i].name && names[..j][i] in names[..j];
    }
  }

  /** Could this be an id, or the beginning of one? */
  predicate CouldBeId(name: string) { |name| <= 64 && forall i :: 0 <= i < |name| ==> Labels.IsHex(name[i]) }

  /** Every container called `n` in `s` has the bits of one called that in `cs`. */
  ghost predicate SameUnder(cs: Containers, s: Containers, n: string) {
    forall y :: y in s && s[y].name == n ==> Reattach.Doubles(cs, s[y])
  }

  /** In every state from `a` to `b` that is so. */
  ghost predicate BitsKept(a: World, b: World, n: string) {
    && Continues(a.history, b.history) && SameUnder(a.containers, b.containers, n)
    && forall i :: |a.history| <= i < |b.history| ==> SameUnder(a.containers, b.history[i], n)
  }

  lemma SameItself(cs: Containers, n: string)
    ensures SameUnder(cs, cs, n)
  {
    forall y | y in cs && cs[y].name == n
      ensures Reattach.Doubles(cs, cs[y])
    {
      assert Reattach.SameBits(cs[y], cs[y]);
    }
  }

  lemma SameUnderJoin(a: Containers, b: Containers, c: Containers, n: string)
    requires SameUnder(a, b, n) && SameUnder(b, c, n)
    ensures SameUnder(a, c, n)
  {
    hide Reattach.SameBits;
    forall z | z in c && c[z].name == n
      ensures Reattach.Doubles(a, c[z])
    {
      assert Reattach.Doubles(b, c[z]);
      var y :| y in b && b[y].name == n && Reattach.SameBits(b[y], c[z]);
      assert Reattach.Doubles(a, b[y]);
      var x :| x in a && a[x].name == n && Reattach.SameBits(a[x], b[y]);
      BitsCompose(a[x], b[y], c[z]);
    }
  }

  lemma BitsCompose(was: Container, between: Container, c: Container)
    requires Reattach.SameBits(was, between) && Reattach.SameBits(between, c)
    ensures Reattach.SameBits(was, c)
  {
  }

  lemma NotParkedAs(was: Container, c: Container)
    requires Swap.Parkable(was, c) && !Rename.CouldBeArchive(c.name)
    ensures c.name == was.name && Reattach.SameBits(was, c)
  {
    hide Rename.CouldBeArchive, Rename.IsArchiveOf;
    if c.name != was.name { Rename.ArchiveCouldBe(c.name, was.name); }
  }

  /** An update of another container repairs this one at most. */
  lemma CycleKeepsBits(cs0: Containers, issued: set<Id>, s: Containers, o: Id, deps: set<string>, from: Swap.Origin,
                       n: string)
    requires o in cs0 && CycleState(cs0, issued, s, o, deps, from)
    requires cs0[o].name != n && !Rename.CouldBeArchive(n)
    ensures SameUnder(cs0, s, n)
  {
    hide Rename.CouldBeArchive, Swap.Parkable, Reattach.SameBits, Swap.MadeFrom;
    SameItself(cs0, n);
    forall y | y in s && s[y].name == n
      ensures Reattach.Doubles(cs0, s[y])
    {
      if y in cs0 {
        if y != o && cs0[y].name in deps { assert Reattach.Accounted(cs0, issued, s, y); }
        if Swap.Parkable(cs0[y], s[y]) { NotParkedAs(cs0[y], s[y]); }
      }
    }
  }

  lemma ResolvedByName(cs: Containers, issued: set<Id>, name: string)
    requires WellNamed(cs, issued) && Resolve(cs, name).Some? && !CouldBeId(name)
    ensures cs[Resolve(cs, name).value].name == name
  {
  }

  lemma UpdateKeepsBits(g: Stage, n: string)
    requires IsUpdate(g) && g.name != n && !CouldBeId(g.name) && !Rename.CouldBeArchive(n)
    ensures BitsKept(g.before, g.after, n)
  {
    hide CycleState, Resolve, WellNamed, UniqueNames, Recreate.ServedNow, Recreate.AreDependents, Swap.WasDown,
      CouldBeId, Rename.CouldBeArchive, SameUnder;
    var a, b, c := g.before, g.after, g.course;
    SameItself(a.containers, n);
    if c.owner.Some? {
      ResolvedByName(a.containers, a.issued, g.name);
      CycleKeepsBits(a.containers, a.issued, b.containers, c.owner.value, c.deps, c.from, n);
      forall i | |a.history| <= i < |b.history|
        ensures SameUnder(a.containers, b.history[i], n)
      {
        CycleKeepsBits(a.containers, a.issued, b.history[i], c.owner.value, c.deps, c.from, n);
      }
    }
  }

  lemma BitsKeptJoin(a: World, m: World, b: World, n: string)
    requires BitsKept(a, m, n) && BitsKept(m, b, n)
    ensures BitsKept(a, b, n)
  {
    hide SameUnder;
    SameUnderJoin(a.containers, m.containers, b.containers, n);
    forall i | |a.history| <= i < |b.history|
      ensures SameUnder(a.containers, b.history[i], n)
    {
      if i >= |m.history| { SameUnderJoin(a.containers, m.containers, b.history[i], n); }
    }
  }

  lemma {:induction false} ChainedKeepsBits(stages: seq<Stage>, a: World, b: World, n: string)
    requires Chained(stages, a, b) && !Rename.CouldBeArchive(n)
    requires forall i :: 0 <= i < |stages| ==> stages[i].name != n && !CouldBeId(stages[i].name)
    ensures BitsKept(a, b, n)
    decreases |stages|
  {
    hide IsUpdate, CouldBeId, BitsKept, Rename.CouldBeArchive;
    if stages == [] {
      NoBitsYet(a, n);
    } else {
      var front, last := stages[..|stages| - 1], stages[|stages| - 1];
      assert forall i :: 0 <= i < |front| ==> front[i] == stages[i];
      ChainedKeepsBits(front, a, last.before, n);
      UpdateKeepsBits(last, n);
      BitsKeptJoin(a, last.before, b, n);
    }
  }

  lemma NoBitsYet(a: World, n: string)
    ensures BitsKept(a, a, n)
  {
    SameItself(a.containers, n);
  }

  /** No new code early: until the update of target `j` begins, no state of the run
      has a container under its name that runs other bits than the initial one
      did, also when that borrows a network and is repaired on the way. An earlier
      target whose name could be an id is exempt. */
  lemma NoNewBitsEarly(w: Moved, ms: seq<Compose.ProjectMember>, run: Run, cfg: RolloutConfig,
                       envs: nat -> Health.Environment, report: RolloutReport, b: World, j: nat)
    requires IsPlan(w, ms, run.plan) && UniqueMembers(ms) && Ran(run, cfg, envs, report, b) && j < |run.stages|
    requires j < |run.plan.targets| && !Rename.CouldBeArchive(run.plan.targets[j].container)
    requires forall i :: 0 <= i < j ==> !CouldBeId(run.plan.targets[i].container)
    ensures BitsKept(run.start, run.stages[j].before, run.plan.targets[j].container)
  {
    hide IsPlan, UniqueMembers, Ran, Chained, BitsKept, CouldBeId, Rename.CouldBeArchive, Names;
    WasChained(run, cfg, envs, report, b);
    ChainedPrefix(run.stages, run.start, run.middle, j);
    OthersCameFirst(w, ms, run, cfg, envs, report, b, j, j);
    ChainedKeepsBits(run.stages[..j], run.start, run.stages[j].before, run.plan.targets[j].container);
  }

  /** Nor after an abort, for any target that was left. */
  lemma AbortBringsNoNewBits(w: Moved, ms: seq<Compose.ProjectMember>, run: Run, cfg: RolloutConfig,
                             envs: nat -> Health.Environment, report: RolloutReport, b: World, j: nat)
    requires IsPlan(w, ms, run.plan) && UniqueMembers(ms) && Ran(run, cfg, envs, report, b) && report.aborted.Some?
    requires run.k < j < |run.plan.targets| && !Rename.CouldBeArchive(run.plan.targets[j].container)
    requires forall i :: 0 <= i <= run.k ==> !CouldBeId(run.plan.targets[i].container)
    ensures BitsKept(run.start, b, run.plan.targets[j].container)
  {
    hide IsPlan, UniqueMembers, Ran, Chained, BitsKept, CouldBeId, Rename.CouldBeArchive, Names;
    WasChained(run, cfg, envs, report, b);
    OthersCameFirst(w, ms, run, cfg, envs, report, b, run.k + 1, j);
    assert run.stages[..run.k + 1] == run.stages;
    ChainedKeepsBits(run.stages, run.start, b, run.plan.targets[j].container);
  }

  lemma WasChained(run: Run, cfg: RolloutConfig, envs: nat -> Health.Environment, report: RolloutReport, b: World)
    requires Ran(run, cfg, envs, report, b)
    ensures Chained(run.stages, run.start, run.middle)
    ensures report.aborted.Some? ==> b == run.middle && |run.stages| == run.k + 1
  {
    hide Chained, IsStageOf, StepOf, RestartsFor, AfterRestarts, TookPlace, Without, OnlyRestarts, IsStepFor;
  }

  lemma OthersCameFirst(w: Moved, ms: seq<Compose.ProjectMember>, run: Run, cfg: RolloutConfig,
                        envs: nat -> Health.Environment, report: RolloutReport, b: World, k: nat, j: nat)
    requires IsPlan(w, ms, run.plan) && UniqueMembers(ms) && Ran(run, cfg, envs, report, b)
    requires k <= |run.stages| && k <= j < |run.plan.targets|
    requires forall i :: 0 <= i < k ==> !CouldBeId(run.plan.targets[i].container)
    ensures forall i :: 0 <= i < k ==>
              run.stages[..k][i].name != run.plan.targets[j].container && !CouldBeId(run.stages[..k][i].name)
  {
    hide IsPlan, UniqueMembers, Reports, Chained, AfterRestarts, TookPlace, StepOf, IsStageOf, RestartsFor, CouldBeId,
      Names;
    PlanPartition(w, ms, run.plan, "");
    NamesAt(run.plan, j);
    forall i | 0 <= i < k
      ensures run.stages[..k][i].name != run.plan.targets[j].container && !CouldBeId(run.stages[..k][i].name)
    {
      StageName(run.stages[i], run.plan.targets[i], cfg, envs(i));
      NamesAt(run.plan, i);
    }
  }

  /** The container a target is named after is apart from the other targets,
      unless it borrows a network or its id starts with one of their names. */
  lemma OwnTargetIsApart(w: Moved, ms: seq<Compose.ProjectMember>, plan: RolloutPlan, cs: Containers, x: Id, j: nat)
    requires IsPlan(w, ms, plan) && UniqueMembers(ms) && j < |plan.targets|
    requires x in cs && cs[x].name == plan.targets[j].container && !SharesNamespace(cs[x].config)
    requires forall n :: n in TargetNames(plan)[..j] ==> !(n <= x)
    ensures Apart(TargetNames(plan)[..j], cs, x)
  {
    hide IsPlan, Names;
    PlanPartition(w, ms, plan, "");
    var names := TargetNames(plan);
    NamesAt(plan, j);
    forall n | n in names[..j]
      ensures n != cs[x].name
    {
      var i :| 0 <= i < j && names[i] == n;
    }
  }

  lemma NamesAt(plan: RolloutPlan, j: nat)
    requires j < |plan.targets|
    ensures |TargetNames(plan)| == |plan.targets| && TargetNames(plan)[j] == plan.targets[j].container
  {
  }

  /** After an abort nothing is restarted, and what is apart from the targets up
      to the failed one is as it was in every state. */
  lemma AbortLeavesTheRest(run: Run, cfg: RolloutConfig, envs: nat -> Health.Environment, report: RolloutReport,
                           b: World, x: Id)
    requires Ran(run, cfg, envs, report, b) && report.aborted.Some?
    requires Apart(TargetNames(run.plan)[..run.k + 1], run.start.containers, x)
    ensures |run.stages| == run.k + 1 && forall step :: step in report.steps ==> !step.Restarted?
    ensures IsAbortOf(envs(run.k), cfg, run.plan.targets[run.k], run.stages[run.k], report.aborted.value)
    ensures Untouched(run.start, b, x)
  {
    hide IsAbortOf, Chained, AfterRestarts, TookPlace, StepOf, IsStageOf, IsStepFor, Untouched, Names, RestartsFor,
      Without, Passed, Recreate.Renewed;
    assert run.stages[..run.k + 1] == run.stages;
    StagesAreNamed(run, cfg, envs, report, b, run.k + 1, x);
    ChainedLeavesApart(run.stages, run.start, b, x);
    StepMeans(run.stages[run.k], run.plan.targets[run.k], cfg, envs(run.k));
    forall step | step in report.steps
      ensures !step.Restarted?
    {
      var i :| 0 <= i < |report.steps| && report.steps[i] == step;
      StepIsNoRestart(run.plan.targets[i], step);
    }
  }

  // ----- plan it, run it, or leave it to the plain update -----

  /** Is the plan just this container? */
  predicate AddsNothingFor(plan: RolloutPlan, container: string) {
    && RestartsFor(plan, Services(plan.targets)) == []
    && |plan.targets| == 1 && plan.targets[0].container == container
  }

  /** Every planned container is an image target of the report. */
  lemma TargetIsReported(plan: RolloutPlan, report: RolloutReport, k: nat, n: string)
    requires Reports(plan, report, k) && n in TargetNames(plan)
    ensures n in ImageTargets(report)
  {
    hide Names, IsStepFor, MovedSteps, Without, RestartsFor;
    var names, steps := TargetNames(plan), report.steps;
    MovedPrefix(plan.targets, steps, k);
    var i :| 0 <= i < |names| && names[i] == n;
    if report.aborted.Some? {
      assert steps[..k] == steps;
      if n in Touched(report) {
        assert Touched(report) == names[..k];
      } else {
        WithoutKeeps(names, Touched(report), n);
      }
    } else {
      forall j | k <= j < |steps|
        ensures steps[j].Restarted?
      {
        assert steps[j] == steps[k..][j - k];
      }
      MovedThenRestarts(steps, k);
      assert names[..k] == names;
    }
  }

  lemma {:induction false} WithoutKeeps(names: seq<string>, touched: seq<string>, n: string)
    requires n in names && n !in touched
    ensures n in Without(names, touched)
  {
    if names[0] != n { WithoutKeeps(names[1..], touched, n); }
  }

  /** And every image target of a report was planned. */
  lemma ReportedIsTarget(plan: RolloutPlan, report: RolloutReport, k: nat, n: string)
    requires Reports(plan, report, k) && n in ImageTargets(report)
    ensures n in TargetNames(plan)
  {
    hide Names, IsStepFor, MovedSteps, Without, RestartsFor;
    var names, steps := TargetNames(plan), report.steps;
    MovedPrefix(plan.targets, steps, k);
    WithoutOnly(names, Touched(report), n);
    if report.aborted.Some? {
      assert steps[..k] == steps;
    } else {
      forall j | k <= j < |steps|
        ensures steps[j].Restarted?
      {
        assert steps[j] == steps[k..][j - k];
      }
      MovedThenRestarts(steps, k);
    }
  }

  lemma {:induction false} WithoutOnly(names: seq<string>, touched: seq<string>, n: string)
    ensures n in Without(names, touched) ==> n in names
  {
    if names != [] { WithoutOnly(names[1..], touched, n); }
  }

  lemma TargetIndex(plan: RolloutPlan, n: string)
    returns (i: nat)
    requires n in TargetNames(plan)
    ensures i < |plan.targets| && plan.targets[i].container == n
  {
    i :| i < |plan.targets| && TargetNames(plan)[i] == n;
  }

  lemma StageName(g: Stage, t: PlannedTarget, cfg: RolloutConfig, env: Health.Environment)
    requires IsStageOf(g, t, cfg, env)
    ensures g.name == t.container
  {
    hide Recreate.RanOnce, Recreate.Updated;
  }

  /** Whoever is remembered is claimed too. */
  lemma TargetIsClaimed(report: RolloutReport, n: string)
    requires n in ImageTargets(report)
    ensures n in Claimed(report)
  {
    hide Names, MovedSteps;
    MovedIsTouched(report.steps, n);
  }

  lemma {:induction false} MovedIsTouched(steps: seq<RolloutStep>, n: string)
    ensures n in MovedSteps(steps) ==> n in Names(StepContainer, steps)
  {
    if steps != [] {
      var front, last := steps[..|steps| - 1], steps[|steps| - 1];
      MovedIsTouched(front, n);
      NamesPush(StepContainer, front, last);
      assert steps == front + [last];
    }
  }

  /** The project could not be read: nothing was done. */
  function Unreadable(project: string, container: string, e: DockerError): RolloutReport {
    RolloutReport(project, [], Some(StepFailed(container, e)), [container], [])
  }

  /** The container is a one-shot in the middle of its run: nothing was done. */
  function LeftRunning(project: string, container: string, skipped: seq<SkippedMember>): RolloutReport {
    RolloutReport(project, [], None, [container], skipped)
  }

  /** Nothing but the number of faults has changed. */
  ghost predicate Unmoved(a: World, b: World) { b == a.(faults := b.faults) && b.faults >= a.faults }

  /** What was listed is the project as it stood in `a`, and the plan is made for
      it. */
  ghost predicate IsPlanned(a: World, project: string, members: seq<Compose.ProjectMember>, plan: RolloutPlan,
                            container: string, cfg: RolloutConfig, defaults: Labels.PolicyDefaults,
                            ownIdPrefix: Option<string>) {
    && Truthful(a.containers, project, members)
    && IsPlanFor(plan, project, members, container, cfg.tagImageId, defaults, ownIdPrefix)
  }

  /** What a report about `container` can be, and what went on between the worlds
      `a` and `b`: the project was unreadable, the container is a one-shot in
      flight, or its plan was run. */
  ghost predicate IsReportFor(report: RolloutReport, run: Run, listing: Result<seq<Compose.ProjectMember>, DockerError>,
                              project: string, container: string, cfg: RolloutConfig,
                              envs: nat -> Health.Environment, a: World, b: World) {
    if listing.Failure? then
      report == Unreadable(project, container, listing.error) && Unmoved(a, b) && b.faults > a.faults
    else if !Covers(run.plan, container) then
      && SkipReasonFor(run.plan, container) == Some(OneShotInFlight)
      && report == LeftRunning(project, container, run.plan.skipped) && Unmoved(a, b)
    else
      && !AddsNothingFor(run.plan, container)
      && Unmoved(a, run.start) && Ran(run, cfg, envs, report, b)
  }

  /** The rollout for `container`, or `None` when it is left to the plain update:
      then nothing has happened, and the plan had no more to offer than this
      container and no objection that has to be respected. Whether the plain
      update is the right thing for it is another matter: see
      `Fallback.FallbackKeepsVerdict`. */
  method ForContainer(d: Daemon, container: string, labels: Labels.LabelMap,
                      cfg: RolloutConfig, envs: nat -> Health.Environment, defaults: Labels.PolicyDefaults,
                      ownIdPrefix: Option<string>, ghost step: nat)
    returns (r: Option<RolloutReport>, ghost run: Run, ghost listing: Result<seq<Compose.ProjectMember>, DockerError>)
    requires d.Valid() && forall i: nat :: Health.Advances(envs(i), step)
    modifies d
    ensures d.Valid()
    ensures r.None? ==> Unmoved(old(Recreate.WorldOf(d)), Recreate.WorldOf(d))
    ensures Compose.Parse(labels).None? ==> r.None?
    ensures Compose.Parse(labels).Some? && listing.Success? ==>
              IsPlanned(old(Recreate.WorldOf(d)), Compose.Parse(labels).value.project, listing.value, run.plan,
                        container, cfg, defaults, ownIdPrefix)
    ensures r.None? && Compose.Parse(labels).Some? ==>
              && listing.Success?
              && (AddsNothingFor(run.plan, container)
                  || (!Covers(run.plan, container) && SkipReasonFor(run.plan, container) != Some(OneShotInFlight)))
    ensures r.Some? ==>
              IsReportFor(r.value, run, listing, Compose.Parse(labels).value.project, container, cfg, envs,
                          old(Recreate.WorldOf(d)), Recreate.WorldOf(d))
  {
    hide Compose.Parse, Covers, AddsNothingFor, SkipReasonFor, Ran, IsPlanFor, Truthful, Health.Advances, Daemon.Valid;
    ghost var a := Recreate.WorldOf(d);
    run := Run(RolloutPlan("", [], [], map[], map[]), 0, [], a, a);
    listing := Failure(Fault);
    var info := Compose.Parse(labels);
    if info.None? { return None, run, listing; }
    var listed := ListMembers(d, info.value.project);
    listing := listed;
    if listed.Failure? {
      r := Some(Unreadable(info.value.project, container, listed.error));
      return;
    }
    var made := Plan(info.value.project, listed.value, container, cfg.tagImageId, defaults, ownIdPrefix);
    run := run.(plan := made);
    if !Covers(made, container) {
      if SkipReasonFor(made, container) == Some(OneShotInFlight) {
        r := Some(LeftRunning(info.value.project, container, made.skipped));
        return;
      }
      return None, run, listing;
    }
    if AddsNothingFor(made, container) { return None, run, listing; }
    var report, run' := Execute(d, made, cfg, envs, step);
    return Some(report), run', listing;
  }

  method ListMembers(d: Daemon, project: string) returns (r: Result<seq<Compose.ProjectMember>, DockerError>)
    requires d.Valid()
    modifies d`faults
    ensures d.Valid() && Unmoved(old(Recreate.WorldOf(d)), Recreate.WorldOf(d))
    ensures r.Failure? ==> d.faults > old(d.faults)
    ensures r.Success? ==> Truthful(d.containers, project, r.value)
  {
    hide WellNamed, NamespacesOwned, ImagesKept, TagsServed, Truthful;
    r := d.ListProject(project);
  }

  /** A report keeps every container, and lists the one it is about. */
  lemma ReportKeepsAll(report: RolloutReport, run: Run, listing: Result<seq<Compose.ProjectMember>, DockerError>,
                       project: string, container: string, cfg: RolloutConfig, envs: nat -> Health.Environment,
                       a: World, b: World)
    requires IsReportFor(report, run, listing, project, container, cfg, envs, a, b)
    ensures KeepsAll(a.history, b.history, a.containers, b.containers)
    ensures container in ImageTargets(report)
  {
    hide KeepsAll, Ran, Covers, SkipReasonFor, AddsNothingFor, TargetNames, ImageTargets;
    NothingLost(a.history, a.containers);
    if listing.Success? && Covers(run.plan, container) {
      RolloutSurvives(run, cfg, envs, report, b);
      RanReports(run, cfg, envs, report, b);
      CoversTarget(run.plan, container);
      TargetIsReported(run.plan, report, run.k, container);
    } else {
      OnlyLeft(report, container);
    }
  }

  lemma OnlyLeft(report: RolloutReport, container: string)
    requires report.steps == [] && report.notCompleted == [container]
    ensures ImageTargets(report) == [container]
  {
  }

  lemma CoversTarget(plan: RolloutPlan, n: string)
    requires Covers(plan, n)
    ensures n in TargetNames(plan)
  {
  }

  lemma RanReports(run: Run, cfg: RolloutConfig, envs: nat -> Health.Environment, report: RolloutReport, b: World)
    requires Ran(run, cfg, envs, report, b)
    ensures Reports(run.plan, report, run.k)
  {
  }
}
