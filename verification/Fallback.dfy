/** When the plan of a project is a single container (src/rollout.rs): what its
    rollout comes to, and what is left to the plain update instead. */
module Fallback {
  import opened Wrappers
  import opened Text
  import opened Planner
  import opened Rollout
  import Compose
  import Docker
  import Health
  import Labels
  import Recreate
  import Registry
  import Rename
  import Rollback

  // ----- a lone service -----

  lemma {:induction false} WithoutNothing(names: seq<string>)
    ensures Without(names, []) == names
  {
    if names != [] { WithoutNothing(names[1..]); }
  }

  lemma NoMore(more: seq<RolloutStep>)
    ensures OnlyRestarts(more, []) ==> more == []
  {
    if OnlyRestarts(more, []) {
      assert |multiset(Names(StepContainer, more))| == 0;
    }
  }

  /** The report of a plan with a single target. */
  function LoneReport(plan: RolloutPlan, r: Result<RolloutStep, AbortReason>): RolloutReport {
    match r
    case Success(step) => RolloutReport(plan.project, [step], None, [], plan.skipped)
    case Failure(reason) => RolloutReport(plan.project, [], Some(reason), TargetNames(plan), plan.skipped)
  }

  /** A rollout of a lone service with nothing to restart is one plain update:
      all that the plain update promises between the two worlds, and no more in
      the report than its result. */
  lemma LoneServiceIsPlain(run: Run, cfg: RolloutConfig, envs: nat -> Health.Environment, report: RolloutReport,
                           b: World)
    requires Ran(run, cfg, envs, report, b)
    requires |run.plan.targets| == 1 && run.plan.targets[0].kind == Service
    requires RestartsFor(run.plan, Services(run.plan.targets)) == []
    ensures |run.stages| == 1 && run.stages[0].outcome.Plain?
    ensures var t, g := run.plan.targets[0], run.stages[0];
            && Recreate.Updated(run.start, b, t.container, cfg.health, envs(0), CleanupFor(t.policy, cfg.pruneDangling),
                                t.policy.hooks, g.outcome.plain, g.course)
            && report == LoneReport(run.plan, StepOf(t, g.outcome))
  {
    hide Recreate.Updated, RestartsFor, IsStepFor, StepOf, OnlyRestarts, IsUpdate;
    assert Chained([], run.start, run.stages[0].before) by { assert run.stages[..0] == []; }
    WithoutNothing(TargetNames(run.plan));
    NoMore(report.steps[run.k..]);
  }

  /** Which targets may fall back on the plain update without a change of
      verdict: the services, and only those. A one-shot that exits zero at once
      passes its own gate, and the health gate takes it for a crash. */
  lemma FallbackKeepsVerdict(cfg: RolloutConfig, t: PlannedTarget)
    ensures (forall env, polls ::
               Passed(env, cfg, t, polls) ==> Health.HealthVerdict(env, cfg.health, Health.Healthy, polls)) <==>
            t.kind == Service
  {
    hide Health.ExitVerdict, Health.HealthVerdict;
    if t.kind == OneShot {
      var env := Health.Environment(n => Health.Answered(Health.Exited(0)), n => n);
      Health.ExitFailsHealthGate(env, cfg.health, cfg.oneShotTimeout, 0);
      assert Passed(env, cfg, t, 1);
      if Health.HealthVerdict(env, cfg.health, Health.Healthy, 1) {
        Health.HealthVerdictUnique(env, cfg.health, Health.Healthy, 1, Health.Crashed, 1);
      }
    }
  }

  // ----- a lone one-shot -----

  /** A project of a stopped one-shot `m` and a service on another image that
      awaits it but does not ask to be restarted with it. */
  ghost predicate IsLoneOneShot(m: Compose.ProjectMember, app: Compose.ProjectMember, defaults: Labels.PolicyDefaults,
                                ownIdPrefix: Option<string>) {
    && IsMember(m) && IsMember(app) && ServiceName(m) != ServiceName(app) && m.name != app.name
    && !Rename.IsArchiveName(m.name) && !Rename.IsArchiveName(app.name)
    && Compose.Awaits(Compose.Parse(app.labels).value.dependsOn, ServiceName(m))
    && !Compose.RestartsWith(Compose.Parse(app.labels).value.dependsOn, {ServiceName(m)})
    && !SameImage(app, Registry.Parse(m.imageRef), m.imageId)
    && !m.running && !Labels.IsOwnContainer(ownIdPrefix, m.id) && !Labels.ExplicitlyOptsOut(m.labels)
    && var policy := Labels.ParsePolicy(m.labels, defaults); policy.Success? && policy.value.mode != Labels.Watch
  }

  /** The kind of the target is not asked for: when the one-shot of such a project
      is the trigger, there is a plan, and the plan is that one-shot alone, so it
      falls back on the plain update too. */
  lemma LoneOneShotFallsBack(project: string, m: Compose.ProjectMember, app: Compose.ProjectMember,
                             tagImageId: Option<string>, defaults: Labels.PolicyDefaults, ownIdPrefix: Option<string>)
    requires IsLoneOneShot(m, app, defaults, ownIdPrefix)
    ensures exists plan :: IsPlanFor(plan, project, [m, app], m.name, tagImageId, defaults, ownIdPrefix)
    ensures forall plan :: IsPlanFor(plan, project, [m, app], m.name, tagImageId, defaults, ownIdPrefix) ==>
              AddsNothingFor(plan, m.name) && IsAllOneShots(plan)
  {
    hide IsLoneOneShot, IsAllOneShots, IsLoneTrigger, IsPlan, IsPlanFor, AddsNothingFor, Present, FindMember, MovedBy;
    var ms := [m, app];
    var w := MovedBy(m, ms, tagImageId, defaults, ownIdPrefix);
    LoneIsPresent(m, app, defaults, ownIdPrefix);
    LoneIsChosen(m, app, tagImageId, defaults, ownIdPrefix);
    var made := LonePlan(project, w, m, app);
    PlanForTrigger(made, project, ms, m, tagImageId, defaults, ownIdPrefix);
    forall plan | IsPlanFor(plan, project, ms, m.name, tagImageId, defaults, ownIdPrefix)
      ensures AddsNothingFor(plan, m.name) && IsAllOneShots(plan)
    {
      PlanForTrigger(plan, project, ms, m, tagImageId, defaults, ownIdPrefix);
      LoneAddsNothing(w, m, app, plan);
    }
  }

  predicate IsAllOneShots(plan: RolloutPlan) { forall t :: t in plan.targets ==> t.kind == OneShot }

  /** What becomes of the two members: the one-shot is the one target, and the
      service is not restarted with it. */
  ghost predicate IsLoneTrigger(w: Moved, m: Compose.ProjectMember, app: Compose.ProjectMember) {
    && IsMember(m) && IsMember(app) && Eligible(w, m) && IsOneShot(w, m)
    && Chosen(w, [m, app]) == [TargetOf(w, m)] && Explains(w, [m, app], [])
    && w.graph.Keys == {ServiceName(m), ServiceName(app)}
    && !Compose.RestartsWith(w.graph[ServiceName(app)], {ServiceName(m)})
  }

  /** What the plain update makes of it: a command that has exited by the first
      poll, even with zero, reads as a crash, and the update is taken back or
      fails. */
  lemma ExitReadsAsCrash(a: World, b: World, name: string, cfg: Health.HealthConfig, env: Health.Environment,
                         cleanup: Recreate.Cleanup, hooks: Labels.LifecycleHooks,
                         r: Result<Recreate.RecreateOutcome, Docker.DockerError>, c: Recreate.Course, exitCode: int)
    requires Recreate.Updated(a, b, name, cfg, env, cleanup, hooks, r, c) && c.polls > 0
    requires env.reply(0) == Health.Answered(Health.Exited(exitCode))
    ensures r.Failure? || (r.value.RolledBack? && r.value.event.reason == Rollback.CrashedBeforeHealthy)
  {
    hide Recreate.Keeps, Recreate.Gated, Recreate.Left, Recreate.ListedIfGated, Recreate.ClearWay,
      Health.HealthVerdict;
    Health.ExitFailsHealthGate(env, cfg, 0, exitCode);
    forall outcome | Health.HealthVerdict(env, cfg, outcome, c.polls)
      ensures outcome == Health.Crashed
    {
      Health.HealthVerdictUnique(env, cfg, outcome, c.polls, Health.Crashed, 1);
    }
  }

  lemma LoneIsPresent(m: Compose.ProjectMember, app: Compose.ProjectMember, defaults: Labels.PolicyDefaults,
                      ownIdPrefix: Option<string>)
    requires IsLoneOneShot(m, app, defaults, ownIdPrefix)
    ensures Present([m, app]) == [m, app] && FindMember([m, app], m.name) == Some(m)
  {
    hide Rename.IsArchiveName, Compose.Parse, Labels.ParsePolicy, SameImage;
    assert [m, app][1..] == [app] && [app][1..] == [];
    assert Present([app]) == [app] + Present([]);
  }

  lemma PlanForTrigger(plan: RolloutPlan, project: string, ms: seq<Compose.ProjectMember>, m: Compose.ProjectMember,
                       tagImageId: Option<string>, defaults: Labels.PolicyDefaults, ownIdPrefix: Option<string>)
    requires Present(ms) == ms && FindMember(ms, m.name) == Some(m)
    ensures IsPlanFor(plan, project, ms, m.name, tagImageId, defaults, ownIdPrefix) <==>
            plan.project == project && IsPlan(MovedBy(m, ms, tagImageId, defaults, ownIdPrefix), ms, plan)
  {
    hide IsPlan, MovedBy, FindMember, Present;
  }

  /** The awaited service is in the project graph with what it depends on. */
  lemma LoneGraph(m: Compose.ProjectMember, app: Compose.ProjectMember, defaults: Labels.PolicyDefaults,
                  ownIdPrefix: Option<string>)
    requires IsLoneOneShot(m, app, defaults, ownIdPrefix)
    ensures var graph := Compose.GraphOf([m, app]);
            && graph.Keys == {ServiceName(m), ServiceName(app)}
            && graph[ServiceName(app)] == Compose.Parse(app.labels).value.dependsOn
  {
    hide Compose.Parse, Labels.ParsePolicy, SameImage, Rename.IsArchiveName;
    assert [m, app][..1] == [m] && [m][..0] == [];
    assert Compose.GraphOf([m]) == map[ServiceName(m) := Compose.Parse(m.labels).value.dependsOn];
  }

  lemma LoneIsChosen(m: Compose.ProjectMember, app: Compose.ProjectMember, tagImageId: Option<string>,
                     defaults: Labels.PolicyDefaults, ownIdPrefix: Option<string>)
    requires IsLoneOneShot(m, app, defaults, ownIdPrefix)
    ensures IsLoneTrigger(MovedBy(m, [m, app], tagImageId, defaults, ownIdPrefix), m, app)
  {
    hide Compose.Parse, Labels.ParsePolicy, Labels.IsOwnContainer, Labels.ExplicitlyOptsOut, Rename.IsArchiveName,
      Registry.Parse, Compose.Awaits, Compose.RestartsWith, Compose.GraphOf, Eligible, Chosen, Explains;
    var w := MovedBy(m, [m, app], tagImageId, defaults, ownIdPrefix);
    LoneGraph(m, app, defaults, ownIdPrefix);
    assert ServiceName(app) in w.graph;
    EligibleWhen(w, m);
    assert [m, app] == [m] + [app] && [m] == [] + [m];
    ChosenOfNone(w);
    NothingYet(w);
    ChosenStep(w, [], m);
    ChosenStep(w, [m], app);
    ExplainsNext(w, [], m, []);
    ExplainsNext(w, [m], app, []);
  }

  lemma LonePlan(project: string, w: Moved, m: Compose.ProjectMember, app: Compose.ProjectMember)
    returns (plan: RolloutPlan)
    requires IsLoneTrigger(w, m, app)
    ensures plan.project == project && IsPlan(w, [m, app], plan)
  {
    hide Chosen, Explains, Eligible, RestartableOf, SortBy, OfService, IsMember, IsPlan;
    var ms, chosen := [m, app], [TargetOf(w, m)];
    var order := [TargetOf(w, m).service];
    var candidates := map s | s in {ServiceName(m), ServiceName(app)} && RestartableOf(w, ms, s) != [] ::
      RestartableOf(w, ms, s);
    forall s
      ensures s in candidates <==> RestartableOf(w, ms, s) != []
    {
      if RestartableOf(w, ms, s) != [] {
        RestartableFrom(w, ms, s, RestartableOf(w, ms, s)[0]);
      }
    }
    assert Services(chosen) == {TargetOf(w, m).service};
    var restarts := map s | s in candidates :: SortBy(Itself, candidates[s]);
    plan := RolloutPlan(project, Gather(order, chosen), SortBy(SkippedName, []), restarts, w.graph);
    PlanMade(w, ms, order, [], candidates, plan);
  }

  lemma LoneAddsNothing(w: Moved, m: Compose.ProjectMember, app: Compose.ProjectMember, plan: RolloutPlan)
    requires IsLoneTrigger(w, m, app) && IsPlan(w, [m, app], plan)
    ensures AddsNothingFor(plan, m.name) && IsAllOneShots(plan)
  {
    hide Chosen, Explains, IsPlan, Eligible, Restartable, RestartsFor, Compose.Parse, Compose.RestartsWith;
    var t := TargetOf(w, m);
    TargetsAreChosen(w, [m, app], plan);
    assert |plan.targets| == |multiset(plan.targets)| == |multiset([t])| == 1;
    assert plan.targets[0] in multiset(plan.targets);
    assert plan.targets == [t];
    assert Services(plan.targets) == {ServiceName(m)};
    var restarts := RestartsFor(plan, Services(plan.targets));
    forall n
      ensures n !in restarts
    {
      RestartsMeaning(w, [m, app], plan, Services(plan.targets), n);
    }
    SomeOrNone(restarts);
  }

  lemma SomeOrNone(names: seq<string>)
    ensures names == [] || exists n :: n in names
  {
    if names != [] { assert names[0] in names; }
  }

  const AWAITED: string := "service_completed_successfully"

  /** The labels of two such members. The trigger is enabled and in an active
      mode, as a recreate that is asked for by hand demands. */
  const MIGRATION: Labels.LabelMap :=
    map[Labels.ComposeProject := "shop", Labels.ComposeService := "migrate", Labels.Enable := "true",
        Labels.ModeKey := "live"]

  const APPLICATION: Labels.LabelMap :=
    map[Labels.ComposeProject := "shop", Labels.ComposeService := "app",
        Labels.ComposeDependsOn := "migrate" + ":" + AWAITED]

  lemma LoneOneShotExample(m: Compose.ProjectMember, app: Compose.ProjectMember, defaults: Labels.PolicyDefaults)
    requires m.labels == MIGRATION && m.name == "db" && m.imageRef == "shop:2" && m.imageId.None? && !m.running
    requires app.labels == APPLICATION && app.name == "web" && app.imageRef == "shop:1" && app.running
    ensures IsLoneOneShot(m, app, defaults, None)
    ensures Labels.ParsePolicy(m.labels, defaults).value.enabled
    ensures Labels.ParsePolicy(m.labels, defaults).value.mode == Labels.Live
  {
    hide Trim, Compose.Parse, Compose.ParseDependsOn, Labels.ParsePolicy, Registry.Parse, Rename.IsArchiveName,
      Labels.ExplicitlyOptsOut, Compose.ParseCondition;
    MigrationParses();
    ApplicationParses();
    assert "shop:1" == "shop" + ":" + "1" && "shop:2" == "shop" + ":" + "2";
    Registry.TagsDiffer("shop", "1", "2");
    Rename.TooShort(m.name);
    Rename.TooShort(app.name);
    Labels.LiveByLabel(m.labels, defaults);
    var deps := Compose.Parse(app.labels).value.dependsOn;
    assert deps[0].service == ServiceName(m);
  }

  lemma MigrationParses()
    ensures Compose.Parse(MIGRATION).Some? && Compose.Parse(MIGRATION).value.service == "migrate"
  {
    TrimNothing("shop");
    TrimNothing("migrate");
    Compose.ParsesTo(MIGRATION, "shop", "migrate");
  }

  lemma ApplicationParses()
    ensures Compose.Parse(APPLICATION).Some? && Compose.Parse(APPLICATION).value.service == "app"
    ensures Compose.Parse(APPLICATION).value.dependsOn ==
            [Compose.Dependency("migrate", Compose.CompletedSuccessfully, false)]
  {
    hide Trim, Compose.Parse, Compose.ParseDependsOn;
    TrimNothing("shop");
    TrimNothing("app");
    TrimNothing("migrate");
    TrimNothing(AWAITED);
    Compose.ParsesTo(APPLICATION, "shop", "app");
    Compose.OneAwaited("migrate", AWAITED);
  }
}
