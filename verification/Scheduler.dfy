/** The scheduler (src/scheduler.rs): one tick over the listed containers, on
    top of the rules in `Schedule`, with every update run against the daemon, and
    the loop over the ticks. */
module Scheduler {
  import opened Wrappers
  import opened Labels
  import opened Docker
  import opened Schedule
  import opened Turns
  import Cron
  import Quiet
  import Recreate
  import Registry
  import Rename
  import Rollout

  // ----- the tally -----

  class RunSummary {
    var scheduled: bool
    var checked: nat
    var counts: map<Verdict, nat>
    ghost var recorded: seq<(Verdict, Mode)>

    ghost predicate Valid()
      reads this
    {
      && checked == |recorded|
      && (scheduled <==> SomeScheduled(recorded))
      && forall v :: Count(v) == multiset(Verdicts(recorded))[v]
    }

    function Count(v: Verdict): nat
      reads this
    {
      if v in counts then counts[v] else 0
    }

    constructor ()
      ensures Valid() && recorded == []
    {
      scheduled, checked, counts, recorded := false, 0, map[], [];
    }

    method Record(verdict: Verdict, mode: Mode)
      requires Valid()
      modifies this
      ensures Valid() && recorded == old(recorded) + [(verdict, mode)]
    {
      hide SomeScheduled, Verdicts;
      VerdictsPush(recorded, verdict, mode);
      scheduled := scheduled || IsCronMode(mode);
      counts := counts[verdict := Count(verdict) + 1];
      checked := checked + 1;
      recorded := recorded + [(verdict, mode)];
    }

    method RecordAll(verdicts: seq<Verdict>, mode: Mode)
      requires Valid()
      modifies this
      ensures Valid() && recorded == old(recorded) + Marked(verdicts, mode)
    {
      hide Valid;
      for i := 0 to |verdicts|
        invariant Valid() && recorded == old(recorded) + Marked(verdicts[..i], mode)
      {
        assert Marked(verdicts[..i + 1], mode) == Marked(verdicts[..i], mode) + [(verdicts[i], mode)];
        Record(verdicts[i], mode);
      }
      assert verdicts[..|verdicts|] == verdicts;
    }
  }

  function Marked(verdicts: seq<Verdict>, mode: Mode): seq<(Verdict, Mode)> {
    seq(|verdicts|, i requires 0 <= i < |verdicts| => (verdicts[i], mode))
  }

  function Verdicts(recorded: seq<(Verdict, Mode)>): seq<Verdict> {
    seq(|recorded|, i requires 0 <= i < |recorded| => recorded[i].0)
  }

  /** A calendar-mode container was checked. */
  ghost predicate SomeScheduled(recorded: seq<(Verdict, Mode)>) {
    exists i :: 0 <= i < |recorded| && IsCronMode(recorded[i].1)
  }

  lemma VerdictsPush(recorded: seq<(Verdict, Mode)>, verdict: Verdict, mode: Mode)
    ensures Verdicts(recorded + [(verdict, mode)]) == Verdicts(recorded) + [verdict]
    ensures SomeScheduled(recorded + [(verdict, mode)]) <==> SomeScheduled(recorded) || IsCronMode(mode)
  {
    var longer := recorded + [(verdict, mode)];
    assert longer[|recorded|] == (verdict, mode);
    forall i | 0 <= i < |recorded|
      ensures longer[i] == recorded[i]
    {
    }
  }

  // ----- the scheduler -----

  function DefaultSchedule(mode: Mode): Option<string> {
    match mode
    case Nightly => Some("0 4 * * *")
    case Weekly => Some("0 4 * * 0")
    case Monthly => Some("0 4 1 * *")
    case _ => None
  }

  function EffectiveSchedule(policy: Policy): Option<string> {
    if !IsCronMode(policy.mode) then None
    else if policy.schedule.Some? then policy.schedule
    else DefaultSchedule(policy.mode)
  }

  /** The container is scheduled: its mode asks for it and the text parses. */
  ghost predicate Schedulable(policy: Policy) {
    EffectiveSchedule(policy).Some? && Cron.ExprParses(EffectiveSchedule(policy).value)
  }

  ghost predicate CronOf(policy: Policy, r: Option<Cron.CronExpr>) {
    && (r.Some? <==> Schedulable(policy))
    && (r.Some? ==> Cron.WellFormed(r.value) && Cron.Spells(EffectiveSchedule(policy).value, r.value))
  }

  /** An expression that does not parse leaves the container unscheduled. */
  method CronFor(policy: Policy) returns (r: Option<Cron.CronExpr>)
    ensures r.Some? <==> Schedulable(policy)
    ensures r.Some? ==> Cron.WellFormed(r.value) && Cron.Spells(EffectiveSchedule(policy).value, r.value)
  {
    hide Cron.WellFormed, Cron.Spells, Cron.ExprParses;
    var expr := EffectiveSchedule(policy);
    if expr.None? { return None; }
    var parsed := Cron.ParseExpr(expr.value);
    return if parsed.Success? then Some(parsed.value) else None;
  }

  // ----- one attendance -----

  /** What happened to one active container: it was not due, its image could not
      be resolved, or it had its turn, which began in the world `start`. */
  datatype Attendance =
    | NotDue(seeded: seq<Event>)
    | Unresolved(seeded: seq<Event>)
    | TookTurn(seeded: seq<Event>, k: Case, t: Turn, start: World)

  ghost predicate SeedsFor(seeded: seq<Event>, name: string, policy: Policy, now: nat, t0: seq<Event>) {
    if name in After(t0).states then seeded == []
    else exists cron :: seeded == [Seeded(name, cron, now)] && CronOf(policy, cron)
  }

  /** The case of a container at its turn, as the memory has it. */
  ghost function CaseOf(m: Memory, row: Listed, policy: Policy): Case
    requires row.name in m.states
  {
    Case(row, policy, if row.name in m.failed then Some(m.failed[row.name]) else None,
         m.states[row.name].lastNotified)
  }

  /** From the trace `t0` in the world `a` to `trace` in `b`. */
  ghost predicate IsAttendance(x: Attendance, row: Listed, policy: Policy, now: nat, answers: Answers,
                               settings: Settings, poll: nat, t0: seq<Event>, a: World, trace: seq<Event>, b: World) {
    && SeedsFor(x.seeded, row.name, policy, now, t0)
    && var m := After(t0 + x.seeded);
       && row.name in m.states && (x.NotDue? <==> !Due(policy.mode, m.states[row.name], now, poll))
       && match x
          case NotDue(_) => trace == t0 + x.seeded && b == a
          case Unresolved(_) =>
            && trace == t0 + x.seeded + [InspectFailed(row.name, policy.mode, now)]
            && Rollout.Unmoved(a, b) && b.faults > a.faults
          case TookTurn(_, k, t, start) =>
            && k == CaseOf(m, row, policy) && Rollout.Unmoved(a, start)
            && IsTurn(t, k, answers, settings, start, b)
            && trace == t0 + x.seeded + Story(k, now, t)
  }

  /** The target to probe: the image a row names, or a failed inspect. */
  method Resolved(d: Daemon, row: Listed) returns (r: Result<ProbeTarget, DockerError>)
    requires d.Valid()
    modifies d`faults
    ensures d.Valid() && Rollout.Unmoved(old(Recreate.WorldOf(d)), Recreate.WorldOf(d))
    ensures r.Success? ==> r.value == ProbeTarget(row.image, row.imageId)
    ensures r.Failure? ==> d.faults > old(d.faults)
  {
    hide WellNamed, NamespacesOwned, ImagesKept, TagsServed;
    var fault: bool := *;
    if fault {
      d.faults := d.faults + 1;
      return Failure(Fault);
    }
    return Success(ProbeTarget(row.image, row.imageId));
  }

  method Listing(d: Daemon) returns (r: Result<seq<Listed>, DockerError>)
    requires d.Valid()
    modifies d`faults
    ensures d.Valid() && Rollout.Unmoved(old(Recreate.WorldOf(d)), Recreate.WorldOf(d))
    ensures r.Success? ==> Lists(d.containers, r.value)
    ensures r.Failure? ==> d.faults > old(d.faults)
  {
    hide WellNamed, NamespacesOwned, ImagesKept, TagsServed, Lists;
    r := d.ListRunning();
  }

  /** An outcome is only there when an update was called for, and is about its
      trigger. */
  lemma OutcomeFits(t: Turn, k: Case, answers: Answers, settings: Settings, a: World, b: World)
    requires IsTurn(t, k, answers, settings, a, b)
    ensures t.p.outcome.Some? ==>
              && Calls(k.policy, Seen(t.found), k.lastFailed)
              && k.row.name in t.p.outcome.value.containers
              && (t.p.outcome.value.WasRejected? ==> t.p.outcome.value.digest == Seen(t.found).value.0)
  {
    hide IsTurn, Turns.Went, Seen, Calls, Asked;
    var run := Quiet.TurnRests(t, k, answers, settings, a, b);
  }

  // ----- what a tick keeps -----

  /** From the trace `t0` in the world `w0` to `t` in `b`: no container is lost,
      pulls are kept, and what is known of any watched container still holds as
      long as upstream has stayed at its digest. */
  ghost predicate Safe(t0: seq<Event>, w0: World, t: seq<Event>, b: World) {
    && Rollout.KeepsAll(w0.history, b.history, w0.containers, b.containers)
    && PullsKept(w0.pulls, b.pulls) && b.contentOf == w0.contentOf
    && forall w :: Quiet.Tracked(w, t0, w0) && Quiet.Honest(w, t, b) ==> Quiet.Tracked(w, t, b)
  }

  lemma NothingSafe(t: seq<Event>, a: World, b: World)
    requires Rollout.Unmoved(a, b)
    ensures Safe(t, a, t, b)
  {
    hide Rollout.KeepsAll, Quiet.Tracked, Quiet.Honest;
    Rollout.NothingLost(a.history, a.containers);
    forall w | Quiet.Tracked(w, t, a)
      ensures Quiet.Tracked(w, t, b)
    {
      Quiet.TrackedUnmoved(w, t, a, b);
    }
  }

  lemma SafeJoin(t0: seq<Event>, w0: World, t1: seq<Event>, w1: World, t2: seq<Event>, w2: World)
    requires Safe(t0, w0, t1, w1) && Safe(t1, w1, t2, w2) && Extends(t1, t2)
    ensures Safe(t0, w0, t2, w2)
  {
    hide Rollout.KeepsAll, Quiet.Tracked, Quiet.Honest;
    Rollout.KeepsAllJoin(w0.history, w1.history, w2.history, w0.containers, w1.containers, w2.containers);
    forall w | Quiet.Tracked(w, t0, w0) && Quiet.Honest(w, t2, w2)
      ensures Quiet.Tracked(w, t2, w2)
    {
      Quiet.HonestLess(w, t1, w1, t2, w2);
    }
  }

  lemma NeutralSafe(t: seq<Event>, e: Event, a: World, b: World)
    requires Quiet.Neutral(e) && Rollout.Unmoved(a, b)
    ensures Safe(t, a, t + [e], b)
  {
    hide Rollout.KeepsAll, Quiet.Tracked, Quiet.Honest;
    Rollout.NothingLost(a.history, a.containers);
    forall w | Quiet.Tracked(w, t, a)
      ensures Quiet.Tracked(w, t + [e], b)
    {
      Quiet.TrackedPush(w, t, e, a, b);
    }
  }

  /** In the tick whose listing was made in the world `s` with the trace `t1`. */
  ghost predicate InTick(t0: seq<Event>, w0: World, t1: seq<Event>, s: World, t: seq<Event>, b: World) {
    && Safe(t0, w0, t1, s) && Safe(t0, w0, t, b) && Quiet.Since(t1, s, t, b) && Extends(t1, t)
  }

  lemma TickBegins(t0: seq<Event>, w0: World, t1: seq<Event>, s: World)
    requires Safe(t0, w0, t0, s) && t1 == t0 + [TickStarted] && WellNamed(s.containers, s.issued)
    ensures InTick(t0, w0, t1, s, t1, s)
  {
    hide Safe, Quiet.AllKin;
    NeutralSafe(t0, TickStarted, s, s);
    SafeJoin(t0, w0, t0, s, t1, s);
    Quiet.KinItself(s.containers);
  }

  lemma TickCut(t0: seq<Event>, w0: World, t1: seq<Event>, s: World, t: seq<Event>, b: World)
    requires InTick(t0, w0, t1, s, t, b)
    ensures Safe(t0, w0, t, b)
  {
  }

  lemma TickEnds(t0: seq<Event>, w0: World, t1: seq<Event>, s: World, t: seq<Event>, live: set<string>,
                 trace: seq<Event>, b: World)
    requires InTick(t0, w0, t1, s, t, b) && trace == t + [Pruned(live)]
    ensures Safe(t0, w0, trace, b)
  {
    hide Safe, Quiet.Since;
    NeutralSafe(t, Pruned(live), b, b);
    Started(t, Pruned(live));
    SafeJoin(t0, w0, t, b, trace, b);
  }

  lemma RowListed(s: World, rows: seq<Listed>, row: Listed)
    requires Lists(s.containers, rows) && row in rows
    ensures Quiet.ListedIn(s, row)
  {
  }

  lemma WentKeepsAll(a: World, b: World, run: Rollout.Run)
    requires Turns.Went(a, b, run)
    ensures Rollout.KeepsAll(a.history, b.history, a.containers, b.containers)
  {
    hide Rollout.KeepsAll, Rollout.Chained, Rollout.AfterRestarts, Planned;
    var m := run.middle;
    Rollout.ChainedKeepsAll(run.stages, run.start, m);
    Rollout.NothingLost(m.history, m.containers);
    if b != m { Rollout.RestartsKeepAll(m, b, Planned(run)); }
    Rollout.KeepsAllJoin(a.history, m.history, b.history, a.containers, m.containers, b.containers);
  }

  lemma TurnKeepsAll(t: Turn, k: Case, answers: Answers, settings: Settings, a: World, b: World)
    requires IsTurn(t, k, answers, settings, a, b)
    ensures Rollout.KeepsAll(a.history, b.history, a.containers, b.containers)
  {
    hide IsTurn, Rollout.KeepsAll, Turns.Went, Calls, Asked, Rests;
    var run := Quiet.TurnRests(t, k, answers, settings, a, b);
    Rollout.NothingLost(a.history, a.containers);
    if Calls(k.policy, Seen(t.found), k.lastFailed) { WentKeepsAll(a, b, run); }
  }

  /** Faults, and events that are no probes and no outcomes, keep the tick going. */
  lemma InTickPush(t0: seq<Event>, w0: World, t1: seq<Event>, s: World, t: seq<Event>, a: World, es: seq<Event>,
                   b: World)
    requires InTick(t0, w0, t1, s, t, a) && Rollout.Unmoved(a, b)
    requires |es| <= 1 && forall e :: e in es ==> Quiet.Neutral(e) && !e.TickStarted?
    ensures InTick(t0, w0, t1, s, t + es, b)
  {
    hide Safe, Quiet.AllKin, LandedOn, After, WellNamed, PullsKept;
    if es == [] {
      assert t + es == t;
      NothingSafe(t, a, b);
      NoEvents(t);
      SafeJoin(t0, w0, t, a, t, b);
    } else {
      assert es == [es[0]];
      NeutralSafe(t, es[0], a, b);
      Started(t, es[0]);
      SafeJoin(t0, w0, t, a, t + es, b);
      ExtendsJoin(t1, t, t + es);
      forall n | LandedOn(t + es, |t1|, n)
        ensures n in After(t + es).handled
      {
        Quiet.LandedPush(t, es[0], |t1|, n);
        Quiet.HandledPush(t, es[0]);
      }
    }
  }

  /** A container's turn keeps the tick going. */
  lemma InTickTurn(t0: seq<Event>, w0: World, t1: seq<Event>, s: World, t: seq<Event>, a: World, turn: Turn, k: Case,
                   now: nat, answers: Answers, settings: Settings, b: World)
    requires InTick(t0, w0, t1, s, t, a) && IsTurn(turn, k, answers, settings, a, b)
    requires Quiet.ListedIn(s, k.row) && !Rename.IsArchiveName(k.row.name) && k.row.name !in After(t).handled
    ensures InTick(t0, w0, t1, s, t + Story(k, now, turn), b)
  {
    hide IsTurn, Quiet.Since, Quiet.Tracked, Quiet.Honest, Rollout.KeepsAll, After, Story, Quiet.AllKin, PullsKept,
      Rename.IsArchiveName;
    var longer := t + Story(k, now, turn);
    Quiet.TurnSince(turn, k, now, answers, settings, t1, s, t, a, b);
    TurnKeepsAll(turn, k, answers, settings, a, b);
    Rollout.KeepsAllJoin(w0.history, a.history, b.history, w0.containers, a.containers, b.containers);
    assert Extends(t, longer);
    ExtendsJoin(t1, t, longer);
    SinceKept(t1, s, t, a);
    SinceKept(t1, s, longer, b);
    PullsJoin(w0.pulls, a.pulls, b.pulls);
    forall w | Quiet.Tracked(w, t0, w0) && Quiet.Honest(w, longer, b)
      ensures Quiet.Tracked(w, longer, b)
    {
      Quiet.HonestLess(w, t, a, longer, b);
      Quiet.HonestLess(w, t1, s, longer, b);
      Quiet.TurnKeeps(w, turn, k, now, answers, settings, t1, s, t, a, b);
    }
  }

  lemma SinceKept(t1: seq<Event>, s: World, t: seq<Event>, b: World)
    requires Quiet.Since(t1, s, t, b)
    ensures PullsKept(s.pulls, b.pulls) && b.contentOf == s.contentOf
  {
  }

  lemma PullsJoin(a: seq<Pulled>, b: seq<Pulled>, c: seq<Pulled>)
    requires PullsKept(a, b) && PullsKept(b, c)
    ensures PullsKept(a, c)
  {
    assert c[..|a|] == c[..|b|][..|a|];
  }

  lemma AttendSafe(t0: seq<Event>, w0: World, t1: seq<Event>, s: World, t: seq<Event>, a: World, x: Attendance,
                   row: Listed, policy: Policy, now: nat, answers: Answers, settings: Settings, poll: nat,
                   trace: seq<Event>, b: World)
    requires InTick(t0, w0, t1, s, t, a)
    requires IsAttendance(x, row, policy, now, answers, settings, poll, t, a, trace, b)
    requires Quiet.ListedIn(s, row) && !Rename.IsArchiveName(row.name) && row.name !in After(t).handled
    ensures InTick(t0, w0, t1, s, trace, b)
  {
    hide InTick, IsTurn, Story, Rename.IsArchiveName, After, Due, CronOf;
    var start := if x.TookTurn? then x.start else a;
    InTickPush(t0, w0, t1, s, t, a, x.seeded, start);
    match x {
      case NotDue(_) =>
      case Unresolved(_) =>
        InTickPush(t0, w0, t1, s, t + x.seeded, a, [InspectFailed(row.name, policy.mode, now)], b);
      case TookTurn(_, k, turn, _) =>
        SeedHandles(t, x.seeded);
        InTickTurn(t0, w0, t1, s, t + x.seeded, start, turn, k, now, answers, settings, b);
    }
  }

  lemma SeedHandles(t: seq<Event>, seeded: seq<Event>)
    requires |seeded| <= 1 && forall e :: e in seeded ==> e.Seeded?
    ensures After(t + seeded).handled == After(t).handled
  {
    hide After;
    if seeded == [] {
      assert t + seeded == t;
    } else {
      assert seeded == [seeded[0]];
      Quiet.HandledPush(t, seeded[0]);
    }
  }

  // ----- the tick -----

  /** Left alone, left alone but kept in memory, or ours to look after. */
  datatype Standing = Ignored | Shown | Active(policy: Policy)

  function StandingOf(c: Listed, settings: Settings): Standing {
    if Rename.IsArchiveName(c.name) then Ignored
    else
      match ParsePolicy(c.labels, settings.defaults)
      case Failure(_) => Shown
      case Success(policy) =>
        if !policy.enabled || policy.mode == Off then Ignored
        else if policy.autoEnabled && IsOwnContainer(settings.ownIdPrefix, c.id) then Shown
        else Active(policy)
  }

  /** What an attendance adds to the tally. */
  function RecordsOf(x: Attendance, mode: Mode): seq<(Verdict, Mode)> {
    match x
    case NotDue(_) => []
    case Unresolved(_) => [(WentWrong, mode)]
    case TookTurn(_, _, t, _) => Marked(t.p.verdicts, mode)
  }

  /** One line of a tick's account: the row attended to, under which policy, what
      happened, and the trace and the world before and after. */
  datatype Entry = Entry(
    at: nat,
    policy: Policy,
    what: Attendance,
    told: seq<Event>,
    before: World,
    trace: seq<Event>,
    after: World)

  /** From the trace `t0` in the world `a` to `trace` in `b` active rows were
      attended to, each at most once and in the order of the listing. */
  ghost predicate Accounts(entries: seq<Entry>, rows: seq<Listed>, now: nat, answers: nat -> Answers,
                           settings: Settings, poll: nat, t0: seq<Event>, a: World, trace: seq<Event>, b: World)
    decreases |entries|
  {
    if entries == [] then trace == t0 && b == a
    else
      var front, e := entries[..|entries| - 1], entries[|entries| - 1];
      && e.at < |rows| && StandingOf(rows[e.at], settings) == Active(e.policy) && AllBefore(front, e.at)
      && IsAttendance(e.what, rows[e.at], e.policy, now, answers(e.at), settings, poll, e.told, e.before, e.trace,
                      e.after)
      && e.trace == trace && e.after == b
      && Accounts(front, rows, now, answers, settings, poll, t0, a, e.told, e.before)
  }

  ghost predicate AllBefore(entries: seq<Entry>, at: nat) { forall k :: 0 <= k < |entries| ==> entries[k].at < at }

  /** The tally of an account. */
  ghost function Records(entries: seq<Entry>): seq<(Verdict, Mode)> {
    if entries == [] then []
    else
      var e := entries[|entries| - 1];
      Records(entries[..|entries| - 1]) + RecordsOf(e.what, e.policy.mode)
  }

  lemma AccountPush(entries: seq<Entry>, e: Entry, rows: seq<Listed>, now: nat, answers: nat -> Answers,
                    settings: Settings, poll: nat, t0: seq<Event>, a: World)
    requires Accounts(entries, rows, now, answers, settings, poll, t0, a, e.told, e.before)
    requires e.at < |rows| && StandingOf(rows[e.at], settings) == Active(e.policy) && AllBefore(entries, e.at)
    requires IsAttendance(e.what, rows[e.at], e.policy, now, answers(e.at), settings, poll, e.told, e.before, e.trace,
                          e.after)
    ensures Accounts(entries + [e], rows, now, answers, settings, poll, t0, a, e.trace, e.after)
    ensures Records(entries + [e]) == Records(entries) + RecordsOf(e.what, e.policy.mode)
    ensures AllBefore(entries + [e], e.at + 1)
  {
    hide IsAttendance, StandingOf, RecordsOf;
    assert (entries + [e])[..|entries|] == entries;
  }

  /** What one row adds to the account: nothing, or its attendance. */
  ghost predicate OnAccount(row: Listed, what: Option<(Policy, Attendance)>, now: nat, answers: Answers,
                            settings: Settings, poll: nat, t0: seq<Event>, a: World, trace: seq<Event>, b: World) {
    match what
    case None => trace == t0 && b == a
    case Some((policy, x)) =>
      && StandingOf(row, settings) == Active(policy)
      && IsAttendance(x, row, policy, now, answers, settings, poll, t0, a, trace, b)
  }

  ghost function Added(what: Option<(Policy, Attendance)>): seq<(Verdict, Mode)> {
    match what
    case None => []
    case Some((policy, x)) => RecordsOf(x, policy.mode)
  }

  lemma Accounted(tick: Tick, rows: seq<Listed>, i: nat, what: Option<(Policy, Attendance)>, now: nat,
                  answers: nat -> Answers, settings: Settings, poll: nat, t1: seq<Event>, t: seq<Event>, a: World,
                  trace: seq<Event>, b: World)
    returns (more: Tick)
    requires i < |rows| && AllBefore(tick.entries, i)
    requires Accounts(tick.entries, rows, now, answers, settings, poll, t1, tick.start, t, a)
    requires OnAccount(rows[i], what, now, answers(i), settings, poll, t, a, trace, b)
    ensures more == tick.(entries := more.entries) && AllBefore(more.entries, i + 1)
    ensures Accounts(more.entries, rows, now, answers, settings, poll, t1, tick.start, trace, b)
    ensures Records(more.entries) == Records(tick.entries) + Added(what)
  {
    hide Accounts, IsAttendance, StandingOf, RecordsOf, Records;
    more := tick;
    if what.Some? {
      var e := Entry(i, what.value.0, what.value.1, t, a, trace, b);
      AccountPush(tick.entries, e, rows, now, answers, settings, poll, t1, tick.start);
      more := tick.(entries := tick.entries + [e]);
    }
  }

  lemma NothingAccounted(rows: seq<Listed>, now: nat, answers: nat -> Answers, settings: Settings, poll: nat,
                         t0: seq<Event>, a: World)
    ensures Records([]) == [] && AllBefore([], 0)
    ensures Accounts([], rows, now, answers, settings, poll, t0, a, t0, a)
  {
    hide IsAttendance, StandingOf, RecordsOf;
  }

  /** A tick as it went: the listing, if there was one, and the world it was made
      in; who was attended to; and who is remembered. */
  datatype Tick = Tick(rows: Option<seq<Listed>>, start: World, entries: seq<Entry>, live: set<string>)

  /** The events from `t0` to `trace` and the way to the world `b` are those of
      the attendances, between the events of the tick itself. */
  ghost predicate IsTold(tick: Tick, finished: bool, now: nat, answers: nat -> Answers, settings: Settings, poll: nat,
                         t0: seq<Event>, trace: seq<Event>, b: World) {
    match tick.rows
    case None => trace == t0 && tick.entries == [] && b == tick.start
    case Some(rows) =>
      exists t ::
        Accounts(tick.entries, rows, now, answers, settings, poll, t0 + [TickStarted], tick.start, t, b)
        && trace == if finished then t + [Pruned(tick.live)] else t
  }

  /** What was added to `t0` begins with a tick. */
  predicate Begun(t0: seq<Event>, t: seq<Event>) { |t0| < |t| && t[|t0|] == TickStarted }

  ghost predicate Extends(t0: seq<Event>, t: seq<Event>) { |t0| <= |t| && t[..|t0|] == t0 }

  /** Somewhere from `from` on `name` was looked at, or was not due, or had been
      claimed by a rollout. */
  ghost predicate Attended(trace: seq<Event>, from: nat, name: string, mode: Mode, now: nat, poll: nat) {
    exists j :: from <= j <= |trace| && AttendedAt(trace, j, name, mode, now, poll)
  }

  ghost predicate AttendedAt(trace: seq<Event>, j: nat, name: string, mode: Mode, now: nat, poll: nat)
    requires j <= |trace|
  {
    || (j < |trace| && (trace[j] == Checked(name, mode, now) || trace[j] == InspectFailed(name, mode, now)))
    || (name in After(trace[..j]).states && !Due(mode, After(trace[..j]).states[name], now, poll))
    || name in After(trace[..j]).handled
  }

  lemma AttendedStays(t: seq<Event>, longer: seq<Event>, from: nat, name: string, mode: Mode, now: nat, poll: nat)
    requires Extends(t, longer) && Attended(t, from, name, mode, now, poll)
    ensures Attended(longer, from, name, mode, now, poll)
  {
    hide After, Due;
    var j :| from <= j <= |t| && AttendedAt(t, j, name, mode, now, poll);
    assert longer[..j] == t[..j];
    assert j < |t| ==> longer[j] == longer[..|t|][j] == t[j];
    assert AttendedAt(longer, j, name, mode, now, poll);
  }

  lemma AttendanceAttends(t0: seq<Event>, x: Attendance, row: Listed, policy: Policy, now: nat, answers: Answers,
                          settings: Settings, a: World, b: World, trace: seq<Event>, poll: nat, from: nat)
    requires from <= |t0| && IsAttendance(x, row, policy, now, answers, settings, poll, t0, a, trace, b)
    ensures Extends(t0, trace) && Attended(trace, from, row.name, policy.mode, now, poll)
  {
    hide After, Due, Seen, IsTurn, ProbeEvents, NoticeEvents, OutcomeEvents, SeedsFor;
    var j := |t0 + x.seeded|;
    assert trace[..j] == t0 + x.seeded;
    assert trace[..|t0|] == t0;
    match x {
      case NotDue(_) =>
      case Unresolved(_) => assert trace[j] == InspectFailed(row.name, policy.mode, now);
      case TookTurn(_, k, t, _) => assert trace[j] == Story(k, now, t)[0];
    }
    assert AttendedAt(trace, j, row.name, policy.mode, now, poll);
  }

  lemma ClaimedAttends(t: seq<Event>, from: nat, name: string, mode: Mode, now: nat, poll: nat)
    requires from <= |t| && name in After(t).handled
    ensures Attended(t, from, name, mode, now, poll)
  {
    hide After, Due;
    assert t[..|t|] == t;
    assert AttendedAt(t, |t|, name, mode, now, poll);
  }

  /** `c` has had its turn. */
  ghost predicate Done(c: Listed, settings: Settings, shown: set<string>, trace: seq<Event>, from: nat, now: nat,
                       poll: nat) {
    match StandingOf(c, settings)
    case Ignored => true
    case Shown => c.name in shown
    case Active(policy) => c.name in shown && Attended(trace, from, c.name, policy.mode, now, poll)
  }

  lemma DoneStays(c: Listed, settings: Settings, shown: set<string>, more: set<string>, t: seq<Event>,
                  longer: seq<Event>,
                  from: nat, now: nat, poll: nat)
    requires Done(c, settings, shown, t, from, now, poll) && shown <= more && Extends(t, longer)
    ensures Done(c, settings, more, longer, from, now, poll)
  {
    hide StandingOf, Attended, Extends;
    match StandingOf(c, settings) {
      case Active(policy) => AttendedStays(t, longer, from, c.name, policy.mode, now, poll);
      case _ =>
    }
  }

  lemma HandledDone(c: Listed, settings: Settings, shown: set<string>, trace: seq<Event>, from: nat, now: nat,
                    poll: nat)
    requires c.name in shown && from <= |trace| && c.name in After(trace).handled
    ensures Done(c, settings, shown, trace, from, now, poll)
  {
    hide StandingOf, Attended, After;
    match StandingOf(c, settings) {
      case Active(policy) => ClaimedAttends(trace, from, c.name, policy.mode, now, poll);
      case _ =>
    }
  }

  /** The first `n` rows have had their turn. */
  ghost predicate AllDone(rows: seq<Listed>, n: nat, settings: Settings, shown: set<string>, trace: seq<Event>,
                          from: nat, now: nat, poll: nat)
    requires n <= |rows|
  {
    forall k :: 0 <= k < n ==> Done(rows[k], settings, shown, trace, from, now, poll)
  }

  ghost predicate ShownFrom(rows: seq<Listed>, shown: set<string>) {
    forall n :: n in shown ==> exists c :: c in rows && c.name == n && !Rename.IsArchiveName(n)
  }

  /** A tick that was not cut short: it began and ended with its own events,
      every active container was attended to in between, and those that are ours
      or in doubt are remembered, and nobody else. */
  ghost predicate TickDone(rows: seq<Listed>, settings: Settings, t0: seq<Event>, trace: seq<Event>,
                           live: set<string>, now: nat, poll: nat) {
    && |t0| < |trace| && trace[|t0|] == TickStarted && trace[|trace| - 1] == Pruned(live)
    && AllDone(rows, |rows|, settings, live, trace, |t0| + 1, now, poll) && ShownFrom(rows, live)
  }

  lemma NothingDone(rows: seq<Listed>, settings: Settings, trace: seq<Event>, now: nat, poll: nat)
    ensures AllDone(rows, 0, settings, {}, trace, |trace|, now, poll) && ShownFrom(rows, {})
  {
  }

  lemma OneMoreDone(rows: seq<Listed>, i: nat, settings: Settings, before: set<string>, more: set<string>,
                    shown: set<string>, t: seq<Event>, trace: seq<Event>, from: nat, now: nat, poll: nat)
    requires i < |rows| && AllDone(rows, i, settings, before, t, from, now, poll) && ShownFrom(rows, before)
    requires Extends(t, trace) && shown == before + more && more <= {rows[i].name}
    requires Done(rows[i], settings, more, trace, from, now, poll)
    requires more != {} ==> !Rename.IsArchiveName(rows[i].name)
    ensures AllDone(rows, i + 1, settings, shown, trace, from, now, poll) && ShownFrom(rows, shown)
  {
    hide Done, Extends, Rename.IsArchiveName;
    NoEvents(trace);
    DoneStays(rows[i], settings, more, shown, trace, trace, from, now, poll);
    forall k | 0 <= k < i
      ensures Done(rows[k], settings, shown, trace, from, now, poll)
    {
      DoneStays(rows[k], settings, before, shown, t, trace, from, now, poll);
    }
  }

  lemma AllAreDone(rows: seq<Listed>, settings: Settings, shown: set<string>, t0: seq<Event>, t1: seq<Event>,
                   t3: seq<Event>, trace: seq<Event>, now: nat, poll: nat)
    requires t1 == t0 + [TickStarted] && Extends(t1, t3) && trace == t3 + [Pruned(shown)]
    requires AllDone(rows, |rows|, settings, shown, t3, |t1|, now, poll) && ShownFrom(rows, shown)
    ensures Extends(t1, trace) && TickDone(rows, settings, t0, trace, shown, now, poll)
  {
    hide Done, ShownFrom;
    Started(t3, Pruned(shown));
    ExtendsJoin(t1, t3, trace);
    ExtendsAt(t0, TickStarted, trace);
    forall k | 0 <= k < |rows|
      ensures Done(rows[k], settings, shown, trace, |t1|, now, poll)
    {
      DoneStays(rows[k], settings, shown, shown, t3, trace, |t1|, now, poll);
    }
  }

  lemma ExtendsAt(t: seq<Event>, e: Event, longer: seq<Event>)
    requires Extends(t + [e], longer)
    ensures |t| < |longer| && longer[|t|] == e
  {
    assert longer[..|t + [e]|][|t|] == e;
  }

  lemma NoEvents(t: seq<Event>)
    ensures Extends(t, t)
  {
  }

  lemma Started(t: seq<Event>, e: Event)
    ensures Extends(t, t + [e])
  {
  }

  lemma ExtendsJoin(a: seq<Event>, b: seq<Event>, c: seq<Event>)
    requires Extends(a, b) && Extends(b, c)
    ensures Extends(a, c)
  {
    assert c[..|a|] == c[..|b|][..|a|];
  }

  /** The fields the scheduler keeps are the memory of its trace, and every event
      of the trace obeyed its rule. */
  class State {
    const poll: nat
    var states: map<string, ContainerState>
    var failed: map<string, string>
    var handled: set<string>
    ghost var trace: seq<Event>

    ghost predicate Valid()
      reads this
    {
      && Legal(trace, poll)
      && var m := After(trace); m.states == states && m.failed == failed && m.handled == handled
    }

    constructor (poll: nat)
      ensures Valid() && this.poll == poll && trace == []
    {
      this.poll := poll;
      states, failed, handled, trace := map[], map[], {}, [];
    }

    ghost method Log(e: Event)
      requires Legal(trace, poll) && Allowed(After(trace), e, poll)
      modifies `trace
      ensures trace == old(trace) + [e]
      ensures Legal(trace, poll) && After(trace) == Next(After(old(trace)), e)
    {
      LegalPush(trace, e, poll);
      trace := trace + [e];
    }

    method StartTick()
      requires Valid()
      modifies this
      ensures Valid() && trace == old(trace) + [TickStarted] && handled == {}
    {
      hide Legal, After;
      Log(TickStarted);
      handled := {};
    }

    method Seed(name: string, policy: Policy, now: nat) returns (ghost cron: Option<Cron.CronExpr>)
      requires Valid() && name !in states
      modifies this
      ensures Valid() && name in states && handled == old(handled)
      ensures trace == old(trace) + [Seeded(name, cron, now)] && CronOf(policy, cron)
    {
      hide Legal, After, Cron.Spells, Cron.NextFire, Cron.WellFormed, Schedulable;
      var parsed := CronFor(policy);
      cron := parsed;
      var fire := Fire(parsed, now);
      Log(Seeded(name, cron, now));
      states := states[name := ContainerState(None, fire, parsed, None)];
    }

    method Fire(cron: Option<Cron.CronExpr>, now: nat) returns (r: Option<nat>)
      ensures r == FireAfter(cron, now)
    {
      hide Cron.NextFire;
      if cron.None? { return None; }
      r := Cron.NextAfter(cron.value, now);
    }

    /** A window is only used up by a check; a poll interval also by a failure. */
    method NoteInspectFailed(name: string, mode: Mode, now: nat)
      requires Valid() && name in states && name !in handled && Due(mode, states[name], now, poll)
      modifies this
      ensures Valid() && trace == old(trace) + [InspectFailed(name, mode, now)] && handled == old(handled)
    {
      hide Legal, After;
      Log(InspectFailed(name, mode, now));
      if IsPolled(mode) {
        states := states[name := states[name].(lastChecked := Some(now))];
      }
    }

    method NoteChecked(name: string, mode: Mode, now: nat)
      requires Valid() && name in states && name !in handled && Due(mode, states[name], now, poll)
      modifies this
      ensures Valid() && trace == old(trace) + [Checked(name, mode, now)] && handled == old(handled)
      ensures name in states && failed == old(failed) && states[name].lastNotified == old(states)[name].lastNotified
    {
      hide Legal, After, Cron.NextFire;
      Log(Checked(name, mode, now));
      if IsPolled(mode) {
        states := states[name := states[name].(lastChecked := Some(now))];
      } else {
        var fire := Fire(states[name].cron, now);
        states := states[name := states[name].(nextFire := fire)];
      }
    }

    method Announce(name: string, digest: string)
      requires Valid() && name in states && states[name].lastNotified != Some(digest)
      modifies this
      ensures Valid() && failed == old(failed) && trace == old(trace) + [Announced(name, digest)]
    {
      hide Legal, After;
      Log(Announced(name, digest));
      states := states[name := states[name].(lastNotified := Some(digest))];
    }

    method Remember(name: string, latest: string, outcome: UpdateOutcome)
      requires Valid() && After(trace).pending == Some((name, latest)) && !(name in failed && failed[name] == latest)
      requires name in outcome.containers && (outcome.WasRejected? ==> outcome.digest == latest)
      modifies this
      ensures Valid()
      ensures trace == old(trace) + [match outcome
                                     case WasRejected(digest, containers) => Rejected(name, digest, containers)
                                     case HasLanded(containers) => Landed(name, latest, containers)]
    {
      hide Legal, After;
      match outcome {
        case WasRejected(digest, containers) =>
          Log(Rejected(name, digest, containers));
          failed := WithFailed(failed, containers, digest);
        case HasLanded(containers) =>
          Log(Landed(name, latest, containers));
          failed := Schedule.Without(failed, containers);
      }
    }

    method Claim(names: seq<string>)
      requires Valid()
      modifies this
      ensures Valid() && trace == old(trace) + [Claimed(names)]
    {
      hide Legal, After;
      Log(Claimed(names));
      handled := handled + Names(names);
    }

    method Prune(live: set<string>)
      requires Valid()
      modifies this
      ensures Valid() && trace == old(trace) + [Pruned(live)]
      ensures states.Keys <= live && failed.Keys <= live
    {
      hide Legal, After;
      Log(Pruned(live));
      states, failed := Kept(states, live), Kept(failed, live);
    }

    /** One tick. `shutdown(i)` is the flag as seen before the i-th container. A
        tick that is cut short, or whose listing failed, forgets nothing. */
    method RunTick(d: Daemon, now: nat, shutdown: nat -> bool, answers: nat -> Answers, settings: Settings,
                   ghost step: nat)
      returns (summary: RunSummary, finished: bool, ghost tick: Tick)
      requires Valid() && d.Valid() && forall i: nat :: Ticking(answers(i), step)
      modifies this, d
      ensures Valid() && d.Valid() && summary.Valid() && fresh(summary)
      ensures Extends(old(trace), trace)
      ensures Safe(old(trace), old(Recreate.WorldOf(d)), trace, Recreate.WorldOf(d))
      ensures Rollout.Unmoved(old(Recreate.WorldOf(d)), tick.start)
      ensures tick.rows.Some? ==> Lists(old(d.containers), tick.rows.value) && Begun(old(trace), trace)
      ensures tick.rows.None? ==> !finished && trace == old(trace) && d.faults > old(d.faults)
      // the summary is the tally of the verdicts of the tick
      ensures summary.recorded == Records(tick.entries)
      ensures tick.rows.Some? && (forall i: nat :: !shutdown(i)) ==> finished
      // everyone who is ours has been attended to and is remembered
      ensures finished ==>
                tick.rows.Some? && TickDone(tick.rows.value, settings, old(trace), trace, tick.live, now, poll)
      ensures IsTold(tick, finished, now, answers, settings, poll, old(trace), trace, Recreate.WorldOf(d))
    {
      hide Legal, After, Daemon.Valid, RunSummary.Valid, Ticking, Extends, StandingOf, Due, Rename.IsArchiveName, Safe,
        InTick, Lists, IsAttendance, Done, AllDone, ShownFrom, TickDone, Accounts, Records, AllBefore;
      ghost var t0, w0 := trace, Recreate.WorldOf(d);
      summary := new RunSummary();
      finished := false;
      NoEvents(t0);
      var listed := Listing(d);
      ghost var s := Recreate.WorldOf(d);
      NothingSafe(t0, w0, s);
      tick := Tick(None, s, [], {});
      NothingAccounted([], now, answers, settings, poll, t0, s);
      if listed.Failure? { return; }
      var rows := listed.value;
      tick := tick.(rows := Some(rows));
      StartTick();
      ghost var t1 := trace;
      Started(t0, TickStarted);
      NoEvents(t1);
      Rollout.DaemonNamed(d);
      TickBegins(t0, w0, t1, s);
      var shown: set<string> := {};
      NothingDone(rows, settings, t1, now, poll);
      NothingAccounted(rows, now, answers, settings, poll, t1, s);
      for i := 0 to |rows|
        invariant Valid() && d.Valid() && summary.Valid() && fresh(summary)
        invariant Extends(t1, trace) && InTick(t0, w0, t1, s, trace, Recreate.WorldOf(d))
        invariant AllDone(rows, i, settings, shown, trace, |t1|, now, poll) && ShownFrom(rows, shown)
        invariant tick.rows == Some(rows) && tick.start == s && AllBefore(tick.entries, i)
        invariant Accounts(tick.entries, rows, now, answers, settings, poll, t1, s, trace, Recreate.WorldOf(d))
        invariant summary.recorded == Records(tick.entries)
      {
        if shutdown(i) {
          ExtendsJoin(t0, t1, trace);
          ExtendsAt(t0, TickStarted, trace);
          TickCut(t0, w0, t1, s, trace, Recreate.WorldOf(d));
          return;
        }
        ghost var t2, before, a := trace, shown, Recreate.WorldOf(d);
        RowListed(s, rows, rows[i]);
        var keep, what := Visit(d, rows[i], now, answers(i), settings, summary, step, t0, w0, t1, s);
        tick := Accounted(tick, rows, i, what, now, answers, settings, poll, t1, t2, a, trace, Recreate.WorldOf(d));
        if keep { shown := shown + {rows[i].name}; }
        OneMoreDone(rows, i, settings, before, if keep then {rows[i].name} else {}, shown, t2, trace, |t1|, now, poll);
        ExtendsJoin(t1, t2, trace);
      }
      ghost var t3 := trace;
      Prune(shown);
      AllAreDone(rows, settings, shown, t0, t1, t3, trace, now, poll);
      ExtendsAt(t0, TickStarted, trace);
      ExtendsJoin(t0, t1, trace);
      TickEnds(t0, w0, t1, s, t3, shown, trace, Recreate.WorldOf(d));
      tick, finished := tick.(live := shown), true;
    }

    /** The turn of one row. Archives and what is not ours are left alone; `keep`
        says that the container stays in memory. */
    method Visit(d: Daemon, c: Listed, now: nat, answers: Answers, settings: Settings, summary: RunSummary,
                 ghost step: nat, ghost t0: seq<Event>, ghost w0: World, ghost t1: seq<Event>, ghost s: World)
      returns (keep: bool, ghost what: Option<(Policy, Attendance)>)
      requires Valid() && d.Valid() && summary.Valid() && Ticking(answers, step)
      requires InTick(t0, w0, t1, s, trace, Recreate.WorldOf(d)) && Extends(t1, trace) && Quiet.ListedIn(s, c)
      modifies this, d, summary
      ensures Valid() && d.Valid() && summary.Valid()
      ensures InTick(t0, w0, t1, s, trace, Recreate.WorldOf(d)) && Extends(old(trace), trace)
      ensures Done(c, settings, if keep then {c.name} else {}, trace, |t1|, now, poll)
      ensures keep ==> !Rename.IsArchiveName(c.name)
      ensures summary.recorded == old(summary.recorded) + Added(what)
      ensures OnAccount(c, what, now, answers, settings, poll, old(trace), old(Recreate.WorldOf(d)), trace,
                        Recreate.WorldOf(d))
    {
      hide Legal, After, Daemon.Valid, RunSummary.Valid, Ticking, Due, Rename.IsArchiveName, InTick, IsAttendance,
        Attended, ParsePolicy, IsOwnContainer, Quiet.ListedIn, RecordsOf;
      ghost var t2, a := trace, Recreate.WorldOf(d);
      NoEvents(t2);
      keep, what := false, None;
      if Rename.IsArchiveName(c.name) { return; }
      if c.name in handled {
        keep := true;
        HandledDone(c, settings, {c.name}, t2, |t1|, now, poll);
        return;
      }
      match StandingOf(c, settings) {
        case Ignored =>
        case Shown => keep := true;
        case Active(policy) =>
          keep := true;
          ghost var x := Attend(d, c, policy, now, answers, settings, summary, step);
          what := Some((policy, x));
          AttendSafe(t0, w0, t1, s, t2, a, x, c, policy, now, answers, settings, poll, trace, Recreate.WorldOf(d));
          AttendanceAttends(t2, x, c, policy, now, answers, settings, a, Recreate.WorldOf(d), trace, poll, |t1|);
      }
    }

    /** One active container that no rollout has claimed: seeded on first sight,
        and when due inspected, probed and updated. */
    method Attend(d: Daemon, row: Listed, policy: Policy, now: nat, answers: Answers, settings: Settings,
                  summary: RunSummary, ghost step: nat)
      returns (ghost attendance: Attendance)
      requires Valid() && d.Valid() && summary.Valid() && Ticking(answers, step)
      requires row.name !in handled
      modifies this, d, summary
      ensures Valid() && d.Valid() && summary.Valid()
      ensures summary.recorded == old(summary.recorded) + RecordsOf(attendance, policy.mode)
      ensures IsAttendance(attendance, row, policy, now, answers, settings, poll, old(trace),
                           old(Recreate.WorldOf(d)), trace, Recreate.WorldOf(d))
    {
      hide Legal, After, Next, Allowed, Daemon.Valid, RunSummary.Valid, Ticking, Due, IsTurn, Story, Schedulable;
      ghost var t0, a := trace, Recreate.WorldOf(d);
      ghost var seeded: seq<Event> := [];
      if row.name !in states {
        ghost var cron := Seed(row.name, policy, now);
        seeded := [Seeded(row.name, cron, now)];
      }
      ghost var t1 := trace;
      assert t1 == t0 + seeded;
      var lastFailed := if row.name in failed then Some(failed[row.name]) else None;
      var k := Case(row, policy, lastFailed, states[row.name].lastNotified);
      if !Due(policy.mode, states[row.name], now, poll) {
        attendance := NotDue(seeded);
        return;
      }
      var target := Resolved(d, row);
      if target.Failure? {
        summary.Record(WentWrong, policy.mode);
        NoteInspectFailed(row.name, policy.mode, now);
        attendance := Unresolved(seeded);
        return;
      }
      ghost var start := Recreate.WorldOf(d);
      ghost var t := Process(d, k, target.value, now, answers, settings, summary, step);
      attendance := TookTurn(seeded, k, t, start);
    }

    /** The part of `Attend` behind a successful inspect. */
    method Process(d: Daemon, k: Case, target: ProbeTarget, now: nat, answers: Answers, settings: Settings,
                   summary: RunSummary, ghost step: nat)
      returns (ghost t: Turn)
      requires Valid() && d.Valid() && summary.Valid() && Ticking(answers, step)
      requires target == ProbeTarget(k.row.image, k.row.imageId)
      requires k.row.name !in handled && k.row.name in states && Due(k.policy.mode, states[k.row.name], now, poll)
      requires k.lastFailed == if k.row.name in failed then Some(failed[k.row.name]) else None
      requires k.lastNotified == states[k.row.name].lastNotified
      modifies this, d, summary
      ensures Valid() && d.Valid() && summary.Valid()
      ensures IsTurn(t, k, answers, settings, old(Recreate.WorldOf(d)), Recreate.WorldOf(d))
      ensures trace == old(trace) + Story(k, now, t)
      ensures summary.recorded == old(summary.recorded) + Marked(t.p.verdicts, k.policy.mode)
    {
      hide Legal, After, Daemon.Valid, RunSummary.Valid, Ticking, Seen, Calls, CallsOut, IsTurn, Due, ProbeEvents,
        NoticeEvents, OutcomeEvents;
      ghost var t0, a := trace, Recreate.WorldOf(d);
      NoteChecked(k.row.name, k.policy.mode, now);
      var f, p, announced, inspectedAt := ProcessContainer(d, k, target, answers, settings, step);
      t := Turn(f, inspectedAt, p);
      OutcomeFits(t, k, answers, settings, a, Recreate.WorldOf(d));
      NoteSeen(k, f, announced);
      summary.RecordAll(p.verdicts, k.policy.mode);
      NoteOutcome(k, f, p, t);
      Quiet.StoryInSteps(k, now, t, t0);
    }

    /** The probe's answer, and the announcement that follows from it. */
    method NoteSeen(k: Case, f: Findings, announced: Option<string>)
      requires Valid() && k.row.name in states && k.lastNotified == states[k.row.name].lastNotified
      requires announced == if CallsOut(k.policy, Seen(f), k.lastNotified) then Some(Seen(f).value.0) else None
      modifies this
      ensures Valid() && failed == old(failed)
      ensures trace == old(trace) + ProbeEvents(k, f) + NoticeEvents(k, f)
      ensures Calls(k.policy, Seen(f), k.lastFailed) ==>
                After(trace).pending == Some((k.row.name, Seen(f).value.0))
    {
      hide Legal, After, Seen;
      ghost var t1 := trace;
      if Seen(f).Some? {
        Log(Probed(k.row.name, Registry.Parse(k.row.image), Seen(f).value.0, Seen(f).value.1));
      }
      assert trace == t1 + ProbeEvents(k, f);
      ghost var t2 := trace;
      if announced.Some? {
        Announce(k.row.name, announced.value);
      }
      assert trace == t2 + NoticeEvents(k, f);
    }

    /** What came out of the turn, and whom it concerned. */
    method NoteOutcome(k: Case, f: Findings, p: Processed, ghost t: Turn)
      requires Valid() && t.found == f && t.p == p
      requires k.lastFailed == if k.row.name in failed then Some(failed[k.row.name]) else None
      requires p.outcome.Some? ==>
                 && Calls(k.policy, Seen(f), k.lastFailed) && k.row.name in p.outcome.value.containers
                 && (p.outcome.value.WasRejected? ==> p.outcome.value.digest == Seen(f).value.0)
                 && After(trace).pending == Some((k.row.name, Seen(f).value.0))
      modifies this
      ensures Valid() && trace == old(trace) + OutcomeEvents(k, t) + [Claimed(p.handled)]
    {
      hide Legal, After, Seen;
      ghost var t3 := trace;
      if p.outcome.Some? {
        Remember(k.row.name, Seen(f).value.0, p.outcome.value);
      }
      assert trace == t3 + OutcomeEvents(k, t);
      Claim(p.handled);
    }
  }

  // ----- the loop -----

  /** `w` has been watched since the trace was `t0` and the world `w0`. */
  ghost predicate WatchedFrom(w: Quiet.Watch, t0: seq<Event>, w0: World) {
    w.since == |t0| && w.pulled == |w0.pulls|
  }

  /** With the trace and the world at the end: from the time it is watched a
      container has triggered at most one update that was settled. */
  ghost predicate AtRest(w: Quiet.Watch, w0: World, trace: seq<Event>, b: World) {
    Quiet.AllOnRef(w, w0.containers) && Quiet.Honest(w, trace, b) && StaysListed(trace, w.since, w.name) ==>
      Calm(trace, w.since, w.name) && (LandedOn(trace, w.since, w.name) ==> Quiet.NamedFit(w, b))
  }

  /** Quiescence, from any point of a run, whatever went on before it: from the
      time when its project is on one reference and upstream serves one digest for
      that, a container that stays listed triggers at most one update that ends
      Landed or Rejected. What the run does is not assumed: that a landing holds is
      what the pulls, the updates and the daemon's own records make of it. */
  lemma Quiescence(w: Quiet.Watch, t0: seq<Event>, w0: World, trace: seq<Event>, b: World, poll: nat)
    requires Safe(t0, w0, trace, b) && Legal(trace, poll) && WatchedFrom(w, t0, w0)
    requires Quiet.AllOnRef(w, w0.containers) && Quiet.Honest(w, trace, b) && StaysListed(trace, w.since, w.name)
    ensures Calm(trace, w.since, w.name)
    ensures LandedOn(trace, w.since, w.name) ==> Quiet.NamedFit(w, b)
  {
    hide Rollout.KeepsAll, PullsKept, Quiet.Honest, Legal, StaysListed, Calm, LandingHolds, OneUpstream, Quiet.AllOnRef,
      Quiet.NamedFit, LandedOn;
    Quiet.NothingTracked(w, t0, w0);
    OneSettle(trace, poll, w.since, w.name, w.digest);
  }

  /** One tick's share of a trace: nothing, when the listing failed, or events
      that begin with the tick. */
  ghost predicate IsTick(trace: seq<Event>, from: nat, to: nat) {
    from <= to <= |trace| && (from == to || trace[from] == TickStarted)
  }

  /** The trace falls into ticks that begin at `marks`. */
  ghost predicate InTicks(trace: seq<Event>, marks: seq<nat>) {
    && marks != [] && marks[0] == 0 && marks[|marks| - 1] == |trace|
    && forall i :: 0 <= i < |marks| - 1 ==> IsTick(trace, marks[i], marks[i + 1])
  }

  lemma AnotherTick(t: seq<Event>, trace: seq<Event>, marks: seq<nat>)
    requires InTicks(t, marks) && Extends(t, trace) && (trace == t || Begun(t, trace))
    ensures InTicks(trace, marks + [|trace|])
  {
    var more := marks + [|trace|];
    forall i | 0 <= i < |more| - 1
      ensures IsTick(trace, more[i], more[i + 1])
    {
      if i < |marks| - 1 {
        assert IsTick(t, marks[i], marks[i + 1]);
        assert marks[i] < |t| ==> trace[marks[i]] == trace[..|t|][marks[i]];
      }
    }
  }

  /** A number of ticks, cut short when the shutdown flag is up. `now(i)`,
      `shutdown(i)` and `answers(i)` are what the world says in the i-th tick;
      `marks` is where the ticks begin in the trace. */
  method RunWith(d: Daemon, poll: nat, ticks: nat, now: nat -> nat, stop: nat -> bool, shutdown: nat -> nat -> bool,
                 answers: nat -> nat -> Answers, settings: Settings, ghost step: nat)
    returns (state: State, ghost marks: seq<nat>, ghost worlds: seq<World>)
    requires d.Valid() && forall i: nat, j: nat :: Ticking(answers(i)(j), step)
    modifies d
    ensures state.Valid() && d.Valid() && fresh(state) && state.poll == poll
    ensures InTicks(state.trace, marks) && |worlds| == |marks| <= ticks + 1
    ensures worlds[0] == old(Recreate.WorldOf(d)) && worlds[|marks| - 1] == Recreate.WorldOf(d)
    ensures AllSafe(marks, worlds, state.trace, Recreate.WorldOf(d))
    ensures (forall i: nat :: i < |marks| - 1 ==> !stop(i)) && (|marks| < ticks + 1 ==> stop(|marks| - 1))
    // no endless updates, from whichever tick on a container is watched
    ensures AllAtRest(marks, worlds, state.trace, Recreate.WorldOf(d))
  {
    hide Legal, After, Daemon.Valid, Ticking, Safe, InTicks, Begun, Extends, AllAtRest, IsTold,
      AllSafe, Records, Recreate.WorldOf;
    ghost var w0 := Recreate.WorldOf(d);
    state := new State(poll);
    marks, worlds := [0], [w0];
    NoTicks();
    FirstSafe(w0);
    for i := 0 to ticks
      invariant fresh(state) && state.Valid() && d.Valid() && state.poll == poll
      invariant InTicks(state.trace, marks) && |marks| == |worlds| == i + 1
      invariant worlds[0] == w0 && worlds[i] == Recreate.WorldOf(d)
      invariant AllSafe(marks, worlds, state.trace, Recreate.WorldOf(d))
      invariant forall k: nat :: k < i ==> !stop(k)
    {
      if stop(i) {
        ComesToRest(marks, worlds, state, d);
        return;
      }
      ghost var t, a := state.trace, Recreate.WorldOf(d);
      var summary, _, _ := state.RunTick(d, now(i), shutdown(i), answers(i), settings, step);
      MoreSafe(marks, worlds, t, a, state.trace, Recreate.WorldOf(d));
      AnotherTick(t, state.trace, marks);
      marks, worlds := marks + [|state.trace|], worlds + [Recreate.WorldOf(d)];
    }
    ComesToRest(marks, worlds, state, d);
  }

  /** From each of the marked points on everything is kept that one tick keeps. */
  ghost predicate AllSafe(marks: seq<nat>, worlds: seq<World>, trace: seq<Event>, b: World)
    requires |worlds| == |marks|
  {
    forall i :: 0 <= i < |marks| ==> marks[i] <= |trace| && Safe(trace[..marks[i]], worlds[i], trace, b)
  }

  /** Whoever is watched from one of the marked points on comes to rest. */
  ghost predicate AllAtRest(marks: seq<nat>, worlds: seq<World>, trace: seq<Event>, b: World)
    requires |worlds| == |marks|
  {
    forall i, w: Quiet.Watch :: 0 <= i < |marks| && w.since == marks[i] && w.pulled == |worlds[i].pulls| ==>
      AtRest(w, worlds[i], trace, b)
  }

  lemma FirstSafe(w0: World)
    ensures AllSafe([0], [w0], [], w0)
  {
    hide Safe;
    NothingSafe([], w0, w0);
  }

  lemma MoreSafe(marks: seq<nat>, worlds: seq<World>, t: seq<Event>, a: World, trace: seq<Event>, b: World)
    requires |worlds| == |marks| && AllSafe(marks, worlds, t, a) && Safe(t, a, trace, b) && Extends(t, trace)
    ensures AllSafe(marks + [|trace|], worlds + [b], trace, b)
  {
    hide Safe;
    forall i | 0 <= i < |marks|
      ensures Safe(trace[..marks[i]], worlds[i], trace, b)
    {
      assert trace[..marks[i]] == trace[..|t|][..marks[i]];
      SafeJoin(t[..marks[i]], worlds[i], t, a, trace, b);
    }
    NothingSafe(trace, b, b);
    assert trace[..|trace|] == trace;
  }

  lemma ComesToRest(marks: seq<nat>, worlds: seq<World>, state: State, d: Daemon)
    requires |worlds| == |marks| && state.Valid() && AllSafe(marks, worlds, state.trace, Recreate.WorldOf(d))
    ensures AllAtRest(marks, worlds, state.trace, Recreate.WorldOf(d))
  {
    hide Legal, After, Safe, Quiet.AllOnRef, Quiet.Honest, StaysListed, Calm, Quiet.NamedFit, LandedOn;
    var b := Recreate.WorldOf(d);
    forall i, w: Quiet.Watch | 0 <= i < |marks| && w.since == marks[i] && w.pulled == |worlds[i].pulls|
      ensures AtRest(w, worlds[i], state.trace, b)
    {
      if Quiet.AllOnRef(w, worlds[i].containers) && Quiet.Honest(w, state.trace, b)
         && StaysListed(state.trace, w.since, w.name) {
        Quiescence(w, state.trace[..marks[i]], worlds[i], state.trace, b, state.poll);
      }
    }
  }

  lemma NoTicks()
    ensures InTicks([], [0])
  {
  }
}
