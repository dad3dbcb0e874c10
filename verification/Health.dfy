/** The health gate and the one-shot gate (src/health.rs). Durations are natural
    numbers of one unit. A gate runs against an environment that fixes, for the
    n-th poll, the daemon's reply and the time elapsed when the clock is read
    after it; the gates never look at anything else. Each poll is recorded in the
    daemon's `probes`. */
module Health {
  import opened Docker

  datatype RuntimeState =
    | HealthStarting
    | HealthHealthy
    | HealthUnhealthy
    | RunningNoHealthcheck
    | Exited(exitCode: int)

  datatype Reply = Answered(state: RuntimeState) | ProbeFailed

  datatype HealthOutcome = Healthy | Timeout | Crashed

  datatype ExitOutcome = Finished(exitCode: int) | TimedOut

  datatype HealthConfig = HealthConfig(healthTimeout: nat, gracePeriod: nat, pollInterval: nat)

  datatype Environment = Environment(reply: nat -> Reply, elapsed: nat -> nat)

  /** Every sleep between two polls moves the clock by at least `step`. */
  ghost predicate Advances(env: Environment, step: nat) {
    step > 0 && forall n: nat :: env.elapsed(n + 1) >= env.elapsed(n) + step
  }

  function Max(a: nat, b: nat): nat { if a < b then b else a }

  function CeilDiv(a: nat, b: nat): nat
    requires b > 0
  {
    (a + b - 1) / b
  }

  lemma {:induction false} ElapsedAtLeast(env: Environment, step: nat, n: nat)
    requires Advances(env, step)
    ensures env.elapsed(n) >= n * step
  {
    if n > 0 {
      ElapsedAtLeast(env, step, n - 1);
      assert env.elapsed(n - 1 + 1) >= env.elapsed(n - 1) + step;
      assert n * step == (n - 1) * step + step;
    }
  }

  /** A poll that was still within `limit` is one of the first few. */
  lemma PollBound(env: Environment, step: nat, n: nat, limit: nat)
    requires Advances(env, step)
    requires env.elapsed(n) < limit
    ensures n + 1 <= CeilDiv(limit, step)
  {
    ElapsedAtLeast(env, step, n);
    var c := CeilDiv(limit, step);
    assert c * step >= limit by {
      assert limit + step - 1 == c * step + (limit + step - 1) % step;
    }
    assert n < c by {
      if n >= c { MulMonotone(c, n, step); }
    }
  }

  lemma MulMonotone(a: nat, b: nat, k: nat)
    requires a <= b
    ensures a * k <= b * k
  {
    assert b * k == a * k + (b - a) * k;
  }

  /** The budget a failing probe is held to: the one of the last path observed. */
  ghost function ErrorDeadline(env: Environment, cfg: HealthConfig, n: nat): nat {
    if n == 0 then cfg.healthTimeout
    else
      match env.reply(n - 1)
      case Answered(RunningNoHealthcheck) => cfg.gracePeriod
      case Answered(HealthStarting) => cfg.healthTimeout
      case Answered(HealthUnhealthy) => cfg.healthTimeout
      case _ => ErrorDeadline(env, cfg, n - 1)
  }

  /** Does the `n`-th poll prove the container fit to keep? */
  predicate ProvesHealthy(env: Environment, cfg: HealthConfig, n: nat) {
    || env.reply(n) == Answered(HealthHealthy)
    || (env.reply(n) == Answered(RunningNoHealthcheck) && env.elapsed(n) >= cfg.gracePeriod)
  }

  predicate ShowsExit(env: Environment, n: nat) {
    env.reply(n).Answered? && env.reply(n).state.Exited?
  }

  /** Is the budget of what the `n`-th poll shows used up? */
  ghost predicate RunsOut(env: Environment, cfg: HealthConfig, n: nat) {
    match env.reply(n)
    case Answered(HealthStarting) => env.elapsed(n) >= cfg.healthTimeout
    case Answered(HealthUnhealthy) => env.elapsed(n) >= cfg.healthTimeout
    case ProbeFailed => env.elapsed(n) >= ErrorDeadline(env, cfg, n)
    case _ => false
  }

  ghost predicate Undecided(env: Environment, cfg: HealthConfig, n: nat) {
    !ProvesHealthy(env, cfg, n) && !ShowsExit(env, n) && !RunsOut(env, cfg, n)
  }

  /** The gate's answer after `polls` probes: the last one alone decides, and
      none before it could have. */
  ghost predicate HealthVerdict(env: Environment, cfg: HealthConfig, outcome: HealthOutcome, polls: nat) {
    && polls >= 1
    && (outcome == Healthy <==> ProvesHealthy(env, cfg, polls - 1))
    && (outcome == Crashed <==> ShowsExit(env, polls - 1))
    && (outcome == Timeout <==> RunsOut(env, cfg, polls - 1))
    && forall n: nat :: n < polls - 1 ==> Undecided(env, cfg, n)
  }

  /** An environment leaves the gate one answer. */
  lemma HealthVerdictUnique(env: Environment, cfg: HealthConfig, a: HealthOutcome, p: nat, b: HealthOutcome, q: nat)
    requires HealthVerdict(env, cfg, a, p) && HealthVerdict(env, cfg, b, q)
    ensures a == b && p == q
  {
    assert p < q ==> Undecided(env, cfg, p - 1);
    assert q < p ==> Undecided(env, cfg, q - 1);
  }

  /** The one-shot gate's answer: an exit is reported when it is seen, and giving
      up means that no poll saw one. */
  ghost predicate ExitVerdict(env: Environment, timeout: nat, outcome: ExitOutcome, polls: nat) {
    && polls >= 1
    && (forall code :: outcome == Finished(code) <==> env.reply(polls - 1) == Answered(Exited(code)))
    && (outcome == TimedOut ==> env.elapsed(polls - 1) >= timeout && !ShowsExit(env, polls - 1))
    && forall n: nat :: n < polls - 1 ==> !ShowsExit(env, n) && env.elapsed(n) < timeout
  }

  lemma ExitVerdictUnique(env: Environment, timeout: nat, a: ExitOutcome, p: nat, b: ExitOutcome, q: nat)
    requires ExitVerdict(env, timeout, a, p) && ExitVerdict(env, timeout, b, q)
    ensures a == b && p == q
  {
    ExitShown(env, timeout, a, p);
    ExitShown(env, timeout, b, q);
  }

  lemma ExitShown(env: Environment, timeout: nat, outcome: ExitOutcome, polls: nat)
    requires ExitVerdict(env, timeout, outcome, polls)
    ensures outcome.Finished? <==> ShowsExit(env, polls - 1)
    ensures outcome.Finished? ==> env.reply(polls - 1) == Answered(Exited(outcome.exitCode))
  {
    if ShowsExit(env, polls - 1) {
      assert outcome == Finished(env.reply(polls - 1).state.exitCode);
    }
  }

  /** A container that is seen to have exited at once passes the one gate and
      fails the other. */
  lemma ExitFailsHealthGate(env: Environment, cfg: HealthConfig, timeout: nat, code: int)
    requires env.reply(0) == Answered(Exited(code))
    ensures ExitVerdict(env, timeout, Finished(code), 1) && HealthVerdict(env, cfg, Crashed, 1)
  {
  }

  /** The new probes since `before` are `polls` looks at `x`, the last of them
      when the history had `at` entries. */
  ghost predicate Looked(before: seq<Probing>, after: seq<Probing>, x: Id, polls: nat, at: nat) {
    && |after| == |before| + polls && after[..|before|] == before
    && forall i :: |before| <= i < |after| ==> after[i] == Probing(x, at)
  }

  method Look(d: Daemon, x: Id, env: Environment, n: nat) returns (reply: Reply, elapsed: nat)
    modifies d`probes
    ensures d.probes == old(d.probes) + [Probing(x, |d.history|)]
    ensures reply == env.reply(n) && elapsed == env.elapsed(n)
  {
    d.probes := d.probes + [Probing(x, |d.history|)];
    return env.reply(n), env.elapsed(n);
  }

  /** Polls until a verdict; `polls` counts the probes made. */
  method WaitForHealth(d: Daemon, x: Id, env: Environment, cfg: HealthConfig, ghost step: nat)
    returns (outcome: HealthOutcome, polls: nat)
    requires Advances(env, step)
    modifies d`probes
    ensures 1 <= polls <= CeilDiv(Max(cfg.healthTimeout, cfg.gracePeriod), step) + 1
    ensures HealthVerdict(env, cfg, outcome, polls)
    ensures Looked(old(d.probes), d.probes, x, polls, |d.history|)
  {
    hide Undecided, CeilDiv;
    ghost var limit := Max(cfg.healthTimeout, cfg.gracePeriod);
    var errorDeadline := cfg.healthTimeout;
    polls := 0;
    while true
      invariant errorDeadline == ErrorDeadline(env, cfg, polls)
      invariant errorDeadline in {cfg.healthTimeout, cfg.gracePeriod}
      invariant polls <= CeilDiv(limit, step)
      invariant forall n: nat :: n < polls ==> Undecided(env, cfg, n)
      invariant Looked(old(d.probes), d.probes, x, polls, |d.history|)
      decreases limit - env.elapsed(polls)
    {
      var reply, elapsed := Look(d, x, env, polls);
      polls := polls + 1;
      match reply {
        case Answered(HealthHealthy) =>
          return Healthy, polls;
        case Answered(Exited(_)) =>
          return Crashed, polls;
        case Answered(RunningNoHealthcheck) =>
          errorDeadline := cfg.gracePeriod;
          if elapsed >= cfg.gracePeriod {
            return Healthy, polls;
          }
        case Answered(_) =>
          errorDeadline := cfg.healthTimeout;
          if elapsed >= cfg.healthTimeout {
            return Timeout, polls;
          }
        case ProbeFailed =>
          if elapsed >= errorDeadline {
            return Timeout, polls;
          }
      }
      StillUndecided(env, cfg, polls - 1);
      PollBound(env, step, polls - 1, limit);
      NextPoll(env, step, polls - 1);
    }
  }

  lemma StillUndecided(env: Environment, cfg: HealthConfig, n: nat)
    requires match env.reply(n)
             case Answered(HealthHealthy) => false
             case Answered(Exited(_)) => false
             case Answered(RunningNoHealthcheck) => env.elapsed(n) < cfg.gracePeriod
             case Answered(_) => env.elapsed(n) < cfg.healthTimeout
             case ProbeFailed => env.elapsed(n) < ErrorDeadline(env, cfg, n)
    ensures Undecided(env, cfg, n)
  {
  }

  lemma NextPoll(env: Environment, step: nat, n: nat)
    requires Advances(env, step)
    ensures env.elapsed(n + 1) > env.elapsed(n)
  {
    assert env.elapsed(n + 1) >= env.elapsed(n) + step;
  }

  /** Polls until the one-shot stops. */
  method WaitForExit(d: Daemon, x: Id, env: Environment, timeout: nat, ghost step: nat)
    returns (outcome: ExitOutcome, polls: nat)
    requires Advances(env, step)
    modifies d`probes
    ensures 1 <= polls <= CeilDiv(timeout, step) + 1
    ensures ExitVerdict(env, timeout, outcome, polls)
    ensures Looked(old(d.probes), d.probes, x, polls, |d.history|)
  {
    hide CeilDiv;
    polls := 0;
    while true
      invariant polls <= CeilDiv(timeout, step)
      invariant forall n: nat :: n < polls ==> !ShowsExit(env, n) && env.elapsed(n) < timeout
      invariant Looked(old(d.probes), d.probes, x, polls, |d.history|)
      decreases timeout - env.elapsed(polls)
    {
      var reply, elapsed := Look(d, x, env, polls);
      polls := polls + 1;
      match reply {
        case Answered(Exited(code)) =>
          return Finished(code), polls;
        case _ =>
      }
      if elapsed >= timeout {
        return TimedOut, polls;
      }
      PollBound(env, step, polls - 1, timeout);
      NextPoll(env, step, polls - 1);
    }
  }
}
