/** What the scheduler may do, and when (src/scheduler.rs): the memory it keeps
    across ticks as a function of the events so far, the rule each event obeys,
    and what follows for whole runs. Times are in seconds, fires in minutes. */
module Schedule {
  import opened Wrappers
  import opened Labels
  import Cron
  import Registry

  datatype ContainerState = ContainerState(
    lastChecked: Option<nat>,
    nextFire: Option<nat>,
    cron: Option<Cron.CronExpr>,
    lastNotified: Option<string>)

  predicate IsCronMode(mode: Mode) { mode == Nightly || mode == Weekly || mode == Monthly }

  predicate IsPolled(mode: Mode) { mode == Live || mode == Watch }

  function FireAfter(cron: Option<Cron.CronExpr>, now: nat): Option<nat> {
    if cron.None? then None else Cron.NextFire(cron.value, now)
  }

  predicate Due(mode: Mode, s: ContainerState, now: nat, poll: nat) {
    match mode
    case Live => s.lastChecked.None? || now >= s.lastChecked.value + poll
    case Watch => s.lastChecked.None? || now >= s.lastChecked.value + poll
    case Off => false
    case _ => s.nextFire.Some? && now >= 60 * s.nextFire.value
  }

  /** `handled` are the containers a rollout of this tick has claimed; `pending`
      is the update the last probe called for. */
  datatype Memory = Memory(
    states: map<string, ContainerState>,
    failed: map<string, string>,
    handled: set<string>,
    pending: Option<(string, string)>)

  datatype Event =
    | TickStarted
    | Seeded(name: string, cron: Option<Cron.CronExpr>, now: nat)
    | InspectFailed(name: string, mode: Mode, now: nat)
    | Checked(name: string, mode: Mode, now: nat)
    | Probed(name: string, ref: Registry.ImageRef, latest: string, available: Option<bool>)
    | Announced(name: string, digest: string)
    | Rejected(name: string, digest: string, containers: seq<string>)
    | Landed(name: string, digest: string, containers: seq<string>)
    | Claimed(names: seq<string>)
    | Pruned(live: set<string>)

  function WithFailed(failed: map<string, string>, containers: seq<string>, digest: string): (r: map<string, string>)
    ensures forall c :: c in r <==> c in failed || c in containers
    ensures forall c :: c in r ==> r[c] == if c in containers then digest else failed[c]
  {
    if containers == [] then failed
    else WithFailed(failed, containers[..|containers| - 1], digest)[containers[|containers| - 1] := digest]
  }

  function Without(failed: map<string, string>, containers: seq<string>): (r: map<string, string>)
    ensures forall c :: c in r <==> c in failed && c !in containers
    ensures forall c :: c in r ==> r[c] == failed[c]
  {
    map c | c in failed && c !in containers :: failed[c]
  }

  function Kept<T>(m: map<string, T>, live: set<string>): map<string, T> {
    map c | c in m && c in live :: m[c]
  }

  function Names(containers: seq<string>): set<string> { set c | c in containers }

  /** The memory after one more event. */
  function Next(m: Memory, e: Event): Memory {
    var n := m.(pending := None);
    match e
    case TickStarted => n.(handled := {})
    case Seeded(name, cron, now) =>
      n.(states := m.states[name := ContainerState(None, FireAfter(cron, now), cron, None)])
    case InspectFailed(name, mode, now) =>
      if name in m.states && IsPolled(mode)
      then n.(states := m.states[name := m.states[name].(lastChecked := Some(now))]) else n
    case Checked(name, mode, now) =>
      if name !in m.states then n
      else if IsPolled(mode) then n.(states := m.states[name := m.states[name].(lastChecked := Some(now))])
      else n.(states := m.states[name := m.states[name].(nextFire := FireAfter(m.states[name].cron, now))])
    case Probed(name, _, latest, available) =>
      n.(pending := if available == Some(true) then Some((name, latest)) else None)
    case Announced(name, digest) =>
      if name in m.states then n.(states := m.states[name := m.states[name].(lastNotified := Some(digest))]) else n
    case Rejected(_, digest, containers) => n.(failed := WithFailed(m.failed, containers, digest))
    case Landed(_, _, containers) => n.(failed := Without(m.failed, containers))
    case Claimed(names) => n.(handled := m.handled + Names(names))
    case Pruned(live) => n.(states := Kept(m.states, live), failed := Kept(m.failed, live))
  }

  /** The rule for each event. */
  predicate Allowed(m: Memory, e: Event, poll: nat) {
    match e
    case Seeded(name, _, _) => name !in m.states
    case InspectFailed(name, mode, now) =>
      name in m.states && name !in m.handled && Due(mode, m.states[name], now, poll)
    case Checked(name, mode, now) =>
      name in m.states && name !in m.handled && Due(mode, m.states[name], now, poll)
    case Announced(name, digest) => name in m.states && m.states[name].lastNotified != Some(digest)
    case Rejected(name, digest, containers) => MaySettle(m, name, digest, containers)
    case Landed(name, digest, containers) => MaySettle(m, name, digest, containers)
    case _ => true
  }

  /** An update is tried for a digest the probe has just called for and that has
      not failed before; the trigger is one of the containers it is about. */
  predicate MaySettle(m: Memory, name: string, digest: string, containers: seq<string>) {
    && m.pending == Some((name, digest))
    && !(name in m.failed && m.failed[name] == digest)
    && name in containers
  }

  const EMPTY: Memory := Memory(map[], map[], {}, None)

  function After(trace: seq<Event>): Memory {
    if trace == [] then EMPTY else Next(After(trace[..|trace| - 1]), trace[|trace| - 1])
  }

  ghost predicate Legal(trace: seq<Event>, poll: nat) {
    forall i :: 0 <= i < |trace| ==> Allowed(After(trace[..i]), trace[i], poll)
  }

  lemma AfterNext(trace: seq<Event>, i: nat)
    requires i < |trace|
    ensures After(trace[..i + 1]) == Next(After(trace[..i]), trace[i])
  {
    assert trace[..i + 1][..i] == trace[..i];
  }

  lemma LegalPush(trace: seq<Event>, e: Event, poll: nat)
    requires Legal(trace, poll) && Allowed(After(trace), e, poll)
    ensures Legal(trace + [e], poll) && After(trace + [e]) == Next(After(trace), e)
  {
    var longer := trace + [e];
    assert longer[..|trace|] == trace;
    forall i | 0 <= i < |longer|
      ensures Allowed(After(longer[..i]), longer[i], poll)
    {
      if i < |trace| { assert longer[..i] == trace[..i]; }
    }
  }

  // ----- no endless update loops -----

  /** `e` ends an update that `c` triggered. */
  predicate Settles(e: Event, c: string) { (e.Rejected? || e.Landed?) && e.name == c }

  predicate Covers(e: Event, c: string) { (e.Rejected? || e.Landed?) && c in e.containers }

  predicate Drops(e: Event, c: string) { e.Pruned? && c !in e.live }

  /** The last word on `c` since it was last dropped from the listing is that an
      update to `digest` was rejected. */
  ghost predicate StandsRejected(trace: seq<Event>, c: string, digest: string) {
    exists i :: RejectedAt(trace, c, digest, i)
  }

  ghost predicate RejectedAt(trace: seq<Event>, c: string, digest: string, i: int) {
    && 0 <= i < |trace| && trace[i].Rejected? && Covers(trace[i], c) && trace[i].digest == digest
    && forall j :: i < j < |trace| ==> !Covers(trace[j], c) && !Drops(trace[j], c)
  }

  predicate OnRecord(m: Memory, c: string, digest: string) { c in m.failed && m.failed[c] == digest }

  /** What is on record as failed, read off the events alone. */
  lemma {:induction false} FailedMeans(trace: seq<Event>, c: string, digest: string)
    ensures OnRecord(After(trace), c, digest) <==> StandsRejected(trace, c, digest)
    decreases |trace|
  {
    hide Next, After, OnRecord, StandsRejected;
    if trace == [] {
      NothingRejected(c, digest);
    } else {
      var front, e := trace[..|trace| - 1], trace[|trace| - 1];
      FailedMeans(front, c, digest);
      AfterNext(trace, |trace| - 1);
      assert trace[..|trace|] == trace;
      RecordStep(After(front), e, c, digest);
      RejectedStep(front, e, c, digest);
      assert front + [e] == trace;
    }
  }

  lemma NothingRejected(c: string, digest: string)
    ensures !OnRecord(After([]), c, digest) && !StandsRejected([], c, digest)
  {
  }

  lemma RecordStep(m: Memory, e: Event, c: string, digest: string)
    ensures OnRecord(Next(m, e), c, digest) <==>
            (e.Rejected? && Covers(e, c) && e.digest == digest)
            || (!Covers(e, c) && !Drops(e, c) && OnRecord(m, c, digest))
  {
  }

  lemma RejectedStep(front: seq<Event>, e: Event, c: string, digest: string)
    ensures StandsRejected(front + [e], c, digest) <==>
            (e.Rejected? && Covers(e, c) && e.digest == digest)
            || (!Covers(e, c) && !Drops(e, c) && StandsRejected(front, c, digest))
  {
    var longer := front + [e];
    assert forall i :: 0 <= i < |front| ==> longer[i] == front[i];
    if e.Rejected? && Covers(e, c) && e.digest == digest {
      assert RejectedAt(longer, c, digest, |front|);
    }
    if StandsRejected(front, c, digest) && !Covers(e, c) && !Drops(e, c) {
      var i :| RejectedAt(front, c, digest, i);
      assert RejectedAt(longer, c, digest, i);
    }
    if StandsRejected(longer, c, digest) && !(e.Rejected? && Covers(e, c) && e.digest == digest) {
      var i :| RejectedAt(longer, c, digest, i);
      assert longer[|front|] == e;
      assert i < |front| && RejectedAt(front, c, digest, i);
    }
  }

  /** A called-for update is withheld exactly while the last word on its trigger
      is that this digest was rejected: an update that landed, or a sibling's that
      was rejected at another digest, opens the way again. */
  lemma RetriedIff(trace: seq<Event>, poll: nat, c: string, digest: string, containers: seq<string>)
    requires After(trace).pending == Some((c, digest)) && c in containers
    ensures Allowed(After(trace), Rejected(c, digest, containers), poll) <==> !StandsRejected(trace, c, digest)
    ensures Allowed(After(trace), Landed(c, digest, containers), poll) <==> !StandsRejected(trace, c, digest)
  {
    hide After, StandsRejected;
    FailedMeans(trace, c, digest);
  }

  /** From index `since` on upstream stays at `digest`, as far as `c` is
      concerned. */
  ghost predicate OneUpstream(trace: seq<Event>, since: nat, c: string, digest: string) {
    forall i :: since <= i < |trace| && Covers(trace[i], c) ==> trace[i].digest == digest
  }

  ghost predicate StaysListed(trace: seq<Event>, since: nat, c: string) {
    forall i :: since <= i < |trace| ==> !Drops(trace[i], c)
  }

  ghost predicate LandedOn(trace: seq<Event>, since: nat, c: string) {
    exists i :: since <= i < |trace| && trace[i].Landed? && Covers(trace[i], c)
  }

  /** A container an update has landed on since is not found behind afterwards. */
  ghost predicate LandingHolds(trace: seq<Event>, since: nat, c: string) {
    forall j :: since <= j < |trace| && trace[j].Probed? && trace[j].name == c && LandedOn(trace[..j], since, c) ==>
      trace[j].available != Some(true)
  }

  /** From index `since` on at most one update that `c` triggers is settled. */
  ghost predicate Calm(trace: seq<Event>, since: nat, c: string) {
    forall p, q :: since <= p < q < |trace| ==> !(Settles(trace[p], c) && Settles(trace[q], c))
  }

  lemma SettlesWasCalledFor(trace: seq<Event>, poll: nat, c: string, q: nat)
    requires Legal(trace, poll) && q < |trace| && Settles(trace[q], c)
    ensures 0 < q && trace[q - 1].Probed? && trace[q - 1].name == c && trace[q - 1].available == Some(true)
    ensures trace[q - 1].latest == trace[q].digest
    ensures !OnRecord(After(trace[..q]), c, trace[q].digest) && Covers(trace[q], c)
  {
    hide Next, After, Due;
    assert Allowed(After(trace[..q]), trace[q], poll);
    PendingIsProbed(trace, q, c, trace[q].digest);
  }

  lemma PendingIsProbed(trace: seq<Event>, q: nat, c: string, digest: string)
    requires q < |trace| && After(trace[..q]).pending == Some((c, digest))
    ensures 0 < q && trace[q - 1].Probed? && trace[q - 1].name == c && trace[q - 1].latest == digest
    ensures trace[q - 1].available == Some(true)
  {
    if q > 0 { AfterNext(trace, q - 1); }
  }

  /** From a rejection on, its digest is the last word, or an update has landed. */
  lemma {:induction false} RejectionStands(trace: seq<Event>, since: nat, c: string, digest: string, p: nat, q: nat)
    requires since <= p < q <= |trace| && Covers(trace[p], c) && trace[p].Rejected?
    requires OneUpstream(trace, since, c, digest) && StaysListed(trace, since, c)
    ensures StandsRejected(trace[..q], c, digest) || LandedOn(trace[..q], since, c)
    decreases q
  {
    hide StandsRejected;
    assert trace[..q] == trace[..q - 1] + [trace[q - 1]];
    RejectedStep(trace[..q - 1], trace[q - 1], c, digest);
    if q - 1 > p {
      RejectionStands(trace, since, c, digest, p, q - 1);
      if LandedOn(trace[..q - 1], since, c) { LandedStays(trace, since, c, q - 1, q); }
    }
    if trace[q - 1].Landed? && Covers(trace[q - 1], c) { assert trace[..q][q - 1] == trace[q - 1]; }
  }

  lemma LandedStays(trace: seq<Event>, since: nat, c: string, p: nat, q: nat)
    requires p <= q <= |trace| && LandedOn(trace[..p], since, c)
    ensures LandedOn(trace[..q], since, c)
  {
    var i :| since <= i < p && trace[..p][i].Landed? && Covers(trace[..p][i], c);
    assert trace[..q][i] == trace[..p][i];
  }

  /** With upstream at one digest from some point of a trace on, a container that
      stays listed from there triggers at most one update that ends Landed or
      Rejected, over any number of ticks, if a landing holds. When that is so is
      settled in `Quiet`. */
  lemma OneSettle(trace: seq<Event>, poll: nat, since: nat, c: string, digest: string)
    requires Legal(trace, poll)
    requires OneUpstream(trace, since, c, digest) && StaysListed(trace, since, c) && LandingHolds(trace, since, c)
    ensures Calm(trace, since, c)
  {
    hide Legal, After, StandsRejected, OneUpstream, StaysListed, LandedOn;
    forall p: nat, q: nat | since <= p < q < |trace| && Settles(trace[p], c)
      ensures !Settles(trace[q], c)
    {
      if Settles(trace[q], c) {
        SettlesWasCalledFor(trace, poll, c, p);
        SettlesWasCalledFor(trace, poll, c, q);
        DigestIs(trace, since, c, digest, q);
        assert q - 1 != p;
        if trace[p].Landed? {
          LandedAt(trace, since, c, p, q - 1);
        } else {
          RejectionStands(trace, since, c, digest, p, q);
          FailedMeans(trace[..q], c, digest);
          LandedBefore(trace, since, c, q);
        }
      }
    }
  }

  lemma LandedAt(trace: seq<Event>, since: nat, c: string, p: nat, q: nat)
    requires since <= p < q <= |trace| && trace[p].Landed? && Covers(trace[p], c)
    ensures LandedOn(trace[..q], since, c)
  {
    assert trace[..q][p] == trace[p];
  }

  /** A probe lands nothing. */
  lemma LandedBefore(trace: seq<Event>, since: nat, c: string, q: nat)
    requires 0 < q <= |trace| && trace[q - 1].Probed? && LandedOn(trace[..q], since, c)
    ensures LandedOn(trace[..q - 1], since, c)
  {
    var i :| since <= i < q && trace[..q][i].Landed? && Covers(trace[..q][i], c);
    assert trace[..q - 1][i] == trace[..q][i];
  }

  lemma DigestIs(trace: seq<Event>, since: nat, c: string, digest: string, i: nat)
    requires OneUpstream(trace, since, c, digest) && since <= i < |trace| && Covers(trace[i], c)
    ensures trace[i].digest == digest
  {
  }

  // ----- where one upstream is not enough of an assumption -----

  /** The turn of a polled container whose update is rejected, with whatever
      else the rollout has tried. */
  function RejectedTurn(name: string, now: nat, ref: Registry.ImageRef, digest: string, containers: seq<string>)
    : seq<Event>
  {
    [Checked(name, Live, now), Probed(name, ref, digest, Some(true)), Rejected(name, digest, containers),
     Claimed(containers)]
  }

  /** A tick in which `name` is looked at, for the first time or again, and
      everybody else has been claimed by its rollout. */
  function RejectedTick(seeded: bool, name: string, now: nat, ref: Registry.ImageRef, digest: string,
                        containers: seq<string>): seq<Event> {
    TickStart(seeded, name, now) + RejectedTurn(name, now, ref, digest, containers) + [Pruned(Names(containers))]
  }

  function TickStart(seeded: bool, name: string, now: nat): seq<Event> {
    if seeded then [TickStarted, Seeded(name, None, now)] else [TickStarted]
  }

  /** Two members of one rollout on two references: each one's rejection takes
      the other's off the record, so both digests are tried again and again. */
  lemma SiblingReopens(poll: nat, c: string, sibling: string, ref: Registry.ImageRef, other: Registry.ImageRef,
                       first: string, second: string, now: nat)
    requires c != sibling && first != second && now >= poll
    ensures
      var both := [c, sibling];
      var t1 := RejectedTick(true, c, 0, ref, first, both);
      var t2 := t1 + RejectedTick(true, sibling, 0, other, second, both);
      var t3 := t2 + RejectedTick(false, c, now, ref, first, both);
      && Legal(t3, poll) && StaysListed(t3, 0, c) && LandingHolds(t3, 0, c)
      && StandsRejected(t1, c, first) && !StandsRejected(t2, c, first) && !Calm(t3, 0, c)
      && StandsRejected(t2, sibling, second) && !StandsRejected(t3, sibling, second)
  {
    hide Legal, After, Next, StandsRejected, StaysListed, LandingHolds, RejectedTick, Calm;
    var both := [c, sibling];
    assert both[1] == sibling;
    NothingIsLegal(poll);
    var t1 := RejectedTick(true, c, 0, ref, first, both);
    assert [] + t1 == t1;
    TickRuns([], poll, true, c, 0, ref, first, both);
    var t2 := t1 + RejectedTick(true, sibling, 0, other, second, both);
    TickRuns(t1, poll, true, sibling, 0, other, second, both);
    TickRuns(t2, poll, false, c, now, ref, first, both);
    FailedMeans(t1, c, first);
    FailedMeans(t2, c, first);
    FailedMeans(t2, sibling, second);
    FailedMeans(t2 + RejectedTick(false, c, now, ref, first, both), sibling, second);
    RefusalsOn([], true, c, 0, ref, first, both);
    RefusalsOn(t1, true, sibling, 0, other, second, both);
    RefusalsOn(t2, false, c, now, ref, first, both);
    OnlyRejections(t2 + RejectedTick(false, c, now, ref, first, both), both, c);
    TwiceSettled(t1, t2, c, now, ref, first, both);
  }

  lemma NothingIsLegal(poll: nat)
    ensures Legal([], poll) && After([]) == EMPTY
  {
  }

  /** The memory after such a tick. */
  function Refused(m: Memory, name: string, state: ContainerState, digest: string, containers: seq<string>): Memory {
    Memory(Kept(m.states[name := state], Names(containers)),
           Kept(WithFailed(m.failed, containers, digest), Names(containers)), Names(containers), None)
  }

  lemma TickRuns(trace: seq<Event>, poll: nat, seeded: bool, name: string, now: nat, ref: Registry.ImageRef,
                 digest: string, containers: seq<string>)
    requires Legal(trace, poll) && name in containers && !OnRecord(After(trace), name, digest)
    requires seeded <==> name !in After(trace).states
    requires !seeded ==> Due(Live, After(trace).states[name], now, poll)
    ensures
      var t, m := trace + RejectedTick(seeded, name, now, ref, digest, containers), After(trace);
      var state := StateFor(seeded, m, name).(lastChecked := Some(now));
      Legal(t, poll) && After(t) == Refused(m, name, state, digest, containers)
  {
    hide Legal, After, Next, Allowed, Due, RejectedTurn, TickStart, WithFailed, Kept;
    var start, turn := TickStart(seeded, name, now), RejectedTurn(name, now, ref, digest, containers);
    var end := Pruned(Names(containers));
    StartRuns(trace, poll, seeded, name, now);
    TurnRuns(trace + start, poll, name, now, ref, digest, containers);
    LegalPush(trace + start + turn, end, poll);
    EndRuns(After(trace + start + turn), containers, poll);
    SameTwice(After(trace).states, name, StateFor(seeded, After(trace), name), now);
    assert trace + start + turn + [end] == trace + (start + turn + [end]);
  }

  function StateFor(seeded: bool, m: Memory, name: string): ContainerState
    requires !seeded ==> name in m.states
  {
    if seeded then ContainerState(None, None, None, None) else m.states[name]
  }

  lemma SameTwice(states: map<string, ContainerState>, name: string, state: ContainerState, now: nat)
    ensures states[name := state][name := state.(lastChecked := Some(now))] ==
            states[name := state.(lastChecked := Some(now))]
  {
  }

  lemma StartRuns(trace: seq<Event>, poll: nat, seeded: bool, name: string, now: nat)
    requires Legal(trace, poll) && (seeded <==> name !in After(trace).states)
    requires !seeded ==> Due(Live, After(trace).states[name], now, poll)
    ensures
      var t, m := trace + TickStart(seeded, name, now), After(trace);
      && Legal(t, poll)
      && After(t) == Memory(m.states[name := StateFor(seeded, m, name)], m.failed, {}, None)
      && Due(Live, After(t).states[name], now, poll)
  {
    hide Legal, After;
    LegalPush(trace, TickStarted, poll);
    if seeded {
      LegalPush(trace + [TickStarted], Seeded(name, None, now), poll);
      assert trace + [TickStarted] + [Seeded(name, None, now)] == trace + [TickStarted, Seeded(name, None, now)];
    }
  }

  lemma EndRuns(m: Memory, containers: seq<string>, poll: nat)
    ensures Allowed(m, Pruned(Names(containers)), poll)
    ensures Next(m, Pruned(Names(containers))) ==
            Memory(Kept(m.states, Names(containers)), Kept(m.failed, Names(containers)), m.handled, None)
  {
  }

  lemma TurnRuns(trace: seq<Event>, poll: nat, name: string, now: nat, ref: Registry.ImageRef, digest: string,
                 containers: seq<string>)
    requires Legal(trace, poll) && name in containers
    requires var m := After(trace);
             && name in m.states && name !in m.handled && Due(Live, m.states[name], now, poll)
             && !OnRecord(m, name, digest)
    ensures
      var t, m := trace + RejectedTurn(name, now, ref, digest, containers), After(trace);
      && Legal(t, poll)
      && After(t) == Memory(m.states[name := m.states[name].(lastChecked := Some(now))],
                            WithFailed(m.failed, containers, digest), m.handled + Names(containers), None)
  {
    hide Legal, After, WithFailed;
    var e1, e2 := Checked(name, Live, now), Probed(name, ref, digest, Some(true));
    var e3, e4 := Rejected(name, digest, containers), Claimed(containers);
    LegalPush(trace, e1, poll);
    LegalPush(trace + [e1], e2, poll);
    LegalPush(trace + [e1] + [e2], e3, poll);
    LegalPush(trace + [e1] + [e2] + [e3], e4, poll);
    assert trace + [e1] + [e2] + [e3] + [e4] == trace + [e1, e2, e3, e4];
  }

  /** Nothing lands, and everybody in `both` stays listed. */
  ghost predicate Refusals(trace: seq<Event>, both: seq<string>) {
    forall i :: 0 <= i < |trace| ==> !trace[i].Landed? && (trace[i].Pruned? ==> trace[i].live == Names(both))
  }

  lemma RefusalsOn(trace: seq<Event>, seeded: bool, name: string, now: nat, ref: Registry.ImageRef, digest: string,
                   both: seq<string>)
    ensures Refusals([], both)
    ensures Refusals(trace, both) ==> Refusals(trace + RejectedTick(seeded, name, now, ref, digest, both), both)
  {
    hide Names;
  }

  lemma OnlyRejections(trace: seq<Event>, both: seq<string>, c: string)
    requires Refusals(trace, both) && c in both
    ensures StaysListed(trace, 0, c) && LandingHolds(trace, 0, c)
  {
    assert c in Names(both);
  }

  lemma TwiceSettled(t1: seq<Event>, t2: seq<Event>, c: string, now: nat, ref: Registry.ImageRef, first: string,
                     both: seq<string>)
    requires t1 == RejectedTick(true, c, 0, ref, first, both) && Continued(t1, t2)
    ensures !Calm(t2 + RejectedTick(false, c, now, ref, first, both), 0, c)
  {
    var t3 := t2 + RejectedTick(false, c, now, ref, first, both);
    assert t3[4] == t2[4] == t1[4] && Settles(t3[4], c);
    assert t3[|t2| + 3] == RejectedTick(false, c, now, ref, first, both)[3] && Settles(t3[|t2| + 3], c);
  }

  predicate Continued(t1: seq<Event>, t2: seq<Event>) { |t1| <= |t2| && t2[..|t1|] == t1 }

  // ----- cadence -----

  /** `name` is neither forgotten nor seen afresh between `p` and `q`. */
  ghost predicate Steady(trace: seq<Event>, p: nat, q: nat, name: string) {
    forall i :: p < i < q && i < |trace| ==>
      !(trace[i].Seeded? && trace[i].name == name) && (trace[i].Pruned? ==> name in trace[i].live)
  }

  predicate IsPoll(e: Event, name: string) {
    (e.Checked? || e.InspectFailed?) && e.name == name && IsPolled(e.mode)
  }

  predicate IsFire(e: Event, name: string) { e.Checked? && e.name == name && IsCronMode(e.mode) }

  predicate IsAnnouncement(e: Event, name: string) { e.Announced? && e.name == name }

  /** What one event leaves of a known container's state. */
  lemma StateStep(m: Memory, e: Event, name: string)
    requires name in m.states
    requires !(e.Seeded? && e.name == name) && (e.Pruned? ==> name in e.live)
    ensures var n := Next(m, e);
            && name in n.states
            && n.states[name].cron == m.states[name].cron
            && (!IsPoll(e, name) ==> n.states[name].lastChecked == m.states[name].lastChecked)
            && (!IsFire(e, name) && !(e.Checked? && e.mode == Off) ==>
                  n.states[name].nextFire == m.states[name].nextFire)
            && (!IsAnnouncement(e, name) ==> n.states[name].lastNotified == m.states[name].lastNotified)
  {
  }

  lemma NeverOff(trace: seq<Event>, poll: nat, i: nat)
    requires Legal(trace, poll) && i < |trace|
    ensures trace[i].Checked? || trace[i].InspectFailed? ==>
              && trace[i].mode != Off && trace[i].name in After(trace[..i]).states
              && trace[i].name !in After(trace[..i]).handled
              && Due(trace[i].mode, After(trace[..i]).states[trace[i].name], trace[i].now, poll)
  {
    hide After;
    assert Allowed(After(trace[..i]), trace[i], poll);
  }

  /** The state as event `p` set it, while nothing of its kind follows. */
  lemma {:induction false} FireHolds(trace: seq<Event>, poll: nat, name: string, p: nat, q: nat)
    requires Legal(trace, poll) && p < q <= |trace| && Steady(trace, p, q, name)
    requires name in After(trace[..p + 1]).states
    requires forall i :: p < i < q ==> !IsFire(trace[i], name)
    ensures name in After(trace[..q]).states
    ensures var a, b := After(trace[..p + 1]).states[name], After(trace[..q]).states[name];
            b.nextFire == a.nextFire && b.cron == a.cron
    decreases q
  {
    hide Next, After, Legal, Due;
    if q > p + 1 {
      FireHolds(trace, poll, name, p, q - 1);
      AfterNext(trace, q - 1);
      NeverOff(trace, poll, q - 1);
      StateStep(After(trace[..q - 1]), trace[q - 1], name);
    }
  }

  lemma {:induction false} PollHolds(trace: seq<Event>, poll: nat, name: string, p: nat, q: nat)
    requires p < q <= |trace| && Steady(trace, p, q, name)
    requires name in After(trace[..p + 1]).states
    requires forall i :: p < i < q ==> !IsPoll(trace[i], name)
    ensures name in After(trace[..q]).states
    ensures After(trace[..q]).states[name].lastChecked == After(trace[..p + 1]).states[name].lastChecked
    decreases q
  {
    hide Next, After;
    if q > p + 1 {
      PollHolds(trace, poll, name, p, q - 1);
      AfterNext(trace, q - 1);
      StateStep(After(trace[..q - 1]), trace[q - 1], name);
    }
  }

  lemma {:induction false} AnnouncementHolds(trace: seq<Event>, name: string, p: nat, q: nat)
    requires p < q <= |trace| && Steady(trace, p, q, name)
    requires name in After(trace[..p + 1]).states
    requires forall i :: p < i < q ==> !IsAnnouncement(trace[i], name)
    ensures name in After(trace[..q]).states
    ensures After(trace[..q]).states[name].lastNotified == After(trace[..p + 1]).states[name].lastNotified
    decreases q
  {
    hide Next, After;
    if q > p + 1 {
      AnnouncementHolds(trace, name, p, q - 1);
      AfterNext(trace, q - 1);
      StateStep(After(trace[..q - 1]), trace[q - 1], name);
    }
  }

  /** `p` is where the schedule was last set: the seeding or the fire before. */
  predicate SetsSchedule(e: Event, name: string) { (e.Seeded? && e.name == name) || IsFire(e, name) }

  /** Each fire uses up the earliest matching minute after the one before it, or
      after the seeding, and that minute has come. So a window missed by any
      number of ticks is made up for once, and no minute is fired for twice. */
  lemma CronCadence(trace: seq<Event>, poll: nat, name: string, p: nat, q: nat)
    requires Legal(trace, poll) && p < q < |trace| && Steady(trace, p, q, name)
    requires SetsSchedule(trace[p], name) && IsFire(trace[q], name)
    requires forall i :: p < i < q ==> !IsFire(trace[i], name)
    ensures name in After(trace[..p + 1]).states && After(trace[..p + 1]).states[name].cron.Some?
    ensures var e, since := After(trace[..p + 1]).states[name].cron.value, trace[p].now;
            exists f: nat ::
              && since < 60 * f <= trace[q].now && Cron.MatchesAt(e, f)
              && forall t: nat :: since < 60 * t && t < f ==> !Cron.MatchesAt(e, t)
  {
    hide Legal, After, Cron.NextFire, Cron.MatchesAt;
    ScheduleSet(trace, poll, name, p);
    FireHolds(trace, poll, name, p, q);
    NeverOff(trace, poll, q);
    Cron.NextFireIsLeast(After(trace[..p + 1]).states[name].cron.value, trace[p].now);
  }

  lemma ScheduleSet(trace: seq<Event>, poll: nat, name: string, p: nat)
    requires Legal(trace, poll) && p < |trace| && SetsSchedule(trace[p], name)
    ensures name in After(trace[..p + 1]).states
    ensures var s := After(trace[..p + 1]).states[name]; s.nextFire == FireAfter(s.cron, trace[p].now)
  {
    hide Legal, After, FireAfter;
    AfterNext(trace, p);
    NeverOff(trace, poll, p);
  }

  /** Two polls of a container in a row, failed inspects included, are at least
      the poll interval apart. */
  lemma PollCadence(trace: seq<Event>, poll: nat, name: string, p: nat, q: nat)
    requires Legal(trace, poll) && p < q < |trace| && Steady(trace, p, q, name)
    requires IsPoll(trace[p], name) && IsPoll(trace[q], name)
    requires forall i :: p < i < q ==> !IsPoll(trace[i], name)
    ensures trace[q].now >= trace[p].now + poll
  {
    hide Legal, After;
    AfterNext(trace, p);
    NeverOff(trace, poll, p);
    PollHolds(trace, poll, name, p, q);
    NeverOff(trace, poll, q);
  }

  /** The same available digest is not announced twice in a row. */
  lemma AnnouncedOnce(trace: seq<Event>, poll: nat, name: string, p: nat, q: nat)
    requires Legal(trace, poll) && p < q < |trace| && Steady(trace, p, q, name)
    requires IsAnnouncement(trace[p], name) && IsAnnouncement(trace[q], name)
    requires forall i :: p < i < q ==> !IsAnnouncement(trace[i], name)
    ensures trace[q].digest != trace[p].digest
  {
    hide After, Due;
    AfterNext(trace, p);
    assert Allowed(After(trace[..p]), trace[p], poll);
    AnnouncementHolds(trace, name, p, q);
    assert Allowed(After(trace[..q]), trace[q], poll);
  }

  lemma {:induction false} HandledHolds(trace: seq<Event>, p: nat, q: nat, name: string)
    requires p < q <= |trace| && trace[p].Claimed? && name in trace[p].names
    requires forall i :: p < i < q ==> !trace[i].TickStarted?
    ensures name in After(trace[..q]).handled
    decreases q
  {
    hide After, WithFailed, Without, Kept;
    AfterNext(trace, q - 1);
    if q > p + 1 { HandledHolds(trace, p, q - 1, name); }
  }

  /** Within a tick, nothing a rollout has claimed is looked at again: neither a
      container it updated nor one it did not get to after an abort. */
  lemma ClaimedOncePerTick(trace: seq<Event>, poll: nat, name: string, p: nat, q: nat)
    requires Legal(trace, poll) && p < q < |trace| && trace[p].Claimed? && name in trace[p].names
    requires forall i :: p < i < q ==> !trace[i].TickStarted?
    ensures (trace[q].Checked? || trace[q].InspectFailed?) ==> trace[q].name != name
  {
    hide Legal, After, Due;
    HandledHolds(trace, p, q, name);
    NeverOff(trace, poll, q);
  }
}
