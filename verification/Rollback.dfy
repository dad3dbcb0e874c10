/** Undoing a failed update (src/rollback.rs). */
module Rollback {
  import opened Wrappers
  import opened Docker
  import opened Swap

  datatype RollbackReason = HealthTimeout | CrashedBeforeHealthy

  datatype RollbackEvent = RollbackEvent(
    container: string,
    reason: RollbackReason,
    oldImageRef: string,
    newImageRef: string,
    restoredFrom: string)

  /** A state on the way back: the archive `x` is there, under one of its two
      names, and under the original one only after the rejected container `y` is
      gone; nobody else is missing. */
  ghost predicate RollbackState(cs: Containers, s: Containers, x: Id, y: Id, name: string)
    requires x in cs && y in cs
  {
    && x in s && s[x].config == cs[x].config && s[x].imageId == cs[x].imageId
    && (s[x].name == cs[x].name || s[x].name == name)
    && (forall k :: k in cs && k != x && k != y ==> k in s && s[k] == cs[k])
    && (forall k :: k in s ==> k in cs)
    && (y in s ==> s[y].name == cs[y].name && s[x].name == cs[x].name)
    && (y in s ==> s[y].config == cs[y].config && s[y].imageId == cs[y].imageId)
  }

  ghost predicate RollbackRun(h0: seq<Containers>, h: seq<Containers>, cs: Containers, x: Id, y: Id, name: string)
    requires x in cs && y in cs
  {
    Continues(h0, h) && forall i :: |h0| <= i < |h| ==> RollbackState(cs, h[i], x, y, name)
  }

  lemma RollbackRunStep(h0: seq<Containers>, h: seq<Containers>, s: Containers, cs: Containers, x: Id, y: Id,
                        name: string)
    requires x in cs && y in cs && RollbackRun(h0, h, cs, x, y, name) && RollbackState(cs, s, x, y, name)
    ensures RollbackRun(h0, h + [s], cs, x, y, name)
  {
  }

  /** The end of a rollback: `y` is gone and `x` runs under the original name. */
  ghost predicate Restored(cs: Containers, s: Containers, x: Id, y: Id, name: string) {
    && x in cs && y in cs && x != y
    && s.Keys == cs.Keys - {y}
    && s[x].name == name && s[x].running
    && s[x].config == cs[x].config && s[x].imageId == cs[x].imageId
    && forall k :: k in s && k != x ==> s[k] == cs[k]
  }

  /** The first half: the rejected container is force-removed. */
  method DropRejected(d: Daemon, newId: Id, ghost x: Id, ghost name: string) returns (r: Result<(), DockerError>)
    requires d.Valid() && x in d.containers && newId in d.containers && x != newId
    requires d.containers[newId].name == name && !HoldsNamespace(d.containers, newId)
    modifies d`containers, d`history, d`faults
    ensures d.Valid() && d.faults >= old(d.faults)
    ensures RollbackRun(old(d.history), d.history, old(d.containers), x, newId, name)
    ensures RollbackState(old(d.containers), d.containers, x, newId, name)
    ensures r.Success? ==> Dropped(old(d.containers), d.containers, newId) && !NameTaken(d.containers, name)
    ensures r.Failure? ==> d.faults > old(d.faults)
  {
    hide IsFullId, WellNamed, UniqueNames, NamespacesOwned, ImagesKept, TagsServed, Resolve, RollbackState, RollbackRun,
      HoldsNamespace, NameTaken;
    ghost var cs, h0 := d.containers, d.history;
    ById(cs, d.issued, newId);
    Unchanged(cs, x, newId, name);
    var stopped := d.Stop(newId);
    ghost var cs1, h := d.containers, d.history;
    NewStopped(cs, cs1, x, newId, name);
    RollbackRunStep(h0, h0, cs1, cs, x, newId, name);
    ById(cs1, d.issued, newId);
    StillUnheld(cs, cs1, newId);
    r := d.Remove(newId, true);
    RollbackRunStep(h0, h, d.containers, cs, x, newId, name);
    if r.Success? { NameFreed(cs, d.containers, d.issued, newId); }
  }

  /** `y` is gone, and nothing else has changed. */
  ghost predicate Dropped(cs: Containers, s: Containers, y: Id) {
    y in cs && (s == cs - {y} || s == WithRunning(cs, y, false) - {y})
  }

  /** Force-removes the rejected container before the archive takes its name
      back, so no two containers ever claim it: without a fault only the final
      start can fail. */
  method RollBack(d: Daemon, originalName: string, newId: Id, oldName: string, oldImageRef: string, newImageRef: string,
                  reason: RollbackReason, ghost x: Id)
    returns (r: Result<RollbackEvent, DockerError>)
    requires d.Valid() && x in d.containers && newId in d.containers && x != newId
    requires d.containers[x].name == oldName && d.containers[newId].name == originalName
    requires !HoldsNamespace(d.containers, newId)
    modifies d`containers, d`history, d`faults, d`generation
    ensures d.Valid() && d.faults >= old(d.faults)
    ensures RollbackRun(old(d.history), d.history, old(d.containers), x, newId, originalName)
    ensures RollbackState(old(d.containers), d.containers, x, newId, originalName)
    ensures r.Success? ==>
              && Restored(old(d.containers), d.containers, x, newId, originalName)
              && r.value == RollbackEvent(originalName, reason, oldImageRef, newImageRef, oldName)
    ensures r.Failure? && d.faults == old(d.faults) ==>
              newId !in d.containers && d.containers[x].name == originalName
  {
    hide IsFullId, WellNamed, UniqueNames, NamespacesOwned, ImagesKept, TagsServed, Resolve, RollbackState, RollbackRun,
      Restored, HoldsNamespace, NameTaken, Daemon.Startable, Dropped;
    ghost var cs, h0 := d.containers, d.history;
    ByName(cs, d.issued, newId);
    var dropped := DropRejected(d, newId, x, originalName);
    if dropped.Failure? {
      return Failure(dropped.error);
    }
    ghost var cs2, h := d.containers, d.history;
    DroppedKeeps(cs, cs2, newId, x);
    ByName(cs2, d.issued, x);
    var renamed := d.RenameTo(oldName, originalName);
    NewRemoved(cs, cs2, d.containers, x, newId, originalName);
    RollbackRunStep(h0, h, d.containers, cs, x, newId, originalName);
    h := d.history;
    if renamed.Failure? {
      return Failure(renamed.error);
    }
    ghost var cs3 := d.containers;
    ByName(cs3, d.issued, x);
    var started := d.Start(originalName);
    Renamed(cs, cs2, d.containers, x, newId, originalName);
    RollbackRunStep(h0, h, d.containers, cs, x, newId, originalName);
    if started.Failure? {
      return Failure(started.error);
    }
    BackUp(cs, cs2, d.containers, x, newId, originalName);
    r := Success(RollbackEvent(originalName, reason, oldImageRef, newImageRef, oldName));
  }

  lemma DroppedKeeps(cs: Containers, s: Containers, y: Id, x: Id)
    requires Dropped(cs, s, y) && x in cs && x != y
    ensures x in s && s[x] == cs[x] && y !in s
  {
  }

  lemma Unchanged(cs: Containers, x: Id, y: Id, name: string)
    requires x in cs && y in cs
    ensures RollbackState(cs, cs, x, y, name)
    ensures forall h :: RollbackRun(h, h, cs, x, y, name)
  {
  }

  lemma NewStopped(cs: Containers, s: Containers, x: Id, y: Id, name: string)
    requires x in cs && y in cs && x != y
    requires s == cs || s == WithRunning(cs, y, false)
    ensures RollbackState(cs, s, x, y, name)
    ensures RollbackState(cs, s - {y}, x, y, name)
  {
  }

  lemma StillUnheld(cs: Containers, s: Containers, y: Id)
    requires y in cs && !HoldsNamespace(cs, y)
    requires s == cs || s == WithRunning(cs, y, false)
    ensures !HoldsNamespace(s, y)
  {
  }

  lemma NameFreed(cs: Containers, s: Containers, issued: set<Id>, y: Id)
    requires WellNamed(cs, issued) && y in cs
    requires s == cs - {y} || s == WithRunning(cs, y, false) - {y}
    ensures !NameTaken(s, cs[y].name)
  {
  }

  lemma NewRemoved(cs: Containers, cs2: Containers, s: Containers, x: Id, y: Id, name: string)
    requires x in cs && y in cs && x != y && Dropped(cs, cs2, y) && x in cs2
    requires s == cs2 || s == WithName(cs2, x, name)
    ensures RollbackState(cs, s, x, y, name)
  {
  }

  lemma BackUp(cs: Containers, cs2: Containers, s: Containers, x: Id, y: Id, name: string)
    requires x in cs && y in cs && x != y && Dropped(cs, cs2, y) && x in cs2
    requires
      var t := WithName(cs2, x, name);
      (s == t && t[x].running) || exists ns :: s == t[x := t[x].(running := true, ns := ns)]
    ensures Restored(cs, s, x, y, name)
  {
  }

  lemma Renamed(cs: Containers, cs2: Containers, s: Containers, x: Id, y: Id, name: string)
    requires x in cs && y in cs && x != y && Dropped(cs, cs2, y) && x in cs2
    requires
      var t := WithName(cs2, x, name);
      s == t || exists ns :: s == t[x := t[x].(running := true, ns := ns)]
    ensures RollbackState(cs, s, x, y, name)
  {
  }
}
