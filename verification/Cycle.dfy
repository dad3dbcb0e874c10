/** What every state of an update may look like, and how the states of its
    parts (swap, rollback, repairs) fit together. */
module Cycle {
  import opened Wrappers
  import opened Rename
  import opened Docker
  import opened Swap
  import opened Reattach
  import opened Rollback

  /** A new container in the place of `was`, made from the same reference. */
  ghost predicate IsReplacement(was: Container, issued: set<Id>, s: Containers, y: Id) {
    y in s && y !in issued && s[y].name == was.name && s[y].config.image == was.config.image
  }

  /** A state of the update of `o`, whose namespace dependents are called
      `deps`: the original, while it exists, is the container it was, under its
      own or an archive name, and afterwards its replacement is there; each
      dependent is still there or a running stand-in is; nobody else changed. What
      is new has the name of the original and is made from `from`, or the name and
      the bits of a dependent. */
  ghost predicate CycleState(cs0: Containers, issued: set<Id>, s: Containers, o: Id, deps: set<string>, from: Origin)
    requires o in cs0
  {
    && (if o in s then Parkable(cs0[o], s[o]) else exists y :: IsReplacement(cs0[o], issued, s, y))
    && (forall x :: x in cs0 && x != o && cs0[x].name !in deps ==> x in s && s[x] == cs0[x])
    && (forall x :: x in cs0 && x != o && cs0[x].name in deps ==> Accounted(cs0, issued, s, x))
    && (forall y :: y in s && y !in cs0 ==> y !in issued && IsNew(cs0, s[y], o, deps, from))
  }

  ghost predicate IsNew(cs0: Containers, c: Container, o: Id, deps: set<string>, from: Origin)
    requires o in cs0
  {
    (c.name == cs0[o].name && MadeFrom(c, from)) || (c.name in deps && Doubles(cs0, c))
  }

  /** All states since `h0` are of that kind and, before index `until`, contain
      the original. */
  ghost predicate CycleRun(h0: seq<Containers>, h: seq<Containers>, cs0: Containers, issued: set<Id>, o: Id,
                           deps: set<string>, from: Origin, until: nat)
    requires o in cs0
  {
    Continues(h0, h)
    && forall i :: |h0| <= i < |h| ==> CycleState(cs0, issued, h[i], o, deps, from) && (i < until ==> o in h[i])
  }

  lemma CycleRunStep(h0: seq<Containers>, h: seq<Containers>, s: Containers, cs0: Containers, issued: set<Id>, o: Id,
                     deps: set<string>, from: Origin, until: nat)
    requires o in cs0 && CycleRun(h0, h, cs0, issued, o, deps, from, until)
    requires CycleState(cs0, issued, s, o, deps, from) && (|h| < until ==> o in s)
    ensures CycleRun(h0, h + [s], cs0, issued, o, deps, from, until)
  {
  }

  lemma SwapIsCycle(cs0: Containers, issued: set<Id>, s: Containers, o: Id, deps: set<string>, from: Origin)
    requires WellNamed(cs0, issued) && o in cs0 && SwapState(cs0, issued, s, o, from)
    ensures CycleState(cs0, issued, s, o, deps, from) && o in s
  {
  }

  lemma SwapRunIsCycleRun(h0: seq<Containers>, h: seq<Containers>, cs0: Containers, issued: set<Id>, o: Id,
                          deps: set<string>, from: Origin, until: nat)
    requires WellNamed(cs0, issued) && o in cs0 && SwapRun(h0, h, cs0, issued, o, from)
    ensures CycleRun(h0, h, cs0, issued, o, deps, from, until)
  {
    forall i | |h0| <= i < |h|
      ensures CycleState(cs0, issued, h[i], o, deps, from) && o in h[i]
    {
      SwapIsCycle(cs0, issued, h[i], o, deps, from);
    }
  }

  /** The state after the owner's swap, possibly with the new container's exit
      already observed. */
  ghost predicate OwnerSwapped(cs0: Containers, issued: set<Id>, cs1: Containers, o: Id, archive: string, y: Id) {
    && Swapped(cs0, cs1, o, archive, y)
    && y !in issued && cs1[y].name == cs0[o].name
    && IsArchiveOf(archive, cs0[o].name) && !NameTaken(cs0, archive)
  }

  lemma OwnerSwappedIsCycle(cs0: Containers, issued: set<Id>, cs1: Containers, o: Id, archive: string, y: Id,
                            deps: set<string>, from: Origin)
    requires WellNamed(cs0, issued) && OwnerSwapped(cs0, issued, cs1, o, archive, y) && MadeFrom(cs1[y], from)
    ensures CycleState(cs0, issued, cs1, o, deps, from) && o in cs1
  {
  }

  ghost predicate Dependents(cs0: Containers, o: Id, deps: set<string>) {
    o in cs0 && cs0[o].name !in deps && forall n :: n in deps ==> NameTaken(cs0, n)
  }

  // ----- repairs after the swap -----

  lemma RepairIsCycle(cs0: Containers, issued: set<Id>, cs1: Containers, issued1: set<Id>, s: Containers, o: Id,
                      archive: string, y: Id, deps: set<string>, from: Origin)
    requires WellNamed(cs0, issued) && issued <= issued1 && cs1.Keys <= issued1
    requires OwnerSwapped(cs0, issued, cs1, o, archive, y) && MadeFrom(cs1[y], from) && Dependents(cs0, o, deps)
    requires RepairState(cs1, issued1, s, deps)
    ensures CycleState(cs0, issued, s, o, deps, from)
    ensures o in s && s[o] == cs1[o] && y in s && s[y] == cs1[y]
  {
    hide IsFullId, Doubles, SameBits, MadeFrom;
    assert cs1[o].name == archive && archive !in deps;
    forall x | x in cs0 && x != o && cs0[x].name in deps
      ensures Accounted(cs0, issued, s, x)
    {
      assert cs1[x] == cs0[x];
      assert Accounted(cs1, issued1, s, x);
      SameAccounted(cs0, issued, cs1, issued1, s, x);
    }
    forall k | k in s && k !in cs0
      ensures k !in issued && IsNew(cs0, s[k], o, deps, from)
    {
      if k in cs1 {
        assert k == y;
      } else {
        DoublesBeforeSwap(cs0, issued, cs1, o, archive, y, deps, s[k]);
      }
    }
  }

  /** Whoever repeats a dependent after the owner's swap repeats it from before. */
  lemma DoublesBeforeSwap(cs0: Containers, issued: set<Id>, cs1: Containers, o: Id, archive: string, y: Id,
                          deps: set<string>, c: Container)
    requires OwnerSwapped(cs0, issued, cs1, o, archive, y) && Dependents(cs0, o, deps)
    requires Doubles(cs1, c) && c.name in deps
    ensures Doubles(cs0, c)
  {
    hide SameBits;
    var x :| x in cs1 && cs1[x].name == c.name && SameBits(cs1[x], c);
    assert archive !in deps;
    assert x != o && x != y && cs1[x] == cs0[x];
  }

  lemma RepairRunIsCycleRun(h0: seq<Containers>, h: seq<Containers>, cs0: Containers, issued: set<Id>,
                            cs1: Containers, issued1: set<Id>, o: Id, archive: string, y: Id, deps: set<string>,
                            from: Origin, until: nat)
    requires WellNamed(cs0, issued) && issued <= issued1 && cs1.Keys <= issued1
    requires OwnerSwapped(cs0, issued, cs1, o, archive, y) && MadeFrom(cs1[y], from) && Dependents(cs0, o, deps)
    requires RepairRun(h0, h, cs1, issued1, deps)
    ensures CycleRun(h0, h, cs0, issued, o, deps, from, until) && |h0| <= |h|
  {
    forall i | |h0| <= i < |h|
      ensures CycleState(cs0, issued, h[i], o, deps, from) && o in h[i]
    {
      RepairIsCycle(cs0, issued, cs1, issued1, h[i], o, archive, y, deps, from);
    }
  }

  lemma ArchiveGone(cs0: Containers, issued: set<Id>, s: Containers, o: Id, deps: set<string>, from: Origin,
                    y: Id)
    requires o in cs0 && WellNamed(cs0, issued) && CycleState(cs0, issued, s, o, deps, from)
    requires IsReplacement(cs0[o], issued, s, y)
    ensures CycleState(cs0, issued, s - {o}, o, deps, from)
  {
    var t := s - {o};
    assert IsReplacement(cs0[o], issued, t, y);
    forall x | x in cs0 && x != o && cs0[x].name in deps
      ensures Accounted(cs0, issued, t, x)
    {
      assert Accounted(cs0, issued, s, x);
      if x !in s {
        var y :| y in s && y !in issued && StandsInFor(cs0[x], s[y]);
        assert y in t && t[y] == s[y];
      }
    }
  }

  // ----- the way back -----

  lemma RollbackIsCycle(cs0: Containers, issued: set<Id>, cs1: Containers, s: Containers, o: Id, archive: string,
                        y: Id, deps: set<string>, from: Origin)
    requires WellNamed(cs0, issued) && OwnerSwapped(cs0, issued, cs1, o, archive, y) && MadeFrom(cs1[y], from)
    requires RollbackState(cs1, s, o, y, cs0[o].name)
    ensures CycleState(cs0, issued, s, o, deps, from) && o in s
  {
    forall x | x in cs0 && x != o
      ensures x in s && s[x] == cs0[x]
    {
      assert cs1[x] == cs0[x];
    }
  }

  lemma RollbackRunIsCycleRun(h0: seq<Containers>, h: seq<Containers>, cs0: Containers, issued: set<Id>,
                              cs1: Containers, o: Id, archive: string, y: Id, deps: set<string>, from: Origin,
                              until: nat)
    requires WellNamed(cs0, issued) && OwnerSwapped(cs0, issued, cs1, o, archive, y) && MadeFrom(cs1[y], from)
    requires RollbackRun(h0, h, cs1, o, y, cs0[o].name)
    ensures CycleRun(h0, h, cs0, issued, o, deps, from, until)
  {
    forall i | |h0| <= i < |h|
      ensures CycleState(cs0, issued, h[i], o, deps, from) && o in h[i]
    {
      RollbackIsCycle(cs0, issued, cs1, h[i], o, archive, y, deps, from);
    }
  }

  /** The owner is back: the map is the initial one but for a new namespace. */
  ghost predicate OwnerBack(cs0: Containers, cs2: Containers, o: Id) {
    && o in cs0 && cs2.Keys == cs0.Keys
    && cs2[o].running && cs2[o].name == cs0[o].name
    && cs2[o].config == cs0[o].config && cs2[o].imageId == cs0[o].imageId
    && forall x :: x in cs0 && x != o ==> cs2[x] == cs0[x]
  }

  lemma RestoredIsBack(cs0: Containers, issued: set<Id>, cs1: Containers, cs2: Containers, o: Id, archive: string,
                       y: Id)
    requires OwnerSwapped(cs0, issued, cs1, o, archive, y) && Restored(cs1, cs2, o, y, cs0[o].name)
    ensures OwnerBack(cs0, cs2, o)
  {
    forall x | x in cs0 && x != o
      ensures cs2[x] == cs0[x]
    {
      assert cs1[x] == cs0[x];
    }
  }

  lemma BackRepairIsCycle(cs0: Containers, issued: set<Id>, cs2: Containers, issued2: set<Id>, s: Containers, o: Id,
                          deps: set<string>, from: Origin)
    requires WellNamed(cs0, issued) && issued <= issued2 && OwnerBack(cs0, cs2, o) && Dependents(cs0, o, deps)
    requires RepairState(cs2, issued2, s, deps)
    ensures CycleState(cs0, issued, s, o, deps, from) && o in s && s[o] == cs2[o]
    ensures forall y :: y in s && y !in cs0 ==> s[y].name in deps
  {
    hide IsFullId, UniqueNames, SameBits, Accounted, Doubles, MadeFrom;
    forall x | x in cs0 && x != o && cs0[x].name in deps
      ensures Accounted(cs0, issued, s, x)
    {
      assert cs2[x] == cs0[x];
      assert Accounted(cs2, issued2, s, x);
      SameAccounted(cs0, issued, cs2, issued2, s, x);
    }
    forall k | k in s && k !in cs0
      ensures k !in issued && Doubles(cs0, s[k])
    {
      DoublesBefore(cs0, cs2, o, deps, s[k]);
    }
  }

  lemma DoublesBefore(cs0: Containers, cs2: Containers, o: Id, deps: set<string>, c: Container)
    requires OwnerBack(cs0, cs2, o) && Dependents(cs0, o, deps) && Doubles(cs2, c) && c.name in deps
    ensures Doubles(cs0, c)
  {
    hide SameBits;
    var x :| x in cs2 && cs2[x].name == c.name && SameBits(cs2[x], c);
    assert x != o && cs2[x] == cs0[x];
  }

  lemma BackRepairRunIsCycleRun(h0: seq<Containers>, h: seq<Containers>, cs0: Containers, issued: set<Id>,
                                cs2: Containers, issued2: set<Id>, o: Id, deps: set<string>, from: Origin, until: nat)
    requires WellNamed(cs0, issued) && issued <= issued2 && OwnerBack(cs0, cs2, o) && Dependents(cs0, o, deps)
    requires RepairRun(h0, h, cs2, issued2, deps)
    ensures CycleRun(h0, h, cs0, issued, o, deps, from, until)
  {
    forall i | |h0| <= i < |h|
      ensures CycleState(cs0, issued, h[i], o, deps, from) && o in h[i]
    {
      BackRepairIsCycle(cs0, issued, cs2, issued2, h[i], o, deps, from);
    }
  }

  lemma CycleRunJoin(h0: seq<Containers>, h1: seq<Containers>, h: seq<Containers>, cs0: Containers, issued: set<Id>,
                     o: Id, deps: set<string>, from: Origin, until: nat)
    requires o in cs0 && CycleRun(h0, h1, cs0, issued, o, deps, from, until)
    requires CycleRun(h1, h, cs0, issued, o, deps, from, until)
    ensures CycleRun(h0, h, cs0, issued, o, deps, from, until)
  {
    forall i | |h0| <= i < |h|
      ensures CycleState(cs0, issued, h[i], o, deps, from) && (i < until ==> o in h[i])
    {
      if i < |h1| { assert h[i] == h1[i]; }
    }
  }

  // ----- completion without faults -----

  /** Nothing but a fault stands in the way of repairing what shares the
      namespace of `o`: every running sharer is among `deps`, and each of those
      names its owner, has room for an archive and an image that is known. */
  ghost predicate Repairable(cs0: Containers, store: ImageStore, o: Id, deps: set<string>) {
    && Dependents(cs0, o, deps)
    && (forall x :: x in cs0 && x != o && cs0[x].running && cs0[x].ns.owner == o ==> cs0[x].name in deps)
    && (forall x :: x in cs0 && cs0[x].name in deps ==> RepairableOne(cs0, store, x, o))
  }

  ghost predicate RepairableOne(cs0: Containers, store: ImageStore, x: Id, o: Id)
    requires x in cs0
  {
    && SharesNamespace(cs0[x].config)
    && Firm(cs0, ModeReference(cs0[x].config).value, o)
    && (forall ts: int :: ArchiveRoom(cs0, cs0[x].name, ts))
    && (cs0[x].imageId.Some? || ResolveImage(store, cs0[x].config.image).Some?)
  }

  /** Where an update without faults ends: exactly the initial names, no archive
      left, the owner's name held by a running `z`, and every dependent replaced
      by a running stand-in that is in the namespace of `z` and names it. */
  ghost predicate Settled(cs0: Containers, s: Containers, o: Id, deps: set<string>, z: Id) {
    && o in cs0 && NamesOf(s) == NamesOf(cs0)
    && z in s && s[z].running && s[z].name == cs0[o].name
    && forall x :: x in cs0 && cs0[x].name in deps ==> Reattached(cs0, s, x, z)
  }

  ghost predicate Reattached(cs0: Containers, s: Containers, x: Id, z: Id)
    requires x in cs0
  {
    exists y :: y in s && StandsInFor(cs0[x], s[y]) && JoinedTo(s, s, y, z)
  }

  /** Room for the archives of the dependents is not used up by the owner's. */
  lemma RoomAfterSwap(cs0: Containers, issued: set<Id>, cs1: Containers, o: Id, archive: string, y: Id, name: string,
                      ts: int)
    requires WellNamed(cs0, issued) && OwnerSwapped(cs0, issued, cs1, o, archive, y)
    requires name != cs0[o].name && ArchiveRoom(cs0, name, ts)
    ensures ArchiveRoom(cs1, name, ts)
  {
    var n: nat :| n <= MAX_COLLISION_ATTEMPTS && !NameTaken(cs0, Candidate(name, ts, n));
    var c := Candidate(name, ts, n);
    assert IsArchiveOf(c, name);
    assert c != archive by {
      if c == archive { ArchiveHasOneOriginal(c, name, cs0[o].name); }
    }
    SwapNames(cs0, cs1, o, archive, y);
    TakenIsNamed(cs0, c);
    TakenIsNamed(cs1, c);
  }

  lemma ReadyAfterSwap(cs0: Containers, issued: set<Id>, cs1: Containers, store: ImageStore, o: Id, archive: string,
                       y: Id, deps: set<string>)
    requires WellNamed(cs0, issued) && OwnerSwapped(cs0, issued, cs1, o, archive, y) && cs1[y].running
    requires Repairable(cs0, store, o, deps)
    ensures AllReady(cs1, store, deps, y, cs0[o].name, Some(y))
  {
    forall x | x in cs1 && cs1[x].name in deps
      ensures Ready(cs1, store, x, y, cs0[o].name, Some(y))
    {
      assert x != o && x != y;
      assert cs1[x] == cs0[x];
      assert RepairableOne(cs0, store, x, o);
      forall ts: int
        ensures ArchiveRoom(cs1, cs1[x].name, ts)
      {
        assert ArchiveRoom(cs0, cs0[x].name, ts);
        RoomAfterSwap(cs0, issued, cs1, o, archive, y, cs0[x].name, ts);
      }
    }
  }

  lemma ReadyAfterRollback(cs0: Containers, issued: set<Id>, cs2: Containers, store: ImageStore, o: Id,
                           deps: set<string>)
    requires WellNamed(cs0, issued) && OwnerBack(cs0, cs2, o) && Repairable(cs0, store, o, deps)
    ensures AllReady(cs2, store, deps, o, cs0[o].name, None)
  {
    forall x | x in cs2 && cs2[x].name in deps
      ensures Ready(cs2, store, x, o, cs0[o].name, None)
    {
      assert x != o && cs2[x] == cs0[x];
      assert RepairableOne(cs0, store, x, o);
      forall ts: int
        ensures ArchiveRoom(cs2, cs2[x].name, ts)
      {
        assert ArchiveRoom(cs0, cs0[x].name, ts);
        var n: nat :| n <= MAX_COLLISION_ATTEMPTS && !NameTaken(cs0, Candidate(cs0[x].name, ts, n));
        assert forall k :: k in cs2 ==> cs2[k].name == cs0[k].name;
        assert !NameTaken(cs2, Candidate(cs0[x].name, ts, n));
      }
      FirmAfterUpdate(cs0, cs2, issued, ModeReference(cs0[x].config).value, o);
    }
  }

  lemma HealedIsSettled(cs0: Containers, cs2: Containers, s: Containers, o: Id, deps: set<string>)
    requires OwnerBack(cs0, cs2, o) && Dependents(cs0, o, deps) && AllHealed(cs2, s, deps, o)
    ensures Settled(cs0, s, o, deps, o)
  {
    assert NamesOf(cs2) == NamesOf(cs0) by {
      assert forall k :: k in cs0 ==> cs2[k].name == cs0[k].name;
      assert forall n :: n in NamesOf(cs0) ==> n in NamesOf(cs2);
    }
    forall x | x in cs0 && cs0[x].name in deps
      ensures Reattached(cs0, s, x, o)
    {
      assert cs2[x] == cs0[x];
      assert HasStandIn(cs2, s, x, o);
      var y :| y in s && y !in cs2 && StandsInFor(cs2[x], s[y]) && JoinedTo(cs2, s, y, o);
      assert JoinedTo(s, s, y, o);
    }
  }

  /** Once every sharer is repaired nothing holds the archive. Before that it is
      held: see `HeldBeforeRepair`. */
  lemma FreeAfterRepair(cs0: Containers, issued: set<Id>, cs1: Containers, s: Containers, issuedS: set<Id>, o: Id,
                        archive: string, y: Id, deps: set<string>)
    requires WellNamed(cs0, issued) && OwnerSwapped(cs0, issued, cs1, o, archive, y)
    requires AllHealed(cs1, s, deps, y) && NamespacesOwned(s, issuedS)
    requires SharesNamespace(cs1[y].config) == SharesNamespace(cs0[o].config)
    requires !SharesNamespace(cs1[y].config) ==> cs1[y].ns.owner == y
    requires cs1[y].running && Dependents(cs0, o, deps)
    requires forall x :: x in cs0 && x != o && cs0[x].running && cs0[x].ns.owner == o ==> cs0[x].name in deps
    ensures o in s && !s[o].running && !HoldsNamespace(s, o)
  {
    assert cs1[o].name == archive && archive !in deps;
    assert s[o] == cs1[o];
    forall k | k in s && k != o && s[k].running
      ensures s[k].ns.owner != o
    {
      if k in cs1 && k != y {
        assert cs1[k] == cs0[k];
      } else {
        assert s[k].ns == cs1[y].ns;
        if SharesNamespace(cs1[y].config) { assert SharesNamespace(s[o].config); }
      }
    }
  }

  /** Taking the archive away first would be refused: a running sharer holds
      the namespace of the stopped original. */
  lemma HeldBeforeRepair(cs0: Containers, issued: set<Id>, cs1: Containers, o: Id, archive: string, y: Id, x: Id)
    requires OwnerSwapped(cs0, issued, cs1, o, archive, y)
    requires x in cs0 && x != o && cs0[x].running && cs0[x].ns.owner == o
    ensures HoldsNamespace(cs1, o)
  {
    assert cs1[x] == cs0[x];
  }

  lemma SwapHealedIsSettled(cs0: Containers, issued: set<Id>, cs1: Containers, s: Containers, issuedS: set<Id>, o: Id,
                            archive: string, y: Id, deps: set<string>)
    requires WellNamed(cs0, issued) && WellNamed(s, issuedS) && OwnerSwapped(cs0, issued, cs1, o, archive, y)
    requires AllHealed(cs1, s, deps, y) && cs1[y].running && Dependents(cs0, o, deps)
    ensures Settled(cs0, s - {o}, o, deps, y)
  {
    hide IsFullId, WellNamed, UniqueNames, StandsInFor, JoinedTo, FirmKept, NamesOf, HasStandIn, Reattached;
    var t := s - {o};
    assert cs1[o].name == archive && s[o] == cs1[o];
    SwapNames(cs0, cs1, o, archive, y);
    NamesWithoutOne(s, issuedS, o);
    assert archive !in NamesOf(cs0) by { TakenIsNamed(cs0, archive); }
    forall x | x in cs0 && cs0[x].name in deps
      ensures Reattached(cs0, t, x, y)
    {
      assert x != o && cs1[x] == cs0[x];
      StandInStays(cs0, cs1, s, issuedS, o, x, y);
    }
  }

  lemma NamesWithoutOne(s: Containers, issued: set<Id>, o: Id)
    requires WellNamed(s, issued) && o in s
    ensures NamesOf(s - {o}) == NamesOf(s) - {s[o].name}
  {
    var t := s - {o};
    forall n | n in NamesOf(s) - {s[o].name}
      ensures n in NamesOf(t)
    {
      var k :| k in s && s[k].name == n;
      assert t[k].name == n;
    }
    forall n | n in NamesOf(t)
      ensures n in NamesOf(s) - {s[o].name}
    {
      var k :| k in t && t[k].name == n;
      assert s[k].name == n && k != o;
    }
  }

  /** A stand-in keeps its owner when the archive goes. */
  lemma StandInStays(cs0: Containers, cs1: Containers, s: Containers, issuedS: set<Id>, o: Id, x: Id, y: Id)
    requires WellNamed(s, issuedS) && o != y && o in cs1 && y in cs1 && y in s && s[y] == cs1[y]
    requires x in cs0 && x in cs1 && cs1[x] == cs0[x] && HasStandIn(cs1, s, x, y)
    ensures Reattached(cs0, s - {o}, x, y)
  {
    hide IsFullId, WellNamed, UniqueNames, StandsInFor, Firm;
    var k :| k in s && k !in cs1 && StandsInFor(cs1[x], s[k]) && JoinedTo(cs1, s, k, y);
    FirmAfterRemove(s, issuedS, ModeReference(s[k].config).value, y, o);
    assert JoinedTo(s - {o}, s - {o}, k, y);
  }

  lemma SwapNames(cs0: Containers, cs1: Containers, o: Id, archive: string, y: Id)
    requires Swapped(cs0, cs1, o, archive, y) && cs1[y].name == cs0[o].name
    ensures NamesOf(cs1) == NamesOf(cs0) + {archive}
  {
    forall n | n in NamesOf(cs0) + {archive}
      ensures n in NamesOf(cs1)
    {
      if n == archive {
        assert cs1[o].name == n;
      } else {
        var k :| k in cs0 && cs0[k].name == n;
        if k == o { assert cs1[y].name == n; } else { assert cs1[k].name == n; }
      }
    }
    forall n | n in NamesOf(cs1)
      ensures n in NamesOf(cs0) + {archive}
    {
      var k :| k in cs1 && cs1[k].name == n;
      if k == y { assert cs0[o].name == n; } else if k != o { assert cs0[k].name == n; }
    }
  }

  // ----- survival by name -----

  /** Every container of `cs0` lives on: in its place or under its name, or as
      an archive of it. The relation composes over any number of updates. */
  ghost predicate Survives(cs0: Containers, s: Containers) {
    forall x :: x in cs0 ==> HasHeir(s, cs0[x].name)
  }

  ghost predicate HasHeir(s: Containers, name: string) {
    exists y :: y in s && Descends(s[y].name, name)
  }

  lemma SurvivesTransitive(a: Containers, b: Containers, c: Containers)
    requires Survives(a, b) && Survives(b, c)
    ensures Survives(a, c)
  {
    forall x | x in a
      ensures HasHeir(c, a[x].name)
    {
      assert HasHeir(b, a[x].name);
      var y :| y in b && Descends(b[y].name, a[x].name);
      assert HasHeir(c, b[y].name);
      var z :| z in c && Descends(c[z].name, b[y].name);
      DescendsTransitive(c[z].name, b[y].name, a[x].name);
    }
  }

  lemma ParkableHeir(was: Container, s: Containers, x: Id)
    requires x in s && Parkable(was, s[x])
    ensures HasHeir(s, was.name)
  {
    if s[x].name != was.name { ArchiveDescends(s[x].name, was.name, was.name); }
    assert Descends(s[x].name, was.name);
  }

  /** In every state of an update every initial container survives. */
  lemma CycleSurvives(cs0: Containers, issued: set<Id>, s: Containers, o: Id, deps: set<string>, from: Origin)
    requires o in cs0 && CycleState(cs0, issued, s, o, deps, from)
    ensures Survives(cs0, s)
  {
    forall x | x in cs0
      ensures HasHeir(s, cs0[x].name)
    {
      if x == o {
        if o in s {
          ParkableHeir(cs0[o], s, o);
        } else {
          var y :| IsReplacement(cs0[o], issued, s, y);
          assert Descends(s[y].name, cs0[o].name);
        }
      } else if cs0[x].name in deps {
        assert Accounted(cs0, issued, s, x);
        if x in s {
          ParkableHeir(cs0[x], s, x);
        } else {
          var y :| y in s && y !in issued && StandsInFor(cs0[x], s[y]);
          assert Descends(s[y].name, cs0[x].name);
        }
      } else {
        assert Descends(s[x].name, cs0[x].name);
      }
    }
  }

  // ----- facts about the end -----

  /** No running container uses a namespace of a brand-new one. */
  lemma NewUnheld(cs0: Containers, issued: set<Id>, cs1: Containers, o: Id, archive: string, y: Id)
    requires NamespacesOwned(cs0, issued) && OwnerSwapped(cs0, issued, cs1, o, archive, y) && !cs1[o].running
    ensures !HoldsNamespace(cs1, y)
  {
    forall k | k in cs1 && k != y && cs1[k].running
      ensures cs1[k].ns.owner != y
    {
      assert cs1[k] == cs0[k];
    }
  }

  /** After a rollback no container is left under the archive name. */
  lemma ArchiveNameFree(cs0: Containers, issued: set<Id>, s: Containers, o: Id, archive: string, deps: set<string>,
                        from: Origin)
    requires WellNamed(cs0, issued) && Dependents(cs0, o, deps) && CycleState(cs0, issued, s, o, deps, from)
    requires o in s && s[o].name == cs0[o].name
    requires forall y :: y in s && y !in cs0 ==> s[y].name in deps
    requires IsArchiveOf(archive, cs0[o].name) && !NameTaken(cs0, archive)
    ensures !NameTaken(s, archive)
  {
    forall k | k in s
      ensures s[k].name != archive
    {
      ArchiveDiffers(archive, cs0[o].name);
      if k in cs0 && k != o && cs0[k].name in deps {
        NotTheArchive(cs0, issued, s, o, archive, deps, from, k);
      }
    }
  }

  lemma NotTheArchive(cs0: Containers, issued: set<Id>, s: Containers, o: Id, archive: string, deps: set<string>,
                      from: Origin, k: Id)
    requires WellNamed(cs0, issued) && Dependents(cs0, o, deps) && CycleState(cs0, issued, s, o, deps, from)
    requires IsArchiveOf(archive, cs0[o].name) && !NameTaken(cs0, archive)
    requires k in s && k in cs0 && k != o && cs0[k].name in deps
    ensures s[k].name != archive
  {
    assert Accounted(cs0, issued, s, k);
    if s[k].name == archive && s[k].name != cs0[k].name {
      ArchiveHasOneOriginal(archive, cs0[k].name, cs0[o].name);
    }
  }

  lemma RepairableWithMore(cs0: Containers, before: ImageStore, after: ImageStore, o: Id, deps: set<string>)
    requires Repairable(cs0, before, o, deps)
    requires forall image :: ResolveImage(before, image).Some? ==> ResolveImage(after, image).Some?
    ensures Repairable(cs0, after, o, deps)
  {
    forall x | x in cs0 && cs0[x].name in deps
      ensures RepairableOne(cs0, after, x, o)
    {
      assert RepairableOne(cs0, before, x, o);
    }
  }
}
