/** Archive names (src/docker/rename.rs): the producer, its collision search and
    the recogniser, which have to agree on every name. */
module Rename {
  import opened Wrappers
  import opened Text

  const MAX_COLLISION_ATTEMPTS: nat := 64

  const OLD: string := "-old-"

  function OldNameFor(original: string, ts: int): string {
    original + OLD + SignedDecimal(ts)
  }

  /** `rsplit_once("-old-")`. */
  function RSplitOld(name: string): (r: Option<(string, string)>)
    ensures r.Some? ==> name == r.value.0 + OLD + r.value.1
  {
    match RFindText(name, OLD, |name|)
    case None => None
    case Some(i) => Some((name[..i], name[i + |OLD|..]))
  }

  /** Does `tail` read `<digits>` or `<digits>-<digits>`? */
  predicate IsStamp(tail: string) {
    match SplitOnce(tail, '-')
    case Some((ts, attempt)) => IsDigits(ts) && IsDigits(attempt)
    case None => IsDigits(tail)
  }

  predicate IsArchiveName(name: string) {
    match RSplitOld(name)
    case None => false
    case Some((_, tail)) => IsStamp(tail)
  }

  /** Does the name read like an archive's made by a clock before the epoch? The
      code does not recognise those. */
  predicate IsEarlyName(name: string) {
    match RSplitOld(name)
    case None => false
    case Some((_, tail)) => tail != "" && tail[0] == '-' && IsStamp(tail[1..])
  }

  predicate CouldBeArchive(name: string) { IsArchiveName(name) || IsEarlyName(name) }

  lemma TooShort(name: string)
    requires |name| < |OLD|
    ensures !IsArchiveName(name)
  {
  }

  /** The `n`-th name the collision search tries: the bare archive name, then
      the numbered ones. */
  function Candidate(original: string, ts: int, n: nat): string {
    OldNameFor(original, ts) + Suffix(n)
  }

  function Suffix(n: nat): string {
    if n == 0 then "" else "-" + Decimal(n)
  }

  ghost predicate IsArchiveOf(archive: string, original: string) {
    exists ts: int, n: nat :: archive == Candidate(original, ts, n)
  }

  /** The first `n` names the search tries are taken. */
  ghost predicate TakenUpTo(original: string, ts: int, taken: string -> bool, n: nat) {
    forall m: nat :: m < n ==> taken(Candidate(original, ts, m))
  }

  /** The first free candidate; when all are taken, the last. `n` is its number. */
  method NextAvailableOldName(original: string, ts: int, taken: string -> bool) returns (name: string, ghost n: nat)
    ensures n <= MAX_COLLISION_ATTEMPTS && name == Candidate(original, ts, n)
    ensures TakenUpTo(original, ts, taken, n)
    ensures taken(name) ==> TakenUpTo(original, ts, taken, MAX_COLLISION_ATTEMPTS + 1)
  {
    var base := OldNameFor(original, ts);
    assert base == Candidate(original, ts, 0);
    if !taken(base) {
      return base, 0;
    }
    for k := 1 to MAX_COLLISION_ATTEMPTS + 1
      invariant TakenUpTo(original, ts, taken, k)
    {
      var candidate := base + "-" + Decimal(k);
      assert candidate == Candidate(original, ts, k);
      if !taken(candidate) {
        return candidate, k;
      }
    }
    n := MAX_COLLISION_ATTEMPTS;
    name := base + "-" + Decimal(MAX_COLLISION_ATTEMPTS);
    assert name == Candidate(original, ts, n);
  }

  // ----- the producer and the recogniser agree -----

  function Tail(ts: int, n: nat): string { SignedDecimal(ts) + Suffix(n) }

  lemma TailHasNoLetter(ts: int, n: nat)
    ensures 'o' !in Tail(ts, n)
  {
    assert forall m: nat, i :: 0 <= i < |Decimal(m)| ==> IsDigit(Decimal(m)[i]);
  }

  lemma CandidateShape(original: string, ts: int, n: nat)
    ensures Candidate(original, ts, n) == original + OLD + Tail(ts, n)
  {
    var stamp, suffix := SignedDecimal(ts), Suffix(n);
    assert (original + OLD + stamp) + suffix == original + OLD + (stamp + suffix);
  }

  lemma OldHasO(i: nat)
    requires i < |OLD|
    ensures OLD[i] == 'o' <==> i == 1
  {
  }

  /** Splitting a candidate at its last `-old-` gives back the original name,
      also when that name contains `-old-` itself. */
  lemma CandidateSplits(original: string, ts: int, n: nat)
    ensures RSplitOld(Candidate(original, ts, n)) == Some((original, Tail(ts, n)))
  {
    var name, tail := Candidate(original, ts, n), Tail(ts, n);
    CandidateShape(original, ts, n);
    TailHasNoLetter(ts, n);
    LastOccurrence(original, OLD, tail);
  }

  lemma LastOccurrence(front: string, pattern: string, tail: string)
    requires pattern == OLD && 'o' !in tail
    ensures RSplitOld(front + pattern + tail) == Some((front, tail))
  {
    var name := front + pattern + tail;
    assert name[|front|..|front| + |pattern|] == pattern;
    forall i: nat | |front| < i && i + |pattern| <= |name|
      ensures !OccursAt(name, pattern, i)
    {
      OldHasO(1);
      if i + 1 < |front| + |pattern| {
        OldHasO(i + 1 - |front|);
        assert name[i + 1] == pattern[i + 1 - |front|];
      } else {
        assert name[i + 1] == tail[i + 1 - |front| - |pattern|];
      }
      assert name[i + 1] == name[i..i + |pattern|][1] != 'o';
    }
    assert OccursAt(name, pattern, |front|);
    assert RFindText(name, pattern, |name|) == Some(|front|);
    assert name[|front| + |pattern|..] == tail;
    assert name[..|front|] == front;
  }

  lemma TailDetermines(ts: nat, n: nat)
    ensures n == 0 ==> SplitOnce(Tail(ts, n), '-') == None
    ensures n > 0 ==> SplitOnce(Tail(ts, n), '-') == Some((Decimal(ts), Decimal(n)))
  {
    if n == 0 {
      assert Tail(ts, n) == Decimal(ts);
    } else {
      assert Tail(ts, n) == Decimal(ts) + ['-'] + Decimal(n);
      SplitsAtFirst(Decimal(ts), '-', Decimal(n));
    }
  }

  /** Every name the search can return is recognised as an archive exactly when
      the timestamp is not negative. */
  lemma CandidateIsArchiveName(original: string, ts: int, n: nat)
    ensures IsArchiveName(Candidate(original, ts, n)) <==> ts >= 0
  {
    hide Candidate, RSplitOld, Tail;
    CandidateSplits(original, ts, n);
    if ts >= 0 { TailDetermines(ts, n); TailOfNone(ts); } else { TailOfPast(ts, n); }
  }

  lemma TailOfNone(ts: nat)
    ensures Tail(ts, 0) == Decimal(ts)
  {
  }

  lemma TailOfPast(ts: int, n: nat)
    requires ts < 0
    ensures SplitOnce(Tail(ts, n), '-') == Some(([], Tail(ts, n)[1..]))
  {
    hide Decimal, SplitOnce;
    var tail := Tail(ts, n);
    assert tail == [] + ['-'] + tail[1..];
    SplitsAtFirst([], '-', tail[1..]);
  }

  /** No two (container, timestamp, attempt) triples share an archive name, with
      timestamps before the epoch too. */
  lemma CandidateInjective(o1: string, t1: int, n1: nat, o2: string, t2: int, n2: nat)
    requires Candidate(o1, t1, n1) == Candidate(o2, t2, n2)
    ensures o1 == o2 && t1 == t2 && n1 == n2
  {
    hide Candidate, RSplitOld, Tail;
    CandidateSplits(o1, t1, n1);
    CandidateSplits(o2, t2, n2);
    TailSign(t1, n1);
    TailSign(t2, n2);
    if t1 < 0 { TailInjective(-t1, n1, -t2, n2); } else { TailInjective(t1, n1, t2, n2); }
  }

  lemma TailSign(ts: int, n: nat)
    ensures Tail(ts, n) != "" && (ts < 0 <==> Tail(ts, n)[0] == '-')
    ensures ts < 0 ==> Tail(ts, n)[1..] == Tail(-ts, n)
  {
    hide Decimal, Suffix;
    if ts < 0 {
      assert SignedDecimal(ts) == ['-'] + Decimal(-ts);
      assert SignedDecimal(ts) + Suffix(n) == ['-'] + (Decimal(-ts) + Suffix(n));
    } else {
      assert Tail(ts, n)[0] == Decimal(ts)[0] && IsDigit(Decimal(ts)[0]);
    }
  }

  /** The others are exactly the names of archives made before the epoch. */
  lemma CandidateIsEarlyName(original: string, ts: int, n: nat)
    ensures IsEarlyName(Candidate(original, ts, n)) <==> ts < 0
  {
    hide Candidate, RSplitOld, Tail, Decimal;
    CandidateSplits(original, ts, n);
    TailSign(ts, n);
    if ts < 0 { TailDetermines(-ts, n); TailOfNone(-ts); }
  }

  lemma ArchiveCouldBe(archive: string, original: string)
    requires IsArchiveOf(archive, original)
    ensures CouldBeArchive(archive)
  {
    hide Candidate, IsArchiveName, IsEarlyName;
    var ts: int, n: nat :| archive == Candidate(original, ts, n);
    CandidateIsArchiveName(original, ts, n);
    CandidateIsEarlyName(original, ts, n);
  }

  lemma TailInjective(t1: nat, n1: nat, t2: nat, n2: nat)
    requires Tail(t1, n1) == Tail(t2, n2)
    ensures t1 == t2 && n1 == n2
  {
    hide SplitOnce, Decimal;
    TailDetermines(t1, n1);
    TailDetermines(t2, n2);
    DecimalValue(t1);
    DecimalValue(t2);
    DecimalValue(n1);
    DecimalValue(n2);
    TailOfNone(t1);
    TailOfNone(t2);
  }

  /** An archive name belongs to one original. */
  lemma ArchiveHasOneOriginal(archive: string, a: string, b: string)
    requires IsArchiveOf(archive, a) && IsArchiveOf(archive, b)
    ensures a == b
  {
    var t1: int, n1: nat :| archive == Candidate(a, t1, n1);
    var t2: int, n2: nat :| archive == Candidate(b, t2, n2);
    CandidateSplits(a, t1, n1);
    CandidateSplits(b, t2, n2);
  }

  lemma ArchiveDiffers(archive: string, original: string)
    requires IsArchiveOf(archive, original)
    ensures archive != original && '-' in archive
  {
    var ts: int, n: nat :| archive == Candidate(original, ts, n);
    CandidateShape(original, ts, n);
    assert archive[|original|] == OLD[0];
  }

  // ----- descent: a name, or any archive of it, at any depth -----

  /** `name` is `original` or was made from it by archiving, possibly more than
      once. */
  predicate Descends(name: string, original: string) {
    name == original || original + OLD <= name
  }

  lemma ArchiveDescends(archive: string, name: string, original: string)
    requires IsArchiveOf(archive, name) && Descends(name, original)
    ensures Descends(archive, original)
  {
    var ts: int, n: nat :| archive == Candidate(name, ts, n);
    CandidateShape(name, ts, n);
  }

  lemma DescendsTransitive(c: string, b: string, a: string)
    requires Descends(c, b) && Descends(b, a)
    ensures Descends(c, a)
  {
    if c != b && b != a {
      assert c[..|b|] == b;
      assert c[..|a + OLD|] == b[..|a + OLD|];
    }
  }
}
