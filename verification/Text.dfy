/** The string operations of the source's standard library that the model
    relies on: splitting, searching, trimming, decimal numerals and the
    lexicographic order that `sort` uses. */
module Text {
  import opened Wrappers

  // ----- searching and splitting -----

  /** `str::find` for a character. */
  function Find(s: string, c: char): (r: Option<nat>)
    ensures r.None? <==> c !in s
    ensures r.Some? ==> r.value < |s| && s[r.value] == c && c !in s[..r.value]
  {
    if s == [] then None
    else if s[0] == c then Some(0)
    else
      match Find(s[1..], c)
      case None => None
      case Some(i) =>
        assert s[..i + 1] == [s[0]] + s[1..][..i];
        Some(i + 1)
  }

  /** `str::rfind` for a character. */
  function RFind(s: string, c: char): (r: Option<nat>)
    ensures r.None? <==> c !in s
    ensures r.Some? ==> r.value < |s| && s[r.value] == c && c !in s[r.value + 1..]
  {
    if s == [] then None
    else if s[|s| - 1] == c then Some(|s| - 1)
    else
      var front := s[..|s| - 1];
      assert s == front + [s[|s| - 1]];
      match RFind(front, c)
      case None => None
      case Some(i) =>
        assert s[i + 1..] == front[i + 1..] + [s[|s| - 1]];
        Some(i)
  }

  /** `str::split_once` at a character: the text around its first occurrence. */
  function SplitOnce(s: string, c: char): (r: Option<(string, string)>)
    ensures r.None? <==> c !in s
    ensures r.Some? ==> s == r.value.0 + [c] + r.value.1 && c !in r.value.0
  {
    match Find(s, c)
    case None => None
    case Some(i) => Some((s[..i], s[i + 1..]))
  }

  /** `str::split` at a character; never empty. */
  function Split(s: string, c: char): (r: seq<string>)
    ensures |r| > 0
    ensures forall part :: part in r ==> c !in part
    decreases |s|
  {
    match Find(s, c)
    case None => [s]
    case Some(i) => [s[..i]] + Split(s[i + 1..], c)
  }

  /** `slice::join` with a one-character separator. */
  function Join(parts: seq<string>, c: char): string
    requires |parts| > 0
  {
    if |parts| == 1 then parts[0] else parts[0] + [c] + Join(parts[1..], c)
  }

  /** Splitting undoes joining. */
  lemma {:induction false} SplitJoin(parts: seq<string>, c: char)
    requires |parts| > 0 && forall part :: part in parts ==> c !in part
    ensures Split(Join(parts, c), c) == parts
  {
    var s := Join(parts, c);
    if |parts| > 1 {
      SplitJoin(parts[1..], c);
      SplitsAtFirst(parts[0], c, Join(parts[1..], c));
      var i := Find(s, c).value;
      assert s[..i] == parts[0] && s[i + 1..] == Join(parts[1..], c);
    } else {
      assert parts == [s];
    }
  }

  predicate OccursAt(s: string, pattern: string, i: nat) {
    i + |pattern| <= |s| && s[i..i + |pattern|] == pattern
  }

  /** The last position at or before `from` where `pattern` occurs. */
  function RFindText(s: string, pattern: string, from: nat): (r: Option<nat>)
    ensures r.None? ==> forall i: nat :: i <= from ==> !OccursAt(s, pattern, i)
    ensures r.Some? ==> r.value <= from && OccursAt(s, pattern, r.value)
    ensures r.Some? ==> forall i: nat :: r.value < i <= from ==> !OccursAt(s, pattern, i)
  {
    if OccursAt(s, pattern, from) then Some(from)
    else if from == 0 then None
    else RFindText(s, pattern, from - 1)
  }

  // ----- white space and case -----

  predicate IsSpace(c: char) { c in " \t\n\r" || c as int in {0x0B, 0x0C} }

  function Trim(s: string): string {
    TrimEnd(TrimStart(s))
  }

  function TrimStart(s: string): string {
    if s != [] && IsSpace(s[0]) then TrimStart(s[1..]) else s
  }

  function TrimEnd(s: string): string {
    if s != [] && IsSpace(s[|s| - 1]) then TrimEnd(s[..|s| - 1]) else s
  }

  /** `to_ascii_lowercase`. */
  function Lower(s: string): (r: string)
    ensures |r| == |s|
  {
    seq(|s|, i requires 0 <= i < |s| => LowerChar(s[i]))
  }

  function LowerChar(c: char): char {
    if 'A' <= c <= 'Z' then ((c as int) + 32) as char else c
  }

  /** Maximal runs of non-space characters. */
  function Words(s: string): (r: seq<string>)
    decreases |s|
  {
    var t := TrimStart(s);
    TrimStartShorter(s);
    if t == [] then []
    else
      var n := WordLength(t);
      [t[..n]] + Words(t[n..])
  }

  function WordLength(s: string): (n: nat)
    ensures n <= |s|
    ensures s != [] && !IsSpace(s[0]) ==> n > 0
  {
    if s == [] || IsSpace(s[0]) then 0 else 1 + WordLength(s[1..])
  }

  predicate IsWord(s: string) { s != [] && forall i :: 0 <= i < |s| ==> !IsSpace(s[i]) }

  lemma {:induction false} WordAhead(word: string, rest: string)
    requires forall i :: 0 <= i < |word| ==> !IsSpace(word[i])
    requires rest == [] || IsSpace(rest[0])
    ensures WordLength(word + rest) == |word|
  {
    if word == [] {
      assert word + rest == rest;
    } else {
      WordAhead(word[1..], rest);
      assert (word + rest)[1..] == word[1..] + rest;
    }
  }

  /** Reading words undoes writing them with spaces between. */
  lemma {:induction false} WordsJoin(words: seq<string>)
    requires words != [] && forall i :: 0 <= i < |words| ==> IsWord(words[i])
    ensures Words(Join(words, ' ')) == words
  {
    var text, first := Join(words, ' '), words[0];
    assert IsWord(first);
    if |words| == 1 {
      WordAhead(first, []);
      assert first + [] == text && text[..|first|] == first && text[|first|..] == [];
      assert Words([]) == [];
    } else {
      var rest := Join(words[1..], ' ');
      WordAhead(first, [' '] + rest);
      assert text == first + ([' '] + rest);
      assert text[..|first|] == first && text[|first|..] == [' '] + rest;
      assert ([' '] + rest)[1..] == rest;
      WordsSkipSpace(rest);
      WordsJoin(words[1..]);
    }
  }

  lemma WordsSkipSpace(s: string)
    ensures Words([' '] + s) == Words(s)
  {
    assert ([' '] + s)[1..] == s;
    assert TrimStart([' '] + s) == TrimStart(s);
  }

  lemma TrimNothing(s: string)
    requires s != "" && !IsSpace(s[0]) && !IsSpace(s[|s| - 1])
    ensures Trim(s) == s
  {
  }

  lemma TrimStartShorter(s: string)
    ensures |TrimStart(s)| <= |s|
    ensures TrimStart(s) != [] ==> !IsSpace(TrimStart(s)[0])
  {
  }

  // ----- numerals -----

  predicate IsDigit(c: char) { '0' <= c <= '9' }

  predicate IsDigits(s: string) { s != [] && forall i :: 0 <= i < |s| ==> IsDigit(s[i]) }

  function DigitChar(n: nat): (c: char)
    requires n < 10
    ensures IsDigit(c)
  {
    (n + '0' as int) as char
  }

  function Decimal(n: nat): (s: string)
    ensures IsDigits(s)
  {
    if n < 10 then [DigitChar(n)] else Decimal(n / 10) + [DigitChar(n % 10)]
  }

  /** How `format!` renders a signed integer. */
  function SignedDecimal(n: int): (s: string)
    ensures n >= 0 ==> IsDigits(s)
    ensures n < 0 ==> s != [] && s[0] == '-'
  {
    if n >= 0 then Decimal(n) else "-" + Decimal(-n)
  }

  function DigitsValue(s: string): nat
    requires forall i :: 0 <= i < |s| ==> IsDigit(s[i])
  {
    if s == [] then 0
    else
      assert IsDigit(s[|s| - 1]);
      DigitsValue(s[..|s| - 1]) * 10 + (s[|s| - 1] as int - '0' as int)
  }

  const U32_LIMIT: nat := 0x1_0000_0000

  /** `str::parse::<u32>`: digits with an optional leading `+`, within range. */
  function ParseU32(s: string): (r: Option<nat>)
    ensures r.Some? ==> r.value < U32_LIMIT
  {
    var digits := if s != [] && s[0] == '+' then s[1..] else s;
    if IsDigits(digits) && DigitsValue(digits) < U32_LIMIT then Some(DigitsValue(digits)) else None
  }

  // ----- reading back what was written -----

  lemma SplitsAtFirst(a: string, c: char, b: string)
    requires c !in a
    ensures SplitOnce(a + [c] + b, c) == Some((a, b))
  {
    var s := a + [c] + b;
    assert s[|a|] == c;
    var (x, y) := SplitOnce(s, c).value;
    assert s == x + [c] + y;
    assert s[|x|] == c == s[|a|];
    assert s[..|a|] == a && s[..|x|] == x;
    assert |x| == |a|;
    assert x == s[..|a|] == a;
    assert y == s[|a| + 1..] == b;
  }

  lemma {:induction false} DecimalValue(n: nat)
    ensures DigitsValue(Decimal(n)) == n
  {
    var s := Decimal(n);
    if n >= 10 {
      DecimalValue(n / 10);
      assert s[..|s| - 1] == Decimal(n / 10);
    } else {
      assert s[..0] == [];
    }
  }

  lemma DecimalParses(n: nat)
    requires n < U32_LIMIT
    ensures ParseU32(Decimal(n)) == Some(n)
  {
    DecimalValue(n);
    assert IsDigit(Decimal(n)[0]);
  }

  lemma DecimalLacks(n: nat, c: char)
    requires !IsDigit(c)
    ensures c !in Decimal(n)
  {
  }

  // ----- the order `sort` uses -----

  predicate StrLess(a: string, b: string) {
    if b == [] then false
    else if a == [] then true
    else a[0] < b[0] || (a[0] == b[0] && StrLess(a[1..], b[1..]))
  }

  lemma {:induction false} StrLessTrichotomy(a: string, b: string)
    ensures StrLess(a, b) || a == b || StrLess(b, a)
    ensures !(StrLess(a, b) && StrLess(b, a))
    ensures !StrLess(a, a)
  {
    if a != [] {
      StrLessTrichotomy(a[1..], if b == [] then [] else b[1..]);
      if b != [] && a[0] == b[0] && a[1..] == b[1..] {
        assert a == [a[0]] + a[1..] && b == [b[0]] + b[1..];
      }
    }
  }

  lemma {:induction false} StrLessTransitive(a: string, b: string, c: string)
    requires StrLess(a, b) && StrLess(b, c)
    ensures StrLess(a, c)
  {
    if a != [] && a[0] == b[0] == c[0] {
      StrLessTransitive(a[1..], b[1..], c[1..]);
    }
  }

  ghost predicate StrictlySorted(names: seq<string>) {
    forall i, j :: 0 <= i < j < |names| ==> StrLess(names[i], names[j])
  }

  lemma SortedDistinct(names: seq<string>)
    requires StrictlySorted(names)
    ensures forall i, j :: 0 <= i < j < |names| ==> names[i] != names[j]
  {
    forall i, j | 0 <= i < j < |names|
      ensures names[i] != names[j]
    {
      StrLessTrichotomy(names[i], names[j]);
    }
  }

  /** The distinct names of a set in `sort` order. */
  function SortedNames(names: set<string>): (r: seq<string>)
    ensures StrictlySorted(r)
    ensures forall n :: n in r <==> n in names
    ensures |r| == |names|
    decreases |names|
  {
    if names == {} then []
    else
      LeastExists(names);
      var least :| IsLeast(names, least);
      LeastUnique(names);
      var rest := SortedNames(names - {least});
      assert forall i :: 0 <= i < |rest| ==> rest[i] in rest;
      [least] + rest
  }

  predicate IsLeast(names: set<string>, n: string) {
    n in names && forall m :: m in names && m != n ==> StrLess(n, m)
  }

  lemma LeastUnique(names: set<string>)
    ensures forall a, b :: IsLeast(names, a) && IsLeast(names, b) ==> a == b
  {
    forall a, b | IsLeast(names, a) && IsLeast(names, b)
      ensures a == b
    {
      StrLessTrichotomy(a, b);
    }
  }

  lemma {:induction false} LeastExists(names: set<string>)
    requires names != {}
    ensures exists n :: IsLeast(names, n)
    decreases |names|
  {
    var x :| x in names;
    var rest := names - {x};
    if rest == {} {
      assert names == {x};
      assert IsLeast(names, x);
    } else {
      LeastExists(rest);
      var y :| IsLeast(rest, y);
      StrLessTrichotomy(x, y);
      if StrLess(x, y) {
        forall m | m in names && m != x
          ensures StrLess(x, m)
        {
          if m != y { StrLessTransitive(x, y, m); }
        }
        assert IsLeast(names, x);
      } else {
        assert IsLeast(names, y);
      }
    }
  }

  // ----- stable sorting by a name -----

  /** Goes ahead of the elements that do not sort before it. */
  function InsertBy<T>(key: T -> string, x: T, sorted: seq<T>): seq<T> {
    if sorted == [] || !StrLess(key(sorted[0]), key(x)) then [x] + sorted
    else [sorted[0]] + InsertBy(key, x, sorted[1..])
  }

  function SortBy<T>(key: T -> string, s: seq<T>): seq<T> {
    if s == [] then [] else InsertBy(key, s[0], SortBy(key, s[1..]))
  }

  ghost predicate SortedBy<T>(key: T -> string, s: seq<T>) {
    forall i, j :: 0 <= i < j < |s| ==> !StrLess(key(s[j]), key(s[i]))
  }

  lemma NotLessTransitive(a: string, b: string, c: string)
    requires !StrLess(b, a) && !StrLess(c, b)
    ensures !StrLess(c, a)
  {
    StrLessTrichotomy(a, b);
    StrLessTrichotomy(b, c);
    StrLessTrichotomy(a, c);
    if StrLess(c, a) {
      if b != c { StrLessTransitive(b, c, a); }
    }
  }

  lemma {:induction false} InsertByCounts<T>(key: T -> string, x: T, sorted: seq<T>)
    ensures multiset(InsertBy(key, x, sorted)) == multiset{x} + multiset(sorted)
  {
    hide StrLess;
    if sorted != [] && StrLess(key(sorted[0]), key(x)) {
      InsertByCounts(key, x, sorted[1..]);
      assert sorted == [sorted[0]] + sorted[1..];
    }
  }

  lemma {:induction false} InsertBySorts<T>(key: T -> string, x: T, sorted: seq<T>)
    requires SortedBy(key, sorted)
    ensures SortedBy(key, InsertBy(key, x, sorted))
  {
    hide StrLess;
    if sorted == [] {
    } else if !StrLess(key(sorted[0]), key(x)) {
      forall j | 0 <= j < |sorted|
        ensures !StrLess(key(sorted[j]), key(x))
      {
        if j > 0 { NotLessTransitive(key(x), key(sorted[0]), key(sorted[j])); }
      }
      SortedPush(key, x, sorted);
    } else {
      InsertBySorts(key, x, sorted[1..]);
      InsertByCounts(key, x, sorted[1..]);
      StrLessTrichotomy(key(sorted[0]), key(x));
      var tail := InsertBy(key, x, sorted[1..]);
      forall j | 0 <= j < |tail|
        ensures !StrLess(key(tail[j]), key(sorted[0]))
      {
        assert tail[j] in multiset(tail);
        assert tail[j] == x || tail[j] in sorted[1..];
      }
      SortedPush(key, sorted[0], tail);
    }
  }

  lemma SortedPush<T>(key: T -> string, x: T, s: seq<T>)
    requires SortedBy(key, s) && forall j :: 0 <= j < |s| ==> !StrLess(key(s[j]), key(x))
    ensures SortedBy(key, [x] + s)
  {
    hide StrLess;
  }

  /** A permutation in name order. */
  lemma {:induction false} SortByKeeps<T>(key: T -> string, s: seq<T>)
    ensures SortedBy(key, SortBy(key, s))
    ensures multiset(SortBy(key, s)) == multiset(s)
  {
    if s != [] {
      SortByKeeps(key, s[1..]);
      InsertBySorts(key, s[0], SortBy(key, s[1..]));
      InsertByCounts(key, s[0], SortBy(key, s[1..]));
      assert s == [s[0]] + s[1..];
    }
  }

  // ----- the names of a list -----

  function Names<T>(key: T -> string, s: seq<T>): (r: seq<string>)
    ensures |r| == |s| && forall i :: 0 <= i < |s| ==> r[i] == key(s[i])
  {
    seq(|s|, i requires 0 <= i < |s| => key(s[i]))
  }

  lemma NamesAppend<T>(key: T -> string, a: seq<T>, b: seq<T>)
    ensures Names(key, a + b) == Names(key, a) + Names(key, b)
  {
  }

  lemma NamesPush<T>(key: T -> string, s: seq<T>, x: T)
    ensures Names(key, s + [x]) == Names(key, s) + [key(x)]
  {
  }

  lemma NamesWithout<T>(key: T -> string, s: seq<T>, j: nat)
    requires j < |s|
    ensures Names(key, s) == Names(key, s[..j]) + [key(s[j])] + Names(key, s[j + 1..])
  {
  }

  lemma TakeOut<T>(a: seq<T>, b: seq<T>, j: nat)
    requires a != [] && j < |b| && b[j] == a[0] && multiset(a) == multiset(b)
    ensures multiset(b[..j] + b[j + 1..]) == multiset(a[1..])
  {
    assert a == [a[0]] + a[1..];
    assert b == b[..j] + [b[j]] + b[j + 1..];
    assert multiset(b[..j] + b[j + 1..]) == multiset(b) - multiset{a[0]};
    assert multiset(a[1..]) == multiset(a) - multiset{a[0]};
  }

  /** Permutations have the same names. */
  lemma {:induction false} NamesPermute<T>(key: T -> string, a: seq<T>, b: seq<T>)
    requires multiset(a) == multiset(b)
    ensures multiset(Names(key, a)) == multiset(Names(key, b))
  {
    hide Names;
    if a == [] {
      assert |multiset(b)| == 0;
    } else {
      assert a[0] in multiset(a);
      var j :| 0 <= j < |b| && b[j] == a[0];
      TakeOut(a, b, j);
      NamesPermute(key, a[1..], b[..j] + b[j + 1..]);
      NamesAppend(key, b[..j], b[j + 1..]);
      NamesWithout(key, b, j);
      NamesWithout(key, a, 0);
      PutBack(key(a[0]), Names(key, b[..j]), Names(key, b[j + 1..]), Names(key, a[1..]));
    }
  }

  lemma PutBack<T>(x: T, front: seq<T>, back: seq<T>, rest: seq<T>)
    requires multiset(front + back) == multiset(rest)
    ensures multiset(front + [x] + back) == multiset([] + [x] + rest)
  {
  }

  ghost predicate NoRepeats(names: seq<string>) {
    forall i, j :: 0 <= i < j < |names| ==> names[i] != names[j]
  }

  lemma {:induction false} NoRepeatsCounts(names: seq<string>, n: string)
    ensures NoRepeats(names) ==> multiset(names)[n] <= 1
  {
    if names != [] {
      NoRepeatsCounts(names[1..], n);
      assert names == [names[0]] + names[1..];
      assert multiset(names)[n] == (if names[0] == n then 1 else 0) + multiset(names[1..])[n];
      if NoRepeats(names) { assert forall i :: 0 <= i < |names| - 1 ==> names[1..][i] == names[i + 1]; }
      if n in names[1..] {
        var k :| 0 <= k < |names[1..]| && names[1..][k] == n;
        assert names[k + 1] == n;
      }
    }
  }

  lemma RepeatCounts(names: seq<string>, i: nat, j: nat)
    requires i < j < |names|
    ensures names[i] != names[j] || multiset(names)[names[i]] >= 2
  {
    assert names == names[..i] + [names[i]] + names[i + 1..j] + [names[j]] + names[j + 1..];
  }

  /** Names that occur at most once do not repeat. */
  lemma CountsNoRepeats(names: seq<string>)
    requires forall n :: multiset(names)[n] <= 1
    ensures NoRepeats(names)
  {
    forall i, j | 0 <= i < j < |names|
      ensures names[i] != names[j]
    {
      RepeatCounts(names, i, j);
    }
  }
}
