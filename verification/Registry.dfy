/** Image references (src/registry/mod.rs, `split_repository` of
    src/registry/digest.rs and `strip_tag` of src/probe.rs): three normalisers
    that have to name the same image the same way. */
module Registry {
  import opened Wrappers
  import opened Text

  datatype ImageRef = ImageRef(repository: string, tag: string)

  const LIBRARY: string := "library/"

  /** The first `/`-separated segment and what follows the slash, if any. */
  function FirstSegment(repository: string): (string, Option<string>) {
    match SplitOnce(repository, '/')
    case Some((first, rest)) => (first, Some(rest))
    case None => (repository, None)
  }

  predicate LooksLikeHost(segment: string) {
    Lower(segment) == "localhost" || '.' in segment || ':' in segment
  }

  /** `(registry host, path within it)`; no host segment means Docker Hub. */
  function SplitRepository(repository: string): (string, string) {
    var (first, rest) := FirstSegment(repository);
    if LooksLikeHost(first) then (first, if rest.Some? then rest.value else "")
    else ("docker.io", repository)
  }

  predicate IsDockerHubHost(host: string) { host == "docker.io" || host == "index.docker.io" }

  function StripDockerHubHost(name: string): string {
    var (host, rest) := SplitRepository(name);
    if IsDockerHubHost(host) && rest != "" && IsDockerHubHost(SplitRepository(rest).0) then rest else name
  }

  function StripLibrary(path: string): string {
    if LIBRARY <= path && '/' !in path[|LIBRARY|..] then path[|LIBRARY|..] else path
  }

  function FamiliarRepository(repository: string): string {
    var (host, path) := SplitRepository(repository);
    if IsDockerHubHost(host) then StripLibrary(path) else repository
  }

  /** The `rsplit_once(':')` guard of `ImageRef::parse`. */
  function SplitNameTag(input: string): (string, string) {
    match RFind(input, ':')
    case Some(i) => if '/' !in input[i + 1..] then (input[..i], input[i + 1..]) else (input, "latest")
    case None => (input, "latest")
  }

  function Qualify(name: string): string {
    if '/' in name then name else LIBRARY + name
  }

  function RepositoryOf(name: string): string { Qualify(StripDockerHubHost(name)) }

  function Parse(input: string): ImageRef {
    var (name, tag) := SplitNameTag(input);
    ImageRef(RepositoryOf(name), tag)
  }

  function StripTag(image: string): string {
    match (RFind(image, ':'), RFind(image, '/'))
    case (Some(colon), Some(slash)) => if colon > slash then image[..colon] else image
    case (Some(colon), None) => image[..colon]
    case _ => image
  }

  // ----- the tag colon -----

  /** Both normalisers cut every string at the same colon. */
  lemma SameColon(input: string)
    ensures StripTag(input) == SplitNameTag(input).0
    ensures ':' !in SplitNameTag(input).1 && '/' !in SplitNameTag(input).1
  {
    match (RFind(input, ':'), RFind(input, '/')) {
      case (Some(colon), Some(slash)) =>
        if colon > slash {
          assert input[colon + 1..] == input[slash + 1..][colon - slash..];
        } else {
          assert input[slash] == input[colon + 1..][slash - colon - 1];
        }
      case _ =>
    }
  }

  lemma JoinSplits(repository: string, tag: string)
    requires ':' !in tag && '/' !in tag
    ensures SplitNameTag(repository + ":" + tag) == (repository, tag)
  {
    var s := repository + ":" + tag;
    assert s[|repository|] == ':';
    var i := RFind(s, ':').value;
    assert forall k :: |repository| < k < |s| ==> s[k] == tag[k - |repository| - 1];
    assert forall k :: i < k < |s| ==> s[k] == s[i + 1..][k - i - 1];
    assert i == |repository|;
    assert s[..|repository|] == repository && s[|repository| + 1..] == tag;
  }

  lemma TagsDiffer(repository: string, a: string, b: string)
    requires ':' !in a && '/' !in a && ':' !in b && '/' !in b && a != b
    ensures Parse(repository + ":" + a) != Parse(repository + ":" + b)
  {
    hide RepositoryOf;
    JoinSplits(repository, a);
    JoinSplits(repository, b);
  }

  // ----- which names survive a second pass -----

  predicate IsHubSegment(name: string) { IsDockerHubHost(FirstSegment(name).0) }

  /** `hub/hub/…`: a Hub host written in front of another Hub host. */
  predicate HasNestedHubHost(name: string) {
    && IsHubSegment(name)
    && FirstSegment(name).1.Some?
    && IsHubSegment(FirstSegment(name).1.value)
    && FirstSegment(FirstSegment(name).1.value).1.Some?
  }

  function NestedRest(name: string): string
    requires HasNestedHubHost(name)
  {
    FirstSegment(FirstSegment(name).1.value).1.value
  }

  /** `docker.io` or `index.docker.io` with nothing behind it. */
  predicate IsBareHubHost(name: string) { IsDockerHubHost(name) }

  lemma HubLooksLikeHost(segment: string)
    requires IsDockerHubHost(segment)
    ensures LooksLikeHost(segment) && '/' !in segment
  {
    assert segment[|segment| - 3] == '.';
  }

  lemma QualifiedHasNoHost(name: string)
    requires '/' !in name
    ensures SplitRepository(LIBRARY + name) == ("docker.io", LIBRARY + name)
    ensures StripDockerHubHost(LIBRARY + name) == LIBRARY + name
    ensures FamiliarRepository(LIBRARY + name) == name
  {
    var s := LIBRARY + name;
    assert FirstSegment(s) == ("library", Some(name)) by {
      assert s == "library" + ['/'] + name;
      SplitsAtFirst("library", '/', name);
    }
    hide FirstSegment;
    assert !LooksLikeHost("library") by {
      assert Lower("library")[0] == 'l' && Lower("library")[1] == 'i';
    }
    assert s[|LIBRARY|..] == name;
  }

  lemma SlashFree(name: string)
    ensures '/' in name <==> FirstSegment(name).1.Some?
    ensures IsBareHubHost(name) <==> IsHubSegment(name) && FirstSegment(name).1.None?
    ensures FirstSegment(name).1.Some? ==> |FirstSegment(name).1.value| < |name|
  {
    if IsDockerHubHost(name) { HubLooksLikeHost(name); }
  }

  /** Parsing the rendered `repository:tag` gives the reference back, except for
      a name that starts with two Hub hosts and goes on inside Docker Hub. */
  lemma ReparseIdentity(input: string)
    ensures
      var r := Parse(input);
      var name := StripTag(input);
      Parse(r.repository + ":" + r.tag) == r <==>
      !(HasNestedHubHost(name) && NestedRest(name) != "" && IsDockerHubHost(SplitRepository(NestedRest(name)).0))
  {
    SameColon(input);
    var r, name := Parse(input), StripTag(input);
    JoinSplits(r.repository, r.tag);
    RequalifyIdentity(name);
  }

  lemma RequalifyIdentity(name: string)
    ensures
      RepositoryOf(RepositoryOf(name)) == RepositoryOf(name) <==>
      !(HasNestedHubHost(name) && NestedRest(name) != "" && IsDockerHubHost(SplitRepository(NestedRest(name)).0))
  {
    hide FirstSegment, StripLibrary, LooksLikeHost;
    var stripped := StripDockerHubHost(name);
    HubSteps(name);
    HubSteps(stripped);
    if FirstSegment(name).1.Some? { HubSteps(FirstSegment(name).1.value); }
    if '/' !in stripped {
      QualifiedHasNoHost(stripped);
      assert (LIBRARY + stripped)[7] == '/';
    } else {
      var again := StripDockerHubHost(stripped);
      if '/' !in again { QualifiedHasNoHost(again); }
      assert HasNestedHubHost(name) ==> SplitRepository(stripped) == (FirstSegment(stripped).0, NestedRest(name));
    }
  }

  /** What one application of the host stripper does, by the leading segment. */
  lemma HubSteps(name: string)
    ensures !IsHubSegment(name) ==> StripDockerHubHost(name) == name
    ensures IsHubSegment(name) ==>
              LooksLikeHost(FirstSegment(name).0)
              && SplitRepository(name) ==
                 (FirstSegment(name).0, if FirstSegment(name).1.Some? then FirstSegment(name).1.value else "")
    ensures StripDockerHubHost(name) == name || |StripDockerHubHost(name)| < |name|
    ensures '/' in name <==> FirstSegment(name).1.Some?
    ensures IsHubSegment(name) ==> name != ""
    ensures FirstSegment(name).1.Some? ==> |FirstSegment(name).1.value| < |name|
  {
    SlashFree(name);
    if IsHubSegment(name) { HubLooksLikeHost(FirstSegment(name).0); }
  }

  lemma StripLibraryNoLonger(path: string)
    ensures |StripLibrary(path)| <= |path|
  {
  }

  /** Docker's familiar name of the parsed repository is the familiar name of
      the untagged reference, except for a bare Hub host and for a name that
      starts with two Hub hosts. */
  lemma FamiliarAgrees(input: string)
    ensures
      var name := StripTag(input);
      FamiliarRepository(Parse(input).repository) == FamiliarRepository(name) <==>
      !IsBareHubHost(name) && !HasNestedHubHost(name)
  {
    SameColon(input);
    var name := StripTag(input);
    var stripped := StripDockerHubHost(name);
    if '/' !in stripped { QualifiedHasNoHost(stripped); }
    HubSteps(name);
    HubSteps(stripped);
    SlashFree(name);
    SlashFree(stripped);
    if IsHubSegment(name) {
      HubFamiliar(name);
    }
  }

  lemma HubFamiliar(name: string)
    requires IsHubSegment(name)
    ensures FamiliarRepository(RepositoryOf(name)) == FamiliarRepository(name) <==>
            !IsBareHubHost(name) && !HasNestedHubHost(name)
  {
    HubSteps(name);
    SlashFree(name);
    match FirstSegment(name).1 {
      case None =>
        QualifiedHasNoHost(name);
        assert FamiliarRepository(name) == StripLibrary("") == "";
      case Some(rest) =>
        HubSteps(rest);
        SlashFree(rest);
        assert FamiliarRepository(name) == StripLibrary(rest);
        if StripDockerHubHost(name) == rest {
          if '/' !in rest {
            QualifiedHasNoHost(rest);
          } else if IsHubSegment(rest) {
            LongLibrary(rest);
            StripLibraryNoLonger(FirstSegment(rest).1.value);
          }
        }
    }
  }

  lemma LongLibrary(path: string)
    requires IsHubSegment(path)
    ensures StripLibrary(path) == path
  {
    var first := FirstSegment(path).0;
    assert path[0] == first[0] && first[0] != LIBRARY[0];
  }

  // ----- names on which the normalisers disagree -----

  const NESTED: string := "docker.io/index.docker.io/foo"

  /** A Hub host written twice: the rendered reference does not parse back, and
      the familiar names differ. */
  lemma NestedHubExample()
    ensures var r := Parse(NESTED); Parse(r.repository + ":" + r.tag) != r
    ensures FamiliarRepository(Parse(NESTED).repository) != FamiliarRepository(StripTag(NESTED))
  {
    hide StripTag, Parse, FamiliarRepository, HasNestedHubHost, NestedRest, SplitRepository;
    NoTag(NESTED);
    NestedHubShape();
    HubOfPlain("foo");
    ReparseIdentity(NESTED);
    FamiliarAgrees(NESTED);
  }

  lemma NestedHubShape()
    ensures HasNestedHubHost(NESTED) && NestedRest(NESTED) == "foo"
  {
    hide FirstSegment, HasNestedHubHost, NestedRest;
    assert NESTED == "docker.io" + "/" + ("index.docker.io" + "/" + "foo");
    NestedOf("docker.io", "index.docker.io", "foo");
  }

  lemma NestedOf(first: string, second: string, rest: string)
    requires IsDockerHubHost(first) && IsDockerHubHost(second) && '/' !in rest
    ensures var name := first + "/" + (second + "/" + rest); HasNestedHubHost(name) && NestedRest(name) == rest
  {
    hide FirstSegment, LooksLikeHost;
    HubLooksLikeHost(first);
    HubLooksLikeHost(second);
    SegmentOf(first, second + "/" + rest);
    SegmentOf(second, rest);
    SlashFree(second + "/" + rest);
    assert (second + "/" + rest)[|second|] == '/';
  }

  /** A Hub host and nothing else. */
  lemma BareHubExample()
    ensures FamiliarRepository(Parse("docker.io").repository) != FamiliarRepository(StripTag("docker.io"))
  {
    hide StripTag, Parse, FamiliarRepository;
    NoTag("docker.io");
    FamiliarAgrees("docker.io");
  }

  lemma NoTag(input: string)
    requires ':' !in input
    ensures StripTag(input) == input
  {
  }

  lemma SegmentOf(first: string, rest: string)
    requires '/' !in first
    ensures FirstSegment(first + "/" + rest) == (first, Some(rest))
  {
    assert first + "/" + rest == first + ['/'] + rest;
    SplitsAtFirst(first, '/', rest);
  }

  lemma HubOfPlain(name: string)
    requires '/' !in name && !LooksLikeHost(name)
    ensures SplitRepository(name).0 == "docker.io"
  {
  }
}
