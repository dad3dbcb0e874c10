/** The "is there a newer image?" verdict (src/probe.rs). */
module Probe {
  import opened Wrappers
  import opened Text
  import Registry

  /** A fetched digest, or why there is none. */
  datatype ProbeOutcome =
    | Fetched(local: seq<string>, latest: string, tagImageId: Option<string>)
    | Pinned
    | NoAnswer(reason: FetchError)

  datatype FetchError = AuthRequired | CredentialsRejected | NetworkUnavailable | OtherError

  /** What an image inspect tells: the RepoDigests and the image id. */
  datatype LocalImage = LocalImage(repoDigests: seq<string>, id: Option<string>)

  /** Pinned to fixed bits: a bare image id or a digest reference. */
  predicate IsPinned(image: string) { "sha256:" <= image || '@' in image }

  predicate BehindTag(container: Option<string>, tag: Option<string>) {
    container.Some? && tag.Some? && container.value != tag.value
  }

  /** `None` when no local digest is known. */
  function UpdateAvailable(digests: seq<string>, latest: string): Option<bool> {
    if digests == [] then None else Some(latest !in digests)
  }

  function UpdateAvailableFor(digests: seq<string>, latest: string, container: Option<string>, tag: Option<string>)
    : Option<bool>
  {
    if digests != [] && BehindTag(container, tag) then Some(true) else UpdateAvailable(digests, latest)
  }

  /** The manifest digests an image is recorded under, for one reference: those
      of the RepoDigests entries whose repository is the reference's. */
  function LocalManifestDigests(image: string, repoDigests: seq<string>): seq<string> {
    if repoDigests == [] then []
    else
      var rest := LocalManifestDigests(image, repoDigests[1..]);
      match SplitOnce(repoDigests[0], '@')
      case Some((repo, digest)) =>
        if Registry.FamiliarRepository(repo) == WantedRepository(image) then [digest] + rest else rest
      case None => rest
  }

  function WantedRepository(image: string): string {
    var undigested := match SplitOnce(image, '@') case Some((name, _)) => name case None => image;
    Registry.FamiliarRepository(Registry.StripTag(undigested))
  }

  /** A failed inspect leaves the local digests unknown. */
  function ProbeImage(image: string, inspected: Option<LocalImage>, fetched: Result<string, FetchError>): ProbeOutcome {
    if IsPinned(image) then Pinned
    else
      match fetched
      case Failure(reason) => NoAnswer(reason)
      case Success(latest) =>
        match inspected
        case None => Fetched([], latest, None)
        case Some(local) => Fetched(LocalManifestDigests(image, local.repoDigests), latest, local.id)
  }

  /** The digest is collected exactly when the daemon records it under the
      reference's repository, however that is spelled. */
  lemma {:induction false} DigestCollected(image: string, repoDigests: seq<string>, digest: string)
    ensures digest in LocalManifestDigests(image, repoDigests) <==>
            exists entry, repo :: entry in repoDigests && SplitOnce(entry, '@') == Some((repo, digest))
                                  && Registry.FamiliarRepository(repo) == WantedRepository(image)
  {
    hide SplitOnce, WantedRepository, Registry.FamiliarRepository;
    if repoDigests != [] {
      DigestCollected(image, repoDigests[1..], digest);
      assert repoDigests == [repoDigests[0]] + repoDigests[1..];
    }
  }

  /** Once the tag carries the upstream digest and the container runs the tag's
      image, there is no update, whatever else is recorded. */
  lemma CurrentIsUpToDate(image: string, repoDigests: seq<string>, latest: string, repo: string,
                          running: Option<string>)
    requires '@' !in repo && (repo + "@" + latest) in repoDigests
    requires Registry.FamiliarRepository(repo) == WantedRepository(image)
    ensures UpdateAvailableFor(LocalManifestDigests(image, repoDigests), latest, running, running) == Some(false)
  {
    hide WantedRepository, Registry.FamiliarRepository;
    SplitsAtFirst(repo, '@', latest);
    assert repo + "@" + latest == repo + ['@'] + latest;
    DigestCollected(image, repoDigests, latest);
  }
}
