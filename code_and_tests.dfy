/**
 * Places where the repository's tests expect something other than what the
 * code does, stated about the model of the code.
 */
module CodeAndTests {
  import opened Wrappers
  import opened Strings
  import opened Change
  import opened KubeApi
  import opened K8sNaming
  import K8sJob
  import LegacyJob
  import LegacySetup

  /** The image tests/backend/apply_test.go expects when a Change names none. */
  const TestedDefaultImage := "ghcr.io/manno/baca-runner:latest"

  /** A Change without an image runs on K8sJob.DefaultImage, which is not the
    * image that test expects. */
  lemma DefaultImageDiffersFromTest(b: K8sJob.Backend, spec: ChangeSpec, repoURL: string, retries: int,
                                    forkOrg: string, url: ParsedUrl, suffix: string, marshalled: Result<string, string>)
    requires spec.image == ""
    ensures var job := K8sJob.JobSpec(b, spec, repoURL, retries, forkOrg, url, suffix, marshalled);
      |job.pod.containers| == 1 && job.pod.containers[0].image == K8sJob.DefaultImage &&
      job.pod.containers[0].image != TestedDefaultImage
  {
    var pod := K8sJob.PodFor(b, spec, repoURL, forkOrg, marshalled);
    K8sJob.PodPipeline(b, spec, repoURL, forkOrg, marshalled);
    assert pod.containers[0] in pod.initContainers + pod.containers;
    DefaultImagesDiffer();
  }

  lemma DefaultImagesDiffer()
    ensures K8sJob.DefaultImage != TestedDefaultImage
  {
    var d := K8sJob.DefaultImage;
    assert d[17] != TestedDefaultImage[17];
  }

  /** The older backend's Setup writes the secret its own jobs import, but a
    * job of the Kubernetes backend imports a secret of another name, so a
    * cluster set up by the older Setup leaves those jobs without credentials. */
  lemma SecretNamesDiffer()
    ensures LegacySetup.SecretName == LegacyJob.CredentialsSecret
    ensures LegacySetup.SecretName != K8sJob.CredentialsSecret
  {
    var k := K8sJob.CredentialsSecret;
    assert k[1] != LegacySetup.SecretName[1];
  }

  /** A path without a leading "/", a ".git" suffix, any slash or upper-case
    * letter, and short enough, is its own path part. */
  lemma PathPartOfPlain(path: string, max: nat)
    requires !HasPrefix(path, "/") && !HasSuffix(path, ".git") && '/' !in path
    requires IsLower(path) && |path| <= max
    ensures PathPart(path, max) == path
  {
    AbsentCharNotContained(path, "/", '/');
    ReplaceAllAbsent(path, "/", "-");
    ToLowerOfLower(path);
  }

  /** Trimming "/owner/repo": the leading "/" goes, and no ".git" follows. */
  lemma OwnerRepoTrimmed(owner: string, repo: string)
    requires '/' !in repo && !HasSuffix(repo, ".git")
    ensures TrimSuffix(TrimPrefix("/" + owner + "/" + repo, "/"), ".git") == owner + "/" + repo
  {
    var p := owner + "/" + repo;
    assert "/" + owner + "/" + repo == "/" + p;
    PrefixOfAppend("/", p);
    assert ("/" + p)[1..] == p;
    assert p[|p| - |repo|..] == repo;
    if |repo| >= 4 {
      assert p[|p| - 4..] == repo[|repo| - 4..];
    } else if |p| >= 4 {
      assert p[|p| - 4..][3 - |repo|] == '/';
    }
  }

  /** The path part of "/owner/repo" is "owner-repo". */
  lemma OwnerRepoPathPart(owner: string, repo: string)
    requires '/' !in owner && '/' !in repo && IsLower(owner) && IsLower(repo)
    requires !HasSuffix(repo, ".git") && |owner| + |repo| < 50
    ensures PathPart("/" + owner + "/" + repo, 50) == owner + "-" + repo
  {
    var q := owner + "-" + repo;
    OwnerRepoTrimmed(owner, repo);
    ReplaceSingle(owner, '/', repo, '-');
    assert ReplaceAll(owner + "/" + repo, "/", "-") == q;
    NamePiecesLower();
    LowerConcat3(owner, "-", repo);
    ToLowerOfLower(q);
  }

  /** The older backend names the job of "/owner/repo" "bca-owner-repo",
    * with nothing after it, so no random suffix follows the "-" that
    * internal/backend/apply_test.go expects after "bca-manno-fleet". */
  lemma LegacyNameHasNoSuffix(scheme: string, owner: string, repo: string)
    requires '/' !in owner && '/' !in repo && IsLower(owner) && IsLower(repo)
    requires !HasSuffix(repo, ".git") && |owner| + |repo| < 50
    ensures LegacyJob.LegacyJobName(Parsed(scheme, "/" + owner + "/" + repo)) == "bca-" + owner + "-" + repo
    ensures !HasPrefix(LegacyJob.LegacyJobName(Parsed(scheme, "/" + owner + "/" + repo)), "bca-" + owner + "-" + repo + "-")
  {
    OwnerRepoPathPart(owner, repo);
    AppendAssoc("bca-", owner, "-", owner + "-");
    AppendAssoc("bca-", owner + "-", repo, owner + "-" + repo);
  }

  /** A path that needs no cleaning names the older backend's job "bca-" and
    * the path, and a URL that fails to parse names it "bca-job": neither
    * starts with "bca-job-" unless the path itself starts with "job-".
    * "not-a-valid-url", which url.Parse accepts as a relative path, is such a
    * path, so internal/backend/apply_test.go's expected "bca-job-" prefix is
    * not what the code produces. */
  lemma LegacyFallbackIsNotTested(scheme: string, path: string)
    requires !HasPrefix(path, "/") && !HasSuffix(path, ".git") && '/' !in path
    requires IsLower(path) && |path| <= 50
    ensures LegacyJob.LegacyJobName(Parsed(scheme, path)) == "bca-" + path
    ensures HasPrefix(LegacyJob.LegacyJobName(Parsed(scheme, path)), "bca-job-") <==> HasPrefix(path, "job-")
    ensures !HasPrefix(LegacyJob.LegacyJobName(ParseError), "bca-job-")
  {
    PathPartOfPlain(path, 50);
    assert LegacyJob.LegacyJobName(Parsed(scheme, path)) == "bca-" + path;
    PrefixedIff("bca-", path, "job-");
    ParseErrorNameIsShort();
  }

  /** "bca-job" is too short to start with "bca-job-". */
  lemma ParseErrorNameIsShort()
    ensures !HasPrefix(LegacyJob.LegacyJobName(ParseError), "bca-job-")
  {
    assert |LegacyJob.LegacyJobName(ParseError)| == 7;
  }

  /** A fixed head followed by s starts with head + x exactly when s starts with x. */
  lemma PrefixedIff(head: string, s: string, x: string)
    ensures HasPrefix(head + s, head + x) <==> HasPrefix(s, x)
  {
    var r := head + s;
    if HasPrefix(s, x) {
      assert r[..|head| + |x|] == head + x;
    }
    if HasPrefix(r, head + x) {
      assert s[..|x|] == r[|head|..|head| + |x|] == (head + x)[|head|..];
    }
  }

  /** The path of the test's URL meets the conditions above. */
  lemma TestedInvalidUrlIsPlain()
    ensures var p := "not-a-valid-url";
      !HasPrefix(p, "/") && !HasSuffix(p, ".git") && '/' !in p && IsLower(p) && |p| <= 50 && !HasPrefix(p, "job-")
  {
    var p := "not-a-valid-url";
    assert p[0] == 'n';
    assert p[|p| - 1] == 'l';
  }

  /** The owner and repository of the test's https://github.com/manno/fleet
    * meet the conditions of LegacyNameHasNoSuffix. */
  lemma TestedFleetIsPlain()
    ensures var owner, repo := "manno", "fleet";
      '/' !in owner && '/' !in repo && IsLower(owner) && IsLower(repo) &&
      !HasSuffix(repo, ".git") && |owner| + |repo| < 50
  {
    var repo := "fleet";
    assert repo[|repo| - 1] == 't';
  }
}
