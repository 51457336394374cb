/**
 * Cloning a repository with git (internal/git/clone.go).  The environment's
 * GITHUB_TOKEN is a parameter; URL parsing is a parser function to a URL
 * record whose rendering is given below; creating the output directory and
 * running git are given by their outcome (None for success, Some(error)).
 */
module GitClone {
  import opened Wrappers
  import opened Strings

  /** A user name with an optional password. */
  datatype Userinfo = Userinfo(username: string, password: Option<string>)

  /** The URL parts the token injection touches.  `authority` is the host
    * and everything after it. */
  datatype Url = Url(scheme: string, user: Option<Userinfo>, rest: string)

  function UserinfoString(u: Userinfo): string {
    if u.password.Some? then u.username + ":" + u.password.value else u.username
  }

  /** url.URL.String for these parts (escaping left out). */
  function UrlString(u: Url): string {
    u.scheme + "://" + (if u.user.Some? then UserinfoString(u.user.value) + "@" else "") + u.rest
  }

  type Parser = string -> Result<Url, string>

  /**
   * injectToken: the URL unchanged without a token or for a URL that is not
   * https; otherwise the parsed URL with the token as user name and an
   * empty password, or the parse error.
   */
  function InjectToken(repoURL: string, token: string, parse: Parser): (r: Result<string, string>)
    ensures (token == "" || !HasPrefix(repoURL, "https://")) ==> r == Ok(repoURL)
    ensures token != "" && HasPrefix(repoURL, "https://") && parse(repoURL).Err? ==>
      r == Err("invalid repository URL: " + parse(repoURL).error)
    ensures token != "" && HasPrefix(repoURL, "https://") && parse(repoURL).Ok? ==>
      r == Ok(UrlString(parse(repoURL).value.(user := Some(Userinfo(token, Some(""))))))
  {
    if token == "" then Ok(repoURL)
    else if !HasPrefix(repoURL, "https://") then Ok(repoURL)
    else match parse(repoURL)
      case Err(e) => Err("invalid repository URL: " + e)
      case Ok(u) => Ok(UrlString(u.(user := Some(Userinfo(token, Some(""))))))
  }

  /** When the https URL parses into its scheme and the rest, without user
    * information, the token lands right after "https://", followed by ":@"
    * and the rest of the URL. */
  lemma InjectTokenHttps(rest: string, token: string, parse: Parser)
    requires token != "" && parse("https://" + rest) == Ok(Url("https", None, rest))
    ensures InjectToken("https://" + rest, token, parse) == Ok("https://" + token + ":@" + rest)
  {
    var pre := "https://";
    PrefixOfAppend(pre, rest);
    var v := Url("https", Some(Userinfo(token, Some(""))), rest);
    assert "https" + "://" == pre;
    assert UserinfoString(v.user.value) + "@" == token + ":@";
    assert UrlString(v) == pre + (token + ":@") + rest;
    AppendAssoc(pre, token, ":@", token + ":@");
  }

  /** Clone's git arguments: "--branch b" only for a non-empty branch. */
  function CloneArgs(branch: string, authURL: string, outputDir: string): seq<string> {
    ["clone"] + (if branch != "" then ["--branch", branch] else []) + [authURL, outputDir]
  }

  /**
   * Clone: create the output directory, prepare the URL, then run git.  The
   * first failing step's error is returned; git runs only when the first
   * two succeed.  `ran` is the argument list git ran with.
   */
  method Clone(repoURL: string, outputDir: string, branch: string, token: string, parse: Parser,
               mkdir: Option<string>, git: seq<string> -> Option<string>)
    returns (r: Result<(), string>, ran: Option<seq<string>>)
    ensures mkdir.Some? ==> r == Err("failed to create output directory: " + mkdir.value) && ran.None?
    ensures mkdir.None? && InjectToken(repoURL, token, parse).Err? ==>
      r == Err("failed to prepare repository URL: " + InjectToken(repoURL, token, parse).error) && ran.None?
    ensures mkdir.None? && InjectToken(repoURL, token, parse).Ok? ==>
      var args := CloneArgs(branch, InjectToken(repoURL, token, parse).value, outputDir);
      && ran == Some(args)
      && (git(args).None? ==> r == Ok(()))
      && (git(args).Some? ==> r == Err("git clone failed: " + git(args).value))
  {
    if mkdir.Some? {
      return Err("failed to create output directory: " + mkdir.value), None;
    }
    var authenticated := InjectToken(repoURL, token, parse);
    if authenticated.Err? {
      return Err("failed to prepare repository URL: " + authenticated.error), None;
    }
    var args := ["clone"];
    if branch != "" {
      args := args + ["--branch", branch];
    }
    args := args + [authenticated.value, outputDir];
    assert args == CloneArgs(branch, authenticated.value, outputDir);
    ran := Some(args);
    var err := git(args);
    if err.Some? {
      return Err("git clone failed: " + err.value), ran;
    }
    return Ok(()), ran;
  }

  /** Clone's argument list starts with "clone", ends with the URL and the
    * directory, and carries "--branch" right after "clone" exactly when a
    * branch is given. */
  lemma CloneArgsShape(branch: string, authURL: string, outputDir: string)
    ensures var args := CloneArgs(branch, authURL, outputDir);
      && args[0] == "clone"
      && args[|args| - 2] == authURL && args[|args| - 1] == outputDir
      && (branch != "" <==> |args| == 5)
      && (branch == "" <==> |args| == 3)
      && (branch != "" ==> args[1] == "--branch" && args[2] == branch)
  {
  }

  /** CreateBranch: `git checkout -b <branch>` inside the repository. */
  method CreateBranch(repoPath: string, branchName: string, git: (string, seq<string>) -> Option<string>)
    returns (r: Result<(), string>)
    ensures git(repoPath, ["checkout", "-b", branchName]).None? ==> r == Ok(())
    ensures git(repoPath, ["checkout", "-b", branchName]).Some? ==>
      r == Err("failed to create branch: " + git(repoPath, ["checkout", "-b", branchName]).value)
  {
    var err := git(repoPath, ["checkout", "-b", branchName]);
    if err.Some? {
      return Err("failed to create branch: " + err.value);
    }
    return Ok(());
  }

  /** ExtractRepoName: the last path element, without ".git" when the element
    * is longer than ".git" itself. */
  function ExtractRepoName(repoURL: string): (r: string)
    ensures r != ""
  {
    var base := Base(repoURL);
    if |base| > 4 && base[|base| - 4..] == ".git" then base[..|base| - 4] else base
  }

  /** A URL ending in "/name.git" or "/name" names the repository "name". */
  lemma ExtractRepoNameOf(prefix: string, name: string)
    requires name != "" && '/' !in name && !HasSuffix(name, ".git")
    ensures ExtractRepoName(prefix + "/" + name + ".git") == name
    ensures ExtractRepoName(prefix + "/" + name) == name
  {
    var n := name + ".git";
    assert '/' !in n by {
      assert forall x :: x in n ==> x in name || x in ".git";
    }
    assert prefix + "/" + name + ".git" == prefix + "/" + n;
    BaseOf(prefix, n);
    assert n[|n| - 4..] == ".git";
    assert n[..|n| - 4] == name;
    BaseOf(prefix, name);
  }

  /** A last element that is exactly ".git" is kept whole. */
  lemma ExtractRepoNameKeepsBareGit(prefix: string)
    ensures ExtractRepoName(prefix + "/.git") == ".git"
  {
    var g := ".git";
    assert '/' !in g;
    assert prefix + "/.git" == prefix + "/" + g;
    BaseOf(prefix, g);
  }
}
