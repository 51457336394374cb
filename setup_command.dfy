/**
 * The credential assembly of the `setup` command (cmd/setup.go, RunE).
 * Flags, environment variables, the home directory, file reads and the
 * backend are inputs; the backend's Setup is a function from the assembled
 * credentials to its outcome, and the method reports the map it was given.
 */
module SetupCommand {
  import opened Wrappers
  import KubeApi

  /** What the command reads from its flags and from the environment. */
  datatype Inputs = Inputs(
    githubFlag: string, copilotFlag: string, apiKeyFlag: string, geminiOAuth: bool,
    githubEnv: string, copilotEnv: string, apiKeyEnv: string)

  datatype SetupCmdError =
    | GithubTokenRequired
    | BothGeminiAuth
    | HomeDirFailed(cause: string)
    | ReadFailed(key: string, cause: string)
    | BackendFailed(cause: string)
    | SetupFailed(cause: string)
  {
    function Message(): string {
      match this
      case GithubTokenRequired => "github token is required: use --github-token flag or GITHUB_TOKEN env var"
      case BothGeminiAuth => "choose either API key or OAuth authentication for gemini-cli"
      case HomeDirFailed(e) => "failed to get home directory: " + e
      case ReadFailed(key, e) => "failed to read " + key + ": " + e + " (ensure gemini-cli is authenticated)"
      case BackendFailed(e) => e
      case SetupFailed(e) => e
    }
  }

  /** A flag takes precedence over its environment variable unless it is empty. */
  function FlagOrEnv(flag: string, env: string): (r: string)
    ensures flag != "" ==> r == flag
    ensures flag == "" ==> r == env
    ensures r == "" <==> flag == "" && env == ""
  {
    if flag == "" then env else flag
  }

  function GithubToken(opts: Inputs): string { FlagOrEnv(opts.githubFlag, opts.githubEnv) }
  function CopilotToken(opts: Inputs): string { FlagOrEnv(opts.copilotFlag, opts.copilotEnv) }
  function ApiKey(opts: Inputs): string { FlagOrEnv(opts.apiKeyFlag, opts.apiKeyEnv) }

  function GeminiKey(file: string): string { "GEMINI_" + file }

  function GeminiPath(geminiDir: string, file: string): string { geminiDir + "/" + file }

  function GeminiDir(home: string): string { home + "/.gemini" }

  /** The content of a file read successfully, "" otherwise. */
  function Content(read: Result<string, string>): string {
    if read.Ok? then read.value else ""
  }

  /** The `GEMINI_*` entries the read loop adds for `files`. */
  function OAuthCredentials(geminiDir: string, read: string -> Result<string, string>,
                            files: seq<string>): map<string, string>
  {
    if files == [] then map[]
    else
      var f := files[|files| - 1];
      OAuthCredentials(geminiDir, read, files[..|files| - 1])[GeminiKey(f) := Content(read(GeminiPath(geminiDir, f)))]
  }

  /** The tokens the command stores before the OAuth files. */
  function TokenCredentials(github: string, copilot: string, apiKey: string): map<string, string> {
    var m := map["GITHUB_TOKEN" := github];
    var m := if copilot != "" then m["COPILOT_TOKEN" := copilot] else m;
    if apiKey != "" then m["GEMINI_API_KEY" := apiKey] else m
  }

  /** The map handed to the backend's Setup. */
  function Credentials(opts: Inputs, home: string, read: string -> Result<string, string>): map<string, string> {
    TokenCredentials(GithubToken(opts), CopilotToken(opts), ApiKey(opts)) +
      if opts.geminiOAuth then OAuthCredentials(GeminiDir(home), read, KubeApi.GeminiFiles) else map[]
  }

  /** Every OAuth file appears among `files` and reads successfully. */
  predicate AllRead(geminiDir: string, read: string -> Result<string, string>, files: seq<string>) {
    forall f :: f in files ==> read(GeminiPath(geminiDir, f)).Ok?
  }

  /** All of the command's own checks pass, so it reaches the backend's Setup. */
  predicate ReachesSetup(opts: Inputs, home: Result<string, string>, read: string -> Result<string, string>,
                         backend: Result<(), string>) {
    && GithubToken(opts) != ""
    && !(ApiKey(opts) != "" && opts.geminiOAuth)
    && (opts.geminiOAuth ==> home.Ok? && AllRead(GeminiDir(home.value), read, KubeApi.GeminiFiles))
    && backend.Ok?
  }

  /**
   * The read loop over the OAuth files, adding `GEMINI_<file>` for each.
   * The files come in a fixed order here; Go ranges over a map, so which
   * failing file is reported first is not fixed there.
   */
  method AddGeminiFiles(credentials: map<string, string>, geminiDir: string,
                        read: string -> Result<string, string>) returns (r: Result<map<string, string>, SetupCmdError>)
    ensures r.Ok? <==> AllRead(geminiDir, read, KubeApi.GeminiFiles)
    ensures r.Ok? ==> r.value == credentials + OAuthCredentials(geminiDir, read, KubeApi.GeminiFiles)
    ensures r.Err? ==> (r.error.ReadFailed? && r.error.key in KubeApi.GeminiFiles &&
      read(GeminiPath(geminiDir, r.error.key)) == Err(r.error.cause))
  {
    r := AddFiles(credentials, geminiDir, read, KubeApi.GeminiFiles);
  }

  /** The read loop over any list of files. */
  method AddFiles(credentials: map<string, string>, geminiDir: string,
                  read: string -> Result<string, string>, files: seq<string>)
    returns (r: Result<map<string, string>, SetupCmdError>)
    ensures r.Ok? <==> AllRead(geminiDir, read, files)
    ensures r.Ok? ==> r.value == credentials + OAuthCredentials(geminiDir, read, files)
    ensures r.Err? ==> (r.error.ReadFailed? && r.error.key in files &&
      read(GeminiPath(geminiDir, r.error.key)) == Err(r.error.cause))
  {
    var acc := credentials;
    var i := 0;
    while i < |files|
      invariant 0 <= i <= |files|
      invariant AllRead(geminiDir, read, files[..i])
      invariant acc == credentials + OAuthCredentials(geminiDir, read, files[..i])
    {
      var key := files[i];
      var content := read(GeminiPath(geminiDir, key));
      if content.Err? {
        return Err(ReadFailed(key, content.error));
      }
      assert files[..i + 1][..i] == files[..i];
      MergeThenUpdate(credentials, OAuthCredentials(geminiDir, read, files[..i]), GeminiKey(key), content.value);
      acc := acc[GeminiKey(key) := content.value];
      i := i + 1;
    }
    assert files[..i] == files;
    return Ok(acc);
  }

  lemma MergeEmpty(c: map<string, string>)
    ensures c + map[] == c
  {
  }

  /** Updating a merged map updates the entries merged last. */
  lemma MergeThenUpdate(c: map<string, string>, o: map<string, string>, k: string, v: string)
    ensures (c + o)[k := v] == c + o[k := v]
  {
  }

  /**
   * RunE from the flag fallbacks to the Setup call.  `home` is the home
   * directory lookup, `read` reads a file, `backend` is getting the cluster
   * configuration and client, and `setup` is the backend's Setup.  `passed`
   * is the map Setup received, None when Setup was not called.
   */
  method RunSetup(opts: Inputs, home: Result<string, string>, read: string -> Result<string, string>,
                  backend: Result<(), string>, setup: map<string, string> -> Result<(), string>)
    returns (r: Result<(), SetupCmdError>, passed: Option<map<string, string>>)
    ensures passed.Some? <==> ReachesSetup(opts, home, read, backend)
    ensures passed.Some? ==> (passed.value == Credentials(opts, if opts.geminiOAuth then home.value else "", read) &&
      if setup(passed.value).Ok? then r.Ok? else r == Err(SetupFailed(setup(passed.value).error)))
    ensures r.Ok? <==> passed.Some? && setup(passed.value).Ok?
    ensures GithubToken(opts) == "" ==> r == Err(GithubTokenRequired)
    ensures GithubToken(opts) != "" && ApiKey(opts) != "" && opts.geminiOAuth ==> r == Err(BothGeminiAuth)
    ensures (GithubToken(opts) != "" && !(ApiKey(opts) != "" && opts.geminiOAuth) && opts.geminiOAuth && home.Err?) ==>
      r == Err(HomeDirFailed(home.error))
    ensures r.Err? && r.error.ReadFailed? ==> (opts.geminiOAuth && home.Ok? &&
      r.error.key in KubeApi.GeminiFiles && read(GeminiPath(GeminiDir(home.value), r.error.key)).Err?)
    ensures (GithubToken(opts) != "" && !(ApiKey(opts) != "" && opts.geminiOAuth) && opts.geminiOAuth && home.Ok? &&
      !AllRead(GeminiDir(home.value), read, KubeApi.GeminiFiles)) ==> r.Err? && r.error.ReadFailed?
    ensures (GithubToken(opts) != "" && !(ApiKey(opts) != "" && opts.geminiOAuth) &&
      (opts.geminiOAuth ==> home.Ok? && AllRead(GeminiDir(home.value), read, KubeApi.GeminiFiles)) &&
      backend.Err?) ==> r == Err(BackendFailed(backend.error))
  {
    passed := None;
    var githubToken := opts.githubFlag;
    var copilotToken := opts.copilotFlag;
    var apiKey := opts.apiKeyFlag;
    if githubToken == "" {
      githubToken := opts.githubEnv;
    }
    if copilotToken == "" {
      copilotToken := opts.copilotEnv;
    }
    if apiKey == "" {
      apiKey := opts.apiKeyEnv;
    }
    if githubToken == "" {
      return Err(GithubTokenRequired), None;
    }
    var credentials := map["GITHUB_TOKEN" := githubToken];
    if copilotToken != "" {
      credentials := credentials["COPILOT_TOKEN" := copilotToken];
    }
    if apiKey != "" && opts.geminiOAuth {
      return Err(BothGeminiAuth), None;
    }
    if apiKey != "" {
      credentials := credentials["GEMINI_API_KEY" := apiKey];
    }
    assert githubToken == GithubToken(opts) && copilotToken == CopilotToken(opts) && apiKey == ApiKey(opts);
    assert credentials == TokenCredentials(githubToken, copilotToken, apiKey);
    if opts.geminiOAuth {
      if home.Err? {
        return Err(HomeDirFailed(home.error)), None;
      }
      var added := AddGeminiFiles(credentials, GeminiDir(home.value), read);
      if added.Err? {
        return Err(added.error), None;
      }
      credentials := added.value;
      assert credentials == Credentials(opts, home.value, read);
    } else {
      MergeEmpty(credentials);
      assert credentials == Credentials(opts, "", read);
    }
    if backend.Err? {
      return Err(BackendFailed(backend.error)), None;
    }
    passed := Some(credentials);
    var res := setup(credentials);
    if res.Err? {
      return Err(SetupFailed(res.error)), passed;
    }
    return Ok(()), passed;
  }

  lemma GeminiKeyInjective(a: string, b: string)
    requires GeminiKey(a) == GeminiKey(b)
    ensures a == b
  {
    assert a == GeminiKey(a)[7..];
  }

  /** The keys of the OAuth entries, and each file's entry holds its content. */
  lemma {:induction false} OAuthCredentialsShape(geminiDir: string, read: string -> Result<string, string>,
                                                 files: seq<string>)
    ensures OAuthCredentials(geminiDir, read, files).Keys == set f | f in files :: GeminiKey(f)
    ensures forall f :: f in files ==> (GeminiKey(f) in OAuthCredentials(geminiDir, read, files) &&
      OAuthCredentials(geminiDir, read, files)[GeminiKey(f)] == Content(read(GeminiPath(geminiDir, f))))
    decreases |files|
  {
    if files != [] {
      var init := files[..|files| - 1];
      var last := files[|files| - 1];
      OAuthCredentialsShape(geminiDir, read, init);
      assert files == init + [last];
      forall f | f in files
        ensures GeminiKey(f) in OAuthCredentials(geminiDir, read, files) &&
          OAuthCredentials(geminiDir, read, files)[GeminiKey(f)] == Content(read(GeminiPath(geminiDir, f)))
      {
        if GeminiKey(f) == GeminiKey(last) {
          GeminiKeyInjective(f, last);
        }
      }
    }
  }

  /** The token entries: GITHUB_TOKEN always, the other two when non-empty. */
  lemma TokenCredentialsShape(github: string, copilot: string, apiKey: string)
    ensures var m := TokenCredentials(github, copilot, apiKey);
      && "GITHUB_TOKEN" in m && m["GITHUB_TOKEN"] == github
      && ("COPILOT_TOKEN" in m <==> copilot != "") && (copilot != "" ==> m["COPILOT_TOKEN"] == copilot)
      && ("GEMINI_API_KEY" in m <==> apiKey != "") && (apiKey != "" ==> m["GEMINI_API_KEY"] == apiKey)
      && m.Keys == {"GITHUB_TOKEN"} + (if copilot != "" then {"COPILOT_TOKEN"} else {}) +
           (if apiKey != "" then {"GEMINI_API_KEY"} else {})
  {
  }

  /** The OAuth keys are longer than any token key, so they never collide. */
  lemma {:induction false} OAuthKeysAreLong(geminiDir: string, read: string -> Result<string, string>,
                                            files: seq<string>)
    requires forall f :: f in files ==> |f| >= 13
    ensures forall k :: k in OAuthCredentials(geminiDir, read, files) ==> |k| >= 20
    decreases |files|
  {
    if files != [] {
      OAuthKeysAreLong(geminiDir, read, files[..|files| - 1]);
    }
  }

  /** Token entries merged with the OAuth entries of `files`, for any files
    * whose keys are longer than the token keys. */
  lemma MergedShape(github: string, copilot: string, apiKey: string, oauth: bool,
                    geminiDir: string, read: string -> Result<string, string>, files: seq<string>)
    requires forall f :: f in files ==> |f| >= 13
    ensures var m := TokenCredentials(github, copilot, apiKey) +
                     (if oauth then OAuthCredentials(geminiDir, read, files) else map[]);
      && "GITHUB_TOKEN" in m && m["GITHUB_TOKEN"] == github
      && ("COPILOT_TOKEN" in m <==> copilot != "") && (copilot != "" ==> m["COPILOT_TOKEN"] == copilot)
      && ("GEMINI_API_KEY" in m <==> apiKey != "") && (apiKey != "" ==> m["GEMINI_API_KEY"] == apiKey)
      && (forall f :: f in files ==> (GeminiKey(f) in m <==> oauth))
      && (oauth ==> forall f :: f in files ==> m[GeminiKey(f)] == Content(read(GeminiPath(geminiDir, f))))
      && m.Keys == TokenCredentials(github, copilot, apiKey).Keys +
           (if oauth then set f | f in files :: GeminiKey(f) else {})
  {
    TokenCredentialsShape(github, copilot, apiKey);
    var t := TokenCredentials(github, copilot, apiKey);
    if oauth {
      var o := OAuthCredentials(geminiDir, read, files);
      OAuthCredentialsShape(geminiDir, read, files);
      OAuthKeysAreLong(geminiDir, read, files);
      ShortKeysKept(t, o, "GITHUB_TOKEN");
      ShortKeysKept(t, o, "COPILOT_TOKEN");
      ShortKeysKept(t, o, "GEMINI_API_KEY");
    } else {
      assert t + map[] == t;
      forall f | f in files
        ensures GeminiKey(f) !in t
      {
        assert |GeminiKey(f)| >= 20;
      }
    }
  }

  /** Merging entries whose keys are all long leaves a short key as it was. */
  lemma ShortKeysKept(t: map<string, string>, o: map<string, string>, k: string)
    requires |k| < 20 && forall x :: x in o ==> |x| >= 20
    ensures (k in t + o <==> k in t) && (k in t ==> (t + o)[k] == t[k])
  {
  }

  /**
   * The credentials map: GITHUB_TOKEN always, COPILOT_TOKEN exactly when a
   * Copilot token is given, GEMINI_API_KEY exactly when an API key is given,
   * and GEMINI_<file> for each OAuth file exactly when OAuth is chosen,
   * holding that file's content.  Nothing else.
   */
  lemma CredentialsShape(opts: Inputs, home: string, read: string -> Result<string, string>)
    ensures var m := Credentials(opts, home, read);
      && "GITHUB_TOKEN" in m && m["GITHUB_TOKEN"] == GithubToken(opts)
      && ("COPILOT_TOKEN" in m <==> CopilotToken(opts) != "")
      && (CopilotToken(opts) != "" ==> m["COPILOT_TOKEN"] == CopilotToken(opts))
      && ("GEMINI_API_KEY" in m <==> ApiKey(opts) != "")
      && (ApiKey(opts) != "" ==> m["GEMINI_API_KEY"] == ApiKey(opts))
      && (forall f :: f in KubeApi.GeminiFiles ==> (GeminiKey(f) in m <==> opts.geminiOAuth))
      && (opts.geminiOAuth ==> forall f :: f in KubeApi.GeminiFiles ==>
            m[GeminiKey(f)] == Content(read(GeminiPath(GeminiDir(home), f))))
      && m.Keys == TokenCredentials(GithubToken(opts), CopilotToken(opts), ApiKey(opts)).Keys +
           (if opts.geminiOAuth then set f | f in KubeApi.GeminiFiles :: GeminiKey(f) else {})
  {
    MergedShape(GithubToken(opts), CopilotToken(opts), ApiKey(opts), opts.geminiOAuth,
                GeminiDir(home), read, KubeApi.GeminiFiles);
  }

  /** The OAuth keys the command stores are exactly the keys the gemini volume
    * of a job projects into files. */
  lemma OAuthKeysMatchVolume()
    ensures (set f | f in KubeApi.GeminiFiles :: GeminiKey(f)) ==
            (set item | item in KubeApi.GeminiItems() :: item.key)
  {
    var files := KubeApi.GeminiFiles;
    var items := KubeApi.GeminiItems();
    forall f | f in files
      ensures GeminiKey(f) in (set item | item in items :: item.key)
    {
      var i :| 0 <= i < |files| && files[i] == f;
      assert items[i] in items;
    }
    forall item | item in items
      ensures item.key in (set f | f in files :: GeminiKey(f))
    {
      var i :| 0 <= i < |items| && items[i] == item;
      assert files[i] in files;
    }

  }
}
