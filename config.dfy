/** The back end's settings object: its defaults, the origin-list
    validator, and the database address built from the environment when
    debugging is off. The process environment is a parameter. */
module Config {
  import Text
  import opened Wrappers

  const Prefix := "postgresql://"

  /** The origin-list validator: an empty value gives no origins, any other
      value its comma-separated pieces, kept as written. */
  function ParseAllowedOrigin(val: string): (r: seq<string>)
    ensures val == [] <==> r == []
    ensures val != [] ==> Text.Join(r, ',') == val
    ensures forall k :: 0 <= k < |r| ==> ',' !in r[k]
    ensures val != [] ==> |r| == Text.CountChar(val, ',') + 1
  {
    if val == [] then []
    else
      Text.JoinSplit(val, ',');
      Text.SplitPiecesFree(val, ',');
      Text.SplitCount(val, ',');
      Text.Split(val, ',')
  }

  /** Origins written without commas come back from the validator as they
      were. */
  lemma OriginsRoundTrip(origins: seq<string>)
    requires |origins| >= 1 && origins != [""]
    requires forall k :: 0 <= k < |origins| ==> ',' !in origins[k]
    ensures ParseAllowedOrigin(Text.Join(origins, ',')) == origins
  {
    if |origins| > 1 {
      assert Text.Join(origins, ',') == origins[0] + [','] + Text.Join(origins[1..], ',');
    }
    Text.SplitJoin(origins, ',');
  }

  /** An environment variable as the f-string renders it: its value, or
      "None" when it is not set. */
  function Getenv(env: map<string, string>, name: string): (r: string)
    ensures name in env ==> r == env[name]
    ensures name !in env ==> r == "None"
  {
    if name in env then env[name] else "None"
  }

  /** The five parts of a database address. */
  datatype DbParts = DbParts(user: string, password: string, host: string, port: string, name: string)

  function FormatUrl(p: DbParts): string
  {
    Prefix + p.user + ":" + p.password + "@" + p.host + ":" + p.port + "/" + p.name
  }

  /** The address built when debugging is off. */
  function DatabaseUrl(env: map<string, string>): (r: string)
    ensures r == FormatUrl(DbParts(Getenv(env, "DB_USER"), Getenv(env, "DB_PASSWORD"),
                                   Getenv(env, "DB_HOST"), Getenv(env, "DB_PORT"), Getenv(env, "DB_NAME")))
  {
    Prefix + Getenv(env, "DB_USER") + ":" + Getenv(env, "DB_PASSWORD") + "@" + Getenv(env, "DB_HOST") + ":" +
    Getenv(env, "DB_PORT") + "/" + Getenv(env, "DB_NAME")
  }

  /** Reading an address back into its parts, as a database driver splits it. */
  function ParseUrl(url: string): Option<DbParts>
  {
    if !Text.StartsWith(url, Prefix) then None
    else
      var pieces := Text.Split(url[|Prefix|..], '/');
      if |pieces| != 2 then None else ParseAuthority(pieces[0], pieces[1])
  }

  /** The credentials and location before the '/', split on '@' and then on ':'. */
  function ParseAuthority(auth: string, name: string): Option<DbParts>
  {
    var at := Text.Split(auth, '@');
    if |at| != 2 then None
    else
      var cred := Text.Split(at[0], ':');
      var loc := Text.Split(at[1], ':');
      if |cred| != 2 || |loc| != 2 then None
      else Some(DbParts(cred[0], cred[1], loc[0], loc[1], name))
  }

  predicate FreeOf(s: string, cs: set<char>)
  {
    forall j :: 0 <= j < |s| ==> s[j] !in cs
  }

  /** Parts that contain none of the separators are read back unchanged;
      the address quotes nothing, so a password holding '@' or ':' is not. */
  lemma UrlRoundTrip(p: DbParts)
    requires FreeOf(p.user, {':', '@', '/'}) && FreeOf(p.password, {':', '@', '/'})
    requires FreeOf(p.host, {':', '@', '/'}) && FreeOf(p.port, {':', '@', '/'})
    requires FreeOf(p.name, {'/'})
    ensures ParseUrl(FormatUrl(p)) == Some(p)
  {
    var auth := (p.user + [':'] + p.password) + ['@'] + (p.host + [':'] + p.port);
    UrlShape(p);
    AuthorityRoundTrip(p);
    AfterPrefix(auth + ['/'] + p.name);
    NotIn(p.name, {'/'}, '/');
    SplitTwo(auth, p.name, '/');
  }

  /** The address is the prefix, the credentials and location, '/', and the name. */
  lemma UrlShape(p: DbParts)
    ensures FormatUrl(p) == Prefix + (((p.user + [':'] + p.password) + ['@'] + (p.host + [':'] + p.port)) + ['/'] + p.name)
  {
  }

  lemma AfterPrefix(rest: string)
    ensures Text.StartsWith(Prefix + rest, Prefix) && (Prefix + rest)[|Prefix|..] == rest
  {
  }

  /** The part before '/' holds no '/' and is read back into the four parts. */
  lemma AuthorityRoundTrip(p: DbParts)
    requires FreeOf(p.user, {':', '@', '/'}) && FreeOf(p.password, {':', '@', '/'})
    requires FreeOf(p.host, {':', '@', '/'}) && FreeOf(p.port, {':', '@', '/'})
    ensures var auth := (p.user + [':'] + p.password) + ['@'] + (p.host + [':'] + p.port);
            '/' !in auth && ParseAuthority(auth, p.name) == Some(p)
  {
    var cs := {':', '@', '/'};
    NotIn(p.user, cs, ':');
    NotIn(p.password, cs, ':');
    NotIn(p.host, cs, ':');
    NotIn(p.port, cs, ':');
    SplitTwo(p.user, p.password, ':');
    SplitTwo(p.host, p.port, ':');
    var cred := p.user + [':'] + p.password;
    var loc := p.host + [':'] + p.port;
    NotInJoined(p.user, p.password, ':', cs, '@');
    NotInJoined(p.host, p.port, ':', cs, '@');
    SplitTwo(cred, loc, '@');
    NotInJoined(p.user, p.password, ':', cs, '/');
    NotInJoined(p.host, p.port, ':', cs, '/');
    assert '/' !in cred + ['@'] + loc;
  }

  lemma NotIn(s: string, cs: set<char>, c: char)
    requires FreeOf(s, cs) && c in cs
    ensures c !in s
  {
  }

  lemma NotInJoined(a: string, b: string, sep: char, cs: set<char>, c: char)
    requires FreeOf(a, cs) && FreeOf(b, cs) && c in cs && c != sep
    ensures c !in a + [sep] + b
  {
    NotIn(a, cs, c);
    NotIn(b, cs, c);
  }

  /** Splitting `a c b` on `c` gives `a` and `b` when neither holds `c`. */
  lemma SplitTwo(a: string, b: string, c: char)
    requires c !in a && c !in b
    ensures Text.Split(a + [c] + b, c) == [a, b]
  {
    assert [a, b][1..] == [b];
    assert Text.Join([a, b], c) == a + [c] + b;
    Text.SplitJoin([a, b], c);
  }

  /** With the database variables unset the address is made of "None" parts. */
  lemma UnsetEnvironmentUrl()
    ensures var unset := DbParts("None", "None", "None", "None", "None");
            DatabaseUrl(map[]) == FormatUrl(unset) && ParseUrl(DatabaseUrl(map[])) == Some(unset)
  {
    var unset := DbParts("None", "None", "None", "None", "None");
    assert FreeOf("None", {':', '@', '/'});
    UrlRoundTrip(unset);
  }

  /** `ALLOWED_ORIGIN` holds the raw string when it was not supplied (a
      validator does not run on a default) and the parsed list otherwise. */
  datatype Origins = RawOrigin(raw: string) | OriginList(list: seq<string>)

  class Settings {
    var projectName: string
    var apiPrefix: string
    var debug: bool
    var databaseUrl: Option<string>
    var allowedOrigin: Origins
    var openaiApiKey: string
    var llmModel: string

    /** Validation of the supplied values, once both required ones are
        present, followed by the constructor's own step: with debugging off
        the database address is built from the environment, replacing any
        supplied one. `Load` is the construction that can fail. */
    constructor (openaiApiKey: string, llmModel: string, projectName: Option<string>, apiPrefix: Option<string>,
                 debug: Option<bool>, databaseUrl: Option<string>, allowedOrigin: Option<string>,
                 env: map<string, string>)
      ensures this.projectName == projectName.GetOr("AI_RESUME_BUILDER")
      ensures this.apiPrefix == apiPrefix.GetOr("/api")
      ensures this.debug == debug.GetOr(true)
      ensures this.debug ==> this.databaseUrl == databaseUrl
      ensures !this.debug ==> this.databaseUrl == Some(DatabaseUrl(env))
      ensures allowedOrigin.None? ==> this.allowedOrigin == RawOrigin("")
      ensures allowedOrigin.Some? ==> this.allowedOrigin == OriginList(ParseAllowedOrigin(allowedOrigin.value))
      ensures this.openaiApiKey == openaiApiKey && this.llmModel == llmModel
    {
      this.projectName := projectName.GetOr("AI_RESUME_BUILDER");
      this.apiPrefix := apiPrefix.GetOr("/api");
      this.debug := debug.GetOr(true);
      this.databaseUrl := databaseUrl;
      this.allowedOrigin := if allowedOrigin.Some? then OriginList(ParseAllowedOrigin(allowedOrigin.value)) else RawOrigin("");
      this.openaiApiKey := openaiApiKey;
      this.llmModel := llmModel;
      new;
      if !this.debug {
        this.databaseUrl := Some(DatabaseUrl(env));
      }
    }
  }

  /** `Settings()`: pydantic rejects the construction (None, its validation
      error) when `OPENAI_API_KEY` or `LLM_MODEL`, which have no default, is
      not supplied; otherwise the settings are built as above. */
  method Load(openaiApiKey: Option<string>, llmModel: Option<string>, projectName: Option<string>,
              apiPrefix: Option<string>, debug: Option<bool>, databaseUrl: Option<string>,
              allowedOrigin: Option<string>, env: map<string, string>)
    returns (r: Option<Settings>)
    ensures r.None? <==> openaiApiKey.None? || llmModel.None?
    ensures r.Some? ==> fresh(r.value)
    ensures r.Some? ==> r.value.openaiApiKey == openaiApiKey.value && r.value.llmModel == llmModel.value
    ensures r.Some? ==> r.value.projectName == projectName.GetOr("AI_RESUME_BUILDER")
    ensures r.Some? ==> r.value.apiPrefix == apiPrefix.GetOr("/api")
    ensures r.Some? ==> r.value.debug == debug.GetOr(true)
    ensures r.Some? && r.value.debug ==> r.value.databaseUrl == databaseUrl
    ensures r.Some? && !r.value.debug ==> r.value.databaseUrl == Some(DatabaseUrl(env))
    ensures r.Some? && allowedOrigin.None? ==> r.value.allowedOrigin == RawOrigin("")
    ensures r.Some? && allowedOrigin.Some? ==>
              r.value.allowedOrigin == OriginList(ParseAllowedOrigin(allowedOrigin.value))
  {
    if openaiApiKey.None? || llmModel.None? {
      r := None;
    } else {
      var settings := new Settings(openaiApiKey.value, llmModel.value, projectName, apiPrefix, debug,
                                   databaseUrl, allowedOrigin, env);
      r := Some(settings);
    }
  }
}
