/** The serverless app's credential bookkeeping: the in-memory token cache
    with its fallback to the environment, and the OAuth flow's two
    consume-once tables, `oauth_states` (state → platform) and
    `pkce_verifiers` (state → verifier). Random values (the state, the PKCE
    verifier), the token endpoint and the Graph lookups are inputs. */
module ServerlessAuth {
  import opened Common

  /** `os.environ.get`. */
  type Env = string -> Option<string>

  /** `os.environ.get(name, "")`. */
  function EnvOr(env: Env, name: string): string {
    env(name).GetOr("")
  }

  /** One platform's entry: its fields (`None` where the token endpoint left
      the field out) and the `connected` flag. */
  datatype Token = Token(fields: map<string, Option<string>>, connected: bool)

  type Tokens = map<string, Token>

  /** The platforms a post can go to, each with its environment credentials. */
  function EnvTokens(env: Env): (t: Tokens)
    ensures t.Keys == {"linkedin", "twitter", "facebook", "instagram"}
    ensures t["linkedin"].connected <==> Truthy(env("LINKEDIN_ACCESS_TOKEN"))
    ensures t["twitter"].connected <==> Truthy(env("TWITTER_ACCESS_TOKEN"))
    ensures t["facebook"].connected <==> Truthy(env("FACEBOOK_PAGE_ACCESS_TOKEN"))
    ensures t["instagram"].connected <==> Truthy(env("INSTAGRAM_ACCOUNT_ID"))
    // Instagram posts with the Facebook page's token
    ensures Field(t, "facebook", "access_token") == Some(EnvOr(env, "FACEBOOK_PAGE_ACCESS_TOKEN"))
    ensures Field(t, "instagram", "access_token") == Some(EnvOr(env, "FACEBOOK_PAGE_ACCESS_TOKEN"))
  {
    PlatformNamesDistinct();
    var pageToken := Some(EnvOr(env, "FACEBOOK_PAGE_ACCESS_TOKEN"));
    var linkedin := Token(map["access_token" := Some(EnvOr(env, "LINKEDIN_ACCESS_TOKEN"))],
                          Truthy(env("LINKEDIN_ACCESS_TOKEN")));
    var twitter := Token(map["access_token" := Some(EnvOr(env, "TWITTER_ACCESS_TOKEN")),
                             "access_token_secret" := Some(EnvOr(env, "TWITTER_ACCESS_TOKEN_SECRET"))],
                         Truthy(env("TWITTER_ACCESS_TOKEN")));
    var facebook := Token(map["access_token" := pageToken,
                              "page_id" := Some(EnvOr(env, "FACEBOOK_PAGE_ID"))],
                          Truthy(env("FACEBOOK_PAGE_ACCESS_TOKEN")));
    var instagram := Token(map["access_token" := pageToken,
                               "account_id" := Some(EnvOr(env, "INSTAGRAM_ACCOUNT_ID"))],
                           Truthy(env("INSTAGRAM_ACCOUNT_ID")));
    assert facebook.fields["access_token"] == pageToken;
    assert instagram.fields["access_token"] == pageToken;
    map["linkedin" := linkedin, "twitter" := twitter, "facebook" := facebook, "instagram" := instagram]
  }

  lemma PlatformNamesDistinct()
    ensures "linkedin" != "twitter" && "linkedin" != "facebook" && "linkedin" != "instagram"
    ensures "twitter" != "facebook" && "twitter" != "instagram" && "facebook" != "instagram"
  {
    assert "linkedin"[0] != "facebook"[0];
  }

  /** `tokens.get(platform, {}).get(field)`. */
  function Field(tokens: Tokens, platform: string, field: string): (v: Option<string>)
    ensures v.Some? ==> platform in tokens && field in tokens[platform].fields
    ensures platform in tokens && field in tokens[platform].fields ==> v == tokens[platform].fields[field]
    ensures platform !in tokens || field !in tokens[platform].fields ==> v == None
  {
    if platform in tokens && field in tokens[platform].fields then tokens[platform].fields[field] else None
  }

  /** An OAuth application's client credentials. */
  datatype OAuthApp = OAuthApp(clientId: string, clientSecret: string)

  /** `OAUTH_CONFIG`: LinkedIn, Twitter and Facebook; Instagram is reached
      through Facebook's flow. */
  function OAuthConfig(env: Env): (c: map<string, OAuthApp>)
    ensures c.Keys == {"linkedin", "twitter", "facebook"}
    ensures c["linkedin"] == OAuthApp(EnvOr(env, "LINKEDIN_CLIENT_ID"), EnvOr(env, "LINKEDIN_CLIENT_SECRET"))
    ensures c["twitter"] == OAuthApp(EnvOr(env, "TWITTER_CLIENT_ID"), EnvOr(env, "TWITTER_CLIENT_SECRET"))
    // Facebook's client id is its app id
    ensures c["facebook"] == OAuthApp(EnvOr(env, "FACEBOOK_APP_ID"), EnvOr(env, "FACEBOOK_APP_SECRET"))
  {
    map[
      "linkedin" := OAuthApp(EnvOr(env, "LINKEDIN_CLIENT_ID"), EnvOr(env, "LINKEDIN_CLIENT_SECRET")),
      "twitter" := OAuthApp(EnvOr(env, "TWITTER_CLIENT_ID"), EnvOr(env, "TWITTER_CLIENT_SECRET")),
      "facebook" := OAuthApp(EnvOr(env, "FACEBOOK_APP_ID"), EnvOr(env, "FACEBOOK_APP_SECRET"))]
  }

  /** One character of `str.upper()` for ASCII text: a lower-case letter becomes
      its capital, anything else stays. */
  function UpperChar(c: char): (u: char)
    ensures 'a' <= c <= 'z' ==> 'A' <= u <= 'Z' && u as int - 'A' as int == c as int - 'a' as int
    ensures !('a' <= c <= 'z') ==> u == c
  {
    if 'a' <= c <= 'z' then (c as int - 32) as char else c
  }

  /** `str.upper()` on ASCII letters, which is all a configured platform name holds. */
  function Upper(s: string): (u: string)
    ensures |u| == |s|
    ensures forall i :: 0 <= i < |s| ==> u[i] == UpperChar(s[i])
  {
    if s == [] then []
    else [UpperChar(s[0])] + Upper(s[1..])
  }

  /** The refusal for an unconfigured Facebook app asks for
      `FACEBOOK_CLIENT_ID`. */
  lemma FacebookHintName()
    ensures Upper("facebook") + "_CLIENT_ID" == "FACEBOOK_CLIENT_ID"
  {
    var u := Upper("facebook");
    assert u[0] == UpperChar('f') == 'F' && u[1] == UpperChar('a') == 'A';
    assert u[2] == UpperChar('c') == 'C' && u[3] == UpperChar('e') == 'E';
    assert u[4] == UpperChar('b') == 'B' && u[5] == UpperChar('o') == 'O';
    assert u[6] == UpperChar('o') == 'O' && u[7] == UpperChar('k') == 'K';
    assert u == "FACEBOOK";
  }

  /** Facebook's client id is read from `FACEBOOK_APP_ID`, so setting the
      variable the refusal names changes nothing. */
  lemma FacebookHintIgnored(env: Env, v: Option<string>)
    ensures var env' := (name: string) => if name == "FACEBOOK_CLIENT_ID" then v else env(name);
      OAuthConfig(env') == OAuthConfig(env)
  {
    var env' := (name: string) => if name == "FACEBOOK_CLIENT_ID" then v else env(name);
    var hint := "FACEBOOK_CLIENT_ID";
    assert hint[9] != "FACEBOOK_APP_ID"[9] && |hint| != |"FACEBOOK_APP_SECRET"|;
    assert hint[0] != "LINKEDIN_CLIENT_ID"[0] && hint[0] != "TWITTER_CLIENT_ID"[0];
    assert hint[0] != "LINKEDIN_CLIENT_SECRET"[0] && hint[0] != "TWITTER_CLIENT_SECRET"[0];
  }

  /** The answer of `oauth_connect`: an HTTP 400 with its detail, or the
      authorization redirect for a state (PKCE-protected for Twitter). The
      URL's encoding is not modelled. */
  datatype Connect = ConnectRefused(detail: string) | Authorize(platform: string, state: string, pkce: bool)

  /** The query string of the redirect back to the settings page. */
  datatype Landing = Landing(query: string)

  /** The first page of the Facebook account list. */
  datatype Page = Page(accessToken: Option<string>, id: Option<string>, name: Option<string>)

  /** The Instagram business account lookup for a page. */
  datatype InstagramLookup = InstagramRaised(message: string) | NoInstagram | InstagramAccount(id: Option<string>)

  /** The long-lived token exchange and the page list that follow a Facebook
      grant: a call raised, the list is empty, or its first page. */
  datatype FacebookLookup = LookupRaised(message: string) | NoPages | FirstPage(page: Page, instagram: InstagramLookup)

  /** The token endpoint's answer: an exception, a status other than 200 with
      its body, or the grant with whatever a Facebook grant leads to. */
  datatype Exchange =
    | ExchangeRaised(message: string)
    | ExchangeRefused(body: string)
    | Granted(accessToken: Option<string>, expiresIn: Option<string>, refreshToken: Option<string>, facebook: FacebookLookup)

  /** The token endpoint, given the platform, the code and the PKCE verifier sent. */
  type TokenEndpoint = (string, string, Option<string>) -> Exchange

  /** `save_token`: the entry is replaced and marked connected. */
  function Saved(cache: Tokens, platform: string, fields: map<string, Option<string>>): (c: Tokens)
    ensures c.Keys == cache.Keys + {platform}
    ensures c[platform] == Token(fields, true)
    ensures forall p :: p in cache && p != platform ==> c[p] == cache[p]
  {
    cache[platform := Token(fields, true)]
  }

  /** What the callback stores after a successful exchange, and where it lands.
      A page without an id makes the Instagram lookup raise `KeyError('id')`
      after the Facebook entry has been saved. */
  function Granting(cache: Tokens, platform: string, x: Exchange): (r: (Tokens, Landing))
    requires x.Granted?
    ensures platform !in {"linkedin", "twitter", "facebook"} ==> r == (cache, Landing("connected=" + platform))
    ensures platform == "linkedin" ==>
      r.0 == Saved(cache, "linkedin", map["access_token" := x.accessToken, "expires_in" := x.expiresIn])
    ensures platform == "twitter" ==>
      r.0 == Saved(cache, "twitter", map["access_token" := x.accessToken, "refresh_token" := x.refreshToken])
    ensures platform in {"linkedin", "twitter"} ==> r.1 == Landing("connected=" + platform)
    ensures platform == "facebook" && x.facebook.LookupRaised? ==>
      r == (cache, Landing("error=" + Take(x.facebook.message, 100)))
    ensures platform == "facebook" && x.facebook.NoPages? ==> r == (cache, Landing("connected=facebook"))
    ensures platform == "facebook" && x.facebook.FirstPage? ==>
      var pg := x.facebook.page;
      var ig := x.facebook.instagram;
      var withPage := Saved(cache, "facebook", map["access_token" := pg.accessToken, "page_id" := pg.id, "page_name" := pg.name]);
      // the Instagram entry is written only for a page with an id and a linked account
      && (pg.id.Some? && ig.InstagramAccount? ==>
            r == (Saved(withPage, "instagram", map["access_token" := pg.accessToken, "account_id" := ig.id]), Landing("connected=facebook")))
      && (pg.id.None? ==> r == (withPage, Landing("error='id'")))
      && (pg.id.Some? && ig.InstagramRaised? ==> r == (withPage, Landing("error=" + Take(ig.message, 100))))
      && (pg.id.Some? && ig.NoInstagram? ==> r == (withPage, Landing("connected=facebook")))
  {
    if platform == "linkedin" then
      (Saved(cache, "linkedin", map["access_token" := x.accessToken, "expires_in" := x.expiresIn]), Landing("connected=" + platform))
    else if platform == "twitter" then
      (Saved(cache, "twitter", map["access_token" := x.accessToken, "refresh_token" := x.refreshToken]), Landing("connected=" + platform))
    else if platform == "facebook" then
      match x.facebook
      case LookupRaised(m) => (cache, Landing("error=" + Take(m, 100)))
      case NoPages => (cache, Landing("connected=facebook"))
      case FirstPage(pg, ig) =>
        var withPage := Saved(cache, "facebook", map["access_token" := pg.accessToken, "page_id" := pg.id, "page_name" := pg.name]);
        if pg.id.None? then (withPage, Landing("error='id'"))
        else
          match ig
          case InstagramRaised(m) => (withPage, Landing("error=" + Take(m, 100)))
          case NoInstagram => (withPage, Landing("connected=facebook"))
          case InstagramAccount(id) =>
            (Saved(withPage, "instagram", map["access_token" := pg.accessToken, "account_id" := id]), Landing("connected=facebook"))
    else (cache, Landing("connected=" + platform))
  }

  class AuthStore {
    const env: Env
    var tokensCache: Tokens
    var oauthStates: map<string, string>
    var pkceVerifiers: map<string, string>

    /** Every recorded state names a platform with an OAuth application. */
    ghost predicate Valid()
      reads this
    {
      forall s :: s in oauthStates ==> oauthStates[s] in OAuthConfig(env)
    }

    constructor (env: Env)
      ensures Valid()
      ensures this.env == env && tokensCache == map[] && oauthStates == map[] && pkceVerifiers == map[]
    {
      this.env := env;
      tokensCache := map[];
      oauthStates := map[];
      pkceVerifiers := map[];
    }

    /** `get_stored_tokens`: the cache whenever it holds anything, the
        environment otherwise. */
    function StoredTokens(): (t: Tokens)
      reads this
      ensures tokensCache != map[] ==> t == tokensCache
      ensures tokensCache == map[] ==> t == EnvTokens(env)
    {
      if tokensCache != map[] then tokensCache else EnvTokens(env)
    }

    /** `save_token`. */
    method SaveToken(platform: string, fields: map<string, Option<string>>)
      modifies this
      ensures tokensCache == Saved(old(tokensCache), platform, fields)
      ensures oauthStates == old(oauthStates) && pkceVerifiers == old(pkceVerifiers)
    {
      tokensCache := tokensCache[platform := Token(fields, true)];
    }

    /** `oauth_disconnect`: the platform's cached entry, if any, is dropped;
        the answer is always a success. */
    method Disconnect(platform: string) returns (message: string)
      modifies this
      ensures tokensCache == old(tokensCache) - {platform}
      ensures oauthStates == old(oauthStates) && pkceVerifiers == old(pkceVerifiers)
      ensures message == platform + " disconnected"
    {
      if platform in tokensCache {
        tokensCache := tokensCache - {platform};
      }
      message := platform + " disconnected";
    }

    /** `oauth_connect`, given the fresh state and PKCE verifier. */
    method OAuthConnect(platform: string, state: string, verifier: string) returns (r: Connect)
      requires Valid()
      modifies this
      ensures Valid() && tokensCache == old(tokensCache)
      ensures platform !in OAuthConfig(env) ==>
        r == ConnectRefused("Unknown platform: " + platform) && oauthStates == old(oauthStates) && pkceVerifiers == old(pkceVerifiers)
      ensures platform in OAuthConfig(env) && OAuthConfig(env)[platform].clientId == "" ==>
        && r == ConnectRefused(platform + " OAuth not configured. Add " + Upper(platform) + "_CLIENT_ID to environment.")
        && oauthStates == old(oauthStates) && pkceVerifiers == old(pkceVerifiers)
      ensures platform in OAuthConfig(env) && OAuthConfig(env)[platform].clientId != "" ==>
        && r == Authorize(platform, state, platform == "twitter")
        && oauthStates == old(oauthStates)[state := platform]
        && pkceVerifiers == if platform == "twitter" then old(pkceVerifiers)[state := verifier] else old(pkceVerifiers)
    {
      var config := OAuthConfig(env);
      if platform !in config {
        return ConnectRefused("Unknown platform: " + platform);
      }
      if config[platform].clientId == "" {
        return ConnectRefused(platform + " OAuth not configured. Add " + Upper(platform) + "_CLIENT_ID to environment.");
      }
      oauthStates := oauthStates[state := platform];
      if platform == "twitter" {
        pkceVerifiers := pkceVerifiers[state := verifier];
      }
      return Authorize(platform, state, platform == "twitter");
    }

    /** `oauth_callback`: an error parameter, then a missing code or state,
        then a state not issued for this platform, each land on the settings
        page with nothing changed and nothing sent. Otherwise the state is
        consumed, Twitter's verifier with it, and the code is exchanged. */
    method OAuthCallback(platform: string, code: Option<string>, state: Option<string>, error: Option<string>,
                         endpoint: TokenEndpoint) returns (r: Landing)
      requires Valid()
      modifies this
      ensures Valid()
      ensures Truthy(error) ==>
        r == Landing("error=" + error.value) && unchanged(this)
      ensures !Truthy(error) && (!Truthy(code) || !Truthy(state)) ==>
        r == Landing("error=missing_params") && unchanged(this)
      ensures !Truthy(error) && Truthy(code) && Truthy(state) && !(state.value in old(oauthStates) && old(oauthStates)[state.value] == platform) ==>
        r == Landing("error=invalid_state") && unchanged(this)
      ensures !Truthy(error) && Truthy(code) && Truthy(state) && state.value in old(oauthStates) && old(oauthStates)[state.value] == platform ==>
        var s := state.value;
        var verifier := if platform == "twitter" && s in old(pkceVerifiers) then Some(old(pkceVerifiers)[s]) else None;
        var x := endpoint(platform, code.value, verifier);
        && platform in OAuthConfig(env)
        && oauthStates == old(oauthStates) - {s}
        && pkceVerifiers == (if platform == "twitter" then old(pkceVerifiers) - {s} else old(pkceVerifiers))
        && (x.ExchangeRaised? ==> r == Landing("error=" + Take(x.message, 100)) && tokensCache == old(tokensCache))
        && (x.ExchangeRefused? ==> r == Landing("error=token_exchange_failed&details=" + Take(x.body, 100)) && tokensCache == old(tokensCache))
        && (x.Granted? ==> (tokensCache, r) == Granting(old(tokensCache), platform, x))
    {
      if Truthy(error) {
        return Landing("error=" + error.value);
      }
      if !Truthy(code) || !Truthy(state) {
        return Landing("error=missing_params");
      }
      var s := state.value;
      if !(s in oauthStates && oauthStates[s] == platform) {
        return Landing("error=invalid_state");
      }
      oauthStates := oauthStates - {s};
      var verifier: Option<string> := None;
      if platform == "twitter" && s in pkceVerifiers {
        verifier := Some(pkceVerifiers[s]);
        pkceVerifiers := pkceVerifiers - {s};
      }
      var x := endpoint(platform, code.value, verifier);
      match x {
        case ExchangeRaised(m) =>
          r := Landing("error=" + Take(m, 100));
        case ExchangeRefused(body) =>
          r := Landing("error=token_exchange_failed&details=" + Take(body, 100));
        case Granted(_, _, _, _) =>
          var g := Granting(tokensCache, platform, x);
          tokensCache := g.0;
          r := g.1;
      }
    }
    /** A state is good for one callback: presenting it again, with any code,
        lands on `invalid_state` and sends nothing. */
    method ReplayCallback(platform: string, code: string, code': string, state: string, endpoint: TokenEndpoint)
      returns (first: Landing, second: Landing)
      requires Valid() && code != "" && code' != "" && state != ""
      requires state in oauthStates && oauthStates[state] == platform
      modifies this
      ensures Valid()
      ensures second == Landing("error=invalid_state")
    {
      first := OAuthCallback(platform, Some(code), Some(state), None, endpoint);
      second := OAuthCallback(platform, Some(code'), Some(state), None, endpoint);
    }
  }

  /** Once any platform is cached, the environment is no longer consulted:
      every platform missing from the cache has no credentials at all. */
  lemma CacheShadowsEnvironment(a: AuthStore, platform: string, field: string)
    requires a.tokensCache != map[] && platform !in a.tokensCache
    ensures Field(a.StoredTokens(), platform, field).None?
  {
  }

  /** A cleared cache falls back to the environment, whose `connected` flags
      follow the access tokens (the account id for Instagram). */
  lemma EmptyCacheUsesEnvironment(a: AuthStore)
    requires a.tokensCache == map[]
    ensures a.StoredTokens().Keys == {"linkedin", "twitter", "facebook", "instagram"}
    ensures a.StoredTokens()["linkedin"].connected <==> Truthy(a.env("LINKEDIN_ACCESS_TOKEN"))
    ensures a.StoredTokens()["instagram"].connected <==> Truthy(a.env("INSTAGRAM_ACCOUNT_ID"))
  {
  }
}
