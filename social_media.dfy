/** The backend's publishing services: the four platform adapters and the
    manager that fans one post out to a list of platforms. Each upstream HTTP or
    client-library call is a `Request`; the network is a function from requests
    to replies, and every adapter reports the requests it made. */
module SocialMedia {
  import opened Common
  import OrderedDict

  // ---------------------------------------------------------------- results

  /** The dict an adapter returns: `success`, and `post_id` or `error`. */
  datatype PlatformResult = PlatformResult(success: bool, postId: Option<string>, error: Option<string>)

  function Success(id: string): PlatformResult {
    PlatformResult(true, Some(id), None)
  }

  function Failure(message: string): PlatformResult {
    PlatformResult(false, None, Some(message))
  }

  /** The platform → result mapping, in insertion order. */
  type Results = OrderedDict.Dict<string, PlatformResult>

  // ---------------------------------------------------------------- the network

  datatype Request =
    | TweepyMediaUpload(path: string)
    | TweepyCreateTweet(text: string, mediaIds: Option<seq<string>>)
    | TweetsEndpoint(token: string, text: string)
    | LinkedInUserInfo(token: string)
    | LinkedInShare(token: string, author: string, text: string)
    | FacebookPhoto(token: string, pageId: string, url: string, message: string)
    | FacebookFeed(token: string, pageId: string, message: string)
    | InstagramContainer(token: string, accountId: string, imageUrl: string, caption: string)
    | InstagramPublish(token: string, accountId: string, creationId: string)

  /** What a call produced: an exception (transport failure, a client library
      raising, an unreadable body), or a response. `id` is the identifier the
      endpoint reports for what it created (the body's `id`, a tweet's `data.id`,
      a LinkedIn share's `x-restli-id` header), `sub` the member id of a LinkedIn
      profile lookup, `errorMessage` the body's `error.message`, `text` the raw body. */
  datatype Reply =
    | Raised(message: string)
    | Replied(status: int, id: Option<string>, sub: Option<string>, errorMessage: Option<string>, text: string)

  type Network = Request -> Reply

  /** An adapter's result together with the requests it sent, in order. */
  datatype AdapterRun = AdapterRun(result: PlatformResult, calls: seq<Request>)

  /** `str(KeyError('id'))`: the text of the exception a reply without an id raises. */
  const MissingIdError := "'id'"

  /** The text of the attribute error an upload reply without a media id raises. */
  const MissingMediaIdError := "'Media' object has no attribute 'media_id'"

  // ---------------------------------------------------------------- Twitter

  const TweetLimit := 280

  /** The text actually tweeted: anything over 280 characters is cut to its first
      277 and followed by an ellipsis. */
  function TweetText(content: string): (t: string)
    ensures |content| <= TweetLimit ==> t == content
    ensures |content| > TweetLimit ==> |t| == TweetLimit && t == content[..277] + "..."
  {
    if |content| > TweetLimit then content[..277] + "..." else content
  }

  /** Every tweet fits, and cutting is idempotent: a tweet text tweets unchanged. */
  lemma TweetTextFits(content: string)
    ensures |TweetText(content)| <= TweetLimit
    ensures TweetText(TweetText(content)) == TweetText(content)
    ensures TweetText(content) <= content || |content| > TweetLimit
  {
  }

  datatype TwitterService = TwitterService(
    apiKey: Option<string>, apiSecret: Option<string>,
    accessToken: Option<string>, accessTokenSecret: Option<string>)
  {
    predicate Enabled() {
      Truthy(apiKey) && Truthy(apiSecret) && Truthy(accessToken) && Truthy(accessTokenSecret)
    }

    /** `TwitterService.post`: optional media upload, then one tweet. */
    function Post(content: string, imagePath: Option<string>, net: Network): (run: AdapterRun)
      ensures !Enabled() ==> run == AdapterRun(Failure("Twitter not configured"), [])
      ensures Enabled() ==> run.calls != []
      // the image, when there is one, is uploaded before the tweet
      ensures Enabled() && Truthy(imagePath) ==> run.calls[0] == TweepyMediaUpload(imagePath.value)
      ensures Enabled() && !Truthy(imagePath) ==> run.calls == [TweepyCreateTweet(TweetText(content), None)]
      ensures |run.calls| <= 2
      // whatever is tweeted is the cut text, and a success is the tweet's own id
      ensures forall i :: 0 <= i < |run.calls| && run.calls[i].TweepyCreateTweet? ==>
        run.calls[i].text == TweetText(content)
      ensures run.result.success ==>
        && run.calls != [] && run.calls[|run.calls| - 1].TweepyCreateTweet?
        && net(run.calls[|run.calls| - 1]).Replied?
        && run.result.postId == net(run.calls[|run.calls| - 1]).id
      // once the tweet is sent, it succeeded exactly when the reply carries an id
      ensures run.calls != [] && run.calls[|run.calls| - 1].TweepyCreateTweet? ==>
        (run.result.success <==> net(run.calls[|run.calls| - 1]).Replied? && net(run.calls[|run.calls| - 1]).id.Some?)
      // an upload answered with a media id is followed by the tweet carrying it
      ensures Enabled() && Truthy(imagePath) && net(TweepyMediaUpload(imagePath.value)).Replied?
              && net(TweepyMediaUpload(imagePath.value)).id.Some? ==>
        run.calls == [TweepyMediaUpload(imagePath.value),
                      TweepyCreateTweet(TweetText(content), Some([net(TweepyMediaUpload(imagePath.value)).id.value]))]
    {
      if !Enabled() then AdapterRun(Failure("Twitter not configured"), [])
      else
        var text := TweetText(content);
        if Truthy(imagePath) then
          var upload := TweepyMediaUpload(imagePath.value);
          match net(upload)
          case Raised(m) => AdapterRun(Failure(m), [upload])
          case Replied(_, mediaId, _, _, _) =>
            if mediaId.None? then AdapterRun(Failure(MissingMediaIdError), [upload])
            else Tweet(text, Some([mediaId.value]), net, [upload])
        else Tweet(text, None, net, [])
    }

    function Tweet(text: string, mediaIds: Option<seq<string>>, net: Network, before: seq<Request>): (run: AdapterRun)
      ensures run.calls == before + [TweepyCreateTweet(text, mediaIds)]
      ensures run.result.success <==> net(TweepyCreateTweet(text, mediaIds)).Replied? && net(TweepyCreateTweet(text, mediaIds)).id.Some?
      ensures run.result.success ==> run.result.postId == net(TweepyCreateTweet(text, mediaIds)).id
    {
      var call := TweepyCreateTweet(text, mediaIds);
      match net(call)
      case Raised(m) => AdapterRun(Failure(m), before + [call])
      case Replied(_, id, _, _, _) =>
        if id.Some? then AdapterRun(Success(id.value), before + [call])
        else AdapterRun(Failure(MissingIdError), before + [call])
    }
  }

  // ---------------------------------------------------------------- LinkedIn

  const LinkedInNoUser := "Could not get LinkedIn user ID"

  /** The profile lookup answered 200 with a non-empty member id. */
  predicate KnownMember(reply: Reply) {
    reply.Replied? && reply.status == 200 && Truthy(reply.sub)
  }

  datatype LinkedInService = LinkedInService(accessToken: Option<string>) {
    predicate Enabled() {
      Truthy(accessToken)
    }

    /** `LinkedInService.post`: a profile lookup, then one share. */
    function Post(content: string, imageUrl: Option<string>, net: Network): (run: AdapterRun)
      ensures !Enabled() ==> run == AdapterRun(Failure("LinkedIn not configured"), [])
      ensures Enabled() ==> run.calls != [] && run.calls[0] == LinkedInUserInfo(accessToken.value)
      // the share is attempted exactly when the lookup answered 200 with a member id
      ensures Enabled() ==> (|run.calls| == 2 <==> KnownMember(net(LinkedInUserInfo(accessToken.value))))
      ensures Enabled() && net(LinkedInUserInfo(accessToken.value)).Replied?
              && !KnownMember(net(LinkedInUserInfo(accessToken.value))) ==>
        run == AdapterRun(Failure(LinkedInNoUser), [LinkedInUserInfo(accessToken.value)])
      ensures |run.calls| <= 2
      ensures |run.calls| == 2 ==>
        run.calls[1] == LinkedInShare(accessToken.value, "urn:li:person:" + net(run.calls[0]).sub.value, content)
      // a shared post succeeded exactly when the share answered 200 or 201, and its
      // id is the `x-restli-id` header, or "" without one
      ensures run.result.success ==> |run.calls| == 2
      ensures |run.calls| == 2 ==>
        (run.result.success <==> net(run.calls[1]).Replied? && net(run.calls[1]).status in {200, 201})
      ensures run.result.success ==> run.result.postId == Some(net(run.calls[1]).id.GetOr(""))
    {
      if !Enabled() then AdapterRun(Failure("LinkedIn not configured"), [])
      else
        var token := accessToken.value;
        var lookup := LinkedInUserInfo(token);
        match net(lookup)
        case Raised(m) => AdapterRun(Failure(m), [lookup])
        case Replied(status, _, sub, _, _) =>
          var userId := if status == 200 then sub else None;
          if !Truthy(userId) then AdapterRun(Failure(LinkedInNoUser), [lookup])
          else
            var share := LinkedInShare(token, "urn:li:person:" + userId.value, content);
            match net(share)
            case Raised(m) => AdapterRun(Failure(m), [lookup, share])
            case Replied(st, restliId, _, _, text) =>
              if st == 200 || st == 201 then AdapterRun(Success(restliId.GetOr("")), [lookup, share])
              else AdapterRun(Failure(text), [lookup, share])
    }
  }

  // ---------------------------------------------------------------- Facebook

  datatype FacebookService = FacebookService(accessToken: Option<string>, pageId: Option<string>) {
    predicate Enabled() {
      Truthy(accessToken) && Truthy(pageId)
    }

    /** `FacebookService.post`: one request, to the page's photos when there is
        an image URL and to its feed otherwise. */
    function Post(content: string, imageUrl: Option<string>, net: Network): (run: AdapterRun)
      ensures !Enabled() ==> run == AdapterRun(Failure("Facebook not configured"), [])
      ensures Enabled() ==> |run.calls| == 1
      ensures Enabled() ==> (run.calls[0].FacebookPhoto? <==> Truthy(imageUrl))
      ensures Enabled() ==> (run.calls[0].FacebookFeed? <==> !Truthy(imageUrl))
      ensures Enabled() ==> (run.result.success <==> net(run.calls[0]).Replied? && net(run.calls[0]).id.Some?)
      ensures Enabled() && run.result.success ==> run.result.postId == net(run.calls[0]).id
    {
      if !Enabled() then AdapterRun(Failure("Facebook not configured"), [])
      else
        var call :=
          if Truthy(imageUrl) then FacebookPhoto(accessToken.value, pageId.value, imageUrl.value, content)
          else FacebookFeed(accessToken.value, pageId.value, content);
        AdapterRun(GraphResult(net(call), "Unknown error"), [call])
    }
  }

  /** A Graph API reply: success exactly when the body has an `id`; otherwise the
      body's error message, or `fallback` when it has none. */
  function GraphResult(reply: Reply, fallback: string): (r: PlatformResult)
    ensures r.success <==> reply.Replied? && reply.id.Some?
    ensures r.success ==> r.postId == reply.id
    ensures !r.success && reply.Replied? ==> r.error == Some(reply.errorMessage.GetOr(fallback))
  {
    match reply
    case Raised(m) => Failure(m)
    case Replied(_, id, _, errorMessage, _) =>
      if id.Some? then Success(id.value) else Failure(errorMessage.GetOr(fallback))
  }

  // ---------------------------------------------------------------- Instagram

  datatype InstagramService = InstagramService(accessToken: Option<string>, accountId: Option<string>) {
    predicate Enabled() {
      Truthy(accessToken) && Truthy(accountId)
    }

    /** `InstagramService.post`: create a media container, then publish it. */
    function Post(content: string, imageUrl: Option<string>, net: Network): (run: AdapterRun)
      ensures !Enabled() ==> run == AdapterRun(Failure("Instagram not configured"), [])
      ensures Enabled() && !Truthy(imageUrl) ==> run == AdapterRun(Failure("Instagram requires an image URL"), [])
      ensures Enabled() && Truthy(imageUrl) ==>
        && 1 <= |run.calls| <= 2
        && run.calls[0] == InstagramContainer(accessToken.value, accountId.value, imageUrl.value, content)
      // the publish step happens only for a container the first reply identified
      ensures |run.calls| == 2 ==>
        var c := net(run.calls[0]);
        c.Replied? && c.id.Some? && run.calls[1] == InstagramPublish(accessToken.value, accountId.value, c.id.value)
      ensures run.result.success <==> |run.calls| == 2 && net(run.calls[1]).Replied? && net(run.calls[1]).id.Some?
      ensures run.result.success ==> run.result.postId == net(run.calls[1]).id
    {
      if !Enabled() then AdapterRun(Failure("Instagram not configured"), [])
      else if !Truthy(imageUrl) then AdapterRun(Failure("Instagram requires an image URL"), [])
      else
        var token, account := accessToken.value, accountId.value;
        var container := InstagramContainer(token, account, imageUrl.value, content);
        match net(container)
        case Raised(m) => AdapterRun(Failure(m), [container])
        case Replied(_, id, _, errorMessage, _) =>
          if id.None? then AdapterRun(Failure(errorMessage.GetOr("Failed to create media container")), [container])
          else
            var publish := InstagramPublish(token, account, id.value);
            AdapterRun(GraphResult(net(publish), "Failed to publish"), [container, publish])
    }
  }

  // ---------------------------------------------------------------- the manager

  /** The credentials the backend reads from its settings; each may be unset. */
  datatype Settings = Settings(
    twitterApiKey: Option<string>, twitterApiSecret: Option<string>,
    twitterAccessToken: Option<string>, twitterAccessTokenSecret: Option<string>,
    linkedinAccessToken: Option<string>,
    facebookPageAccessToken: Option<string>, facebookPageId: Option<string>,
    instagramAccountId: Option<string>)

  /** `post_to_platforms` for a platform list, as a specification: the results
      after each name in turn, and every request made. */
  ghost function Publish(m: SocialMediaManager, platforms: seq<string>, content: string,
                         imageUrl: Option<string>, imagePath: Option<string>, net: Network): (Results, seq<Request>)
    decreases |platforms|
  {
    if platforms == [] then ([], [])
    else
      var n := |platforms| - 1;
      var (results, calls) := Publish(m, platforms[..n], content, imageUrl, imagePath, net);
      var run := m.Dispatch(platforms[n], content, imageUrl, imagePath, net);
      (OrderedDict.Put(results, platforms[n], run.result), calls + run.calls)
  }

  /** The distinct names of a list, in order of first appearance. */
  function Distinct(s: seq<string>): (d: seq<string>)
    ensures forall x :: x in d <==> x in s
    ensures forall i, j :: 0 <= i < j < |d| ==> d[i] != d[j]
  {
    if s == [] then []
    else
      var n := |s| - 1;
      var d := Distinct(s[..n]);
      assert forall x :: x in s <==> x in s[..n] || x == s[n];
      if s[n] in d then d else d + [s[n]]
  }

  class SocialMediaManager {
    const twitter: TwitterService
    const linkedin: LinkedInService
    const facebook: FacebookService
    const instagram: InstagramService

    /** `SocialMediaManager()`: each service reads its own credentials. */
    constructor (s: Settings)
      ensures twitter == TwitterService(s.twitterApiKey, s.twitterApiSecret, s.twitterAccessToken, s.twitterAccessTokenSecret)
      ensures linkedin == LinkedInService(s.linkedinAccessToken)
      ensures facebook == FacebookService(s.facebookPageAccessToken, s.facebookPageId)
      ensures instagram == InstagramService(s.facebookPageAccessToken, s.instagramAccountId)
    {
      twitter := TwitterService(s.twitterApiKey, s.twitterApiSecret, s.twitterAccessToken, s.twitterAccessTokenSecret);
      linkedin := LinkedInService(s.linkedinAccessToken);
      facebook := FacebookService(s.facebookPageAccessToken, s.facebookPageId);
      instagram := InstagramService(s.facebookPageAccessToken, s.instagramAccountId);
    }

    /** `get_enabled_platforms`: which adapters have all their credentials. */
    function EnabledPlatforms(): (e: map<string, bool>)
      ensures e.Keys == {"twitter", "linkedin", "facebook", "instagram"}
      ensures e["twitter"] <==> Truthy(twitter.apiKey) && Truthy(twitter.apiSecret)
                                && Truthy(twitter.accessToken) && Truthy(twitter.accessTokenSecret)
      ensures e["linkedin"] <==> Truthy(linkedin.accessToken)
      ensures e["facebook"] <==> Truthy(facebook.accessToken) && Truthy(facebook.pageId)
      ensures e["instagram"] <==> Truthy(instagram.accessToken) && Truthy(instagram.accountId)
    {
      map["twitter" := twitter.Enabled(), "linkedin" := linkedin.Enabled(),
          "facebook" := facebook.Enabled(), "instagram" := instagram.Enabled()]
    }

    /** The name is one of the four platforms and its adapter is enabled. */
    predicate Serves(platform: string) {
      || (platform == "twitter" && twitter.Enabled())
      || (platform == "linkedin" && linkedin.Enabled())
      || (platform == "facebook" && facebook.Enabled())
      || (platform == "instagram" && instagram.Enabled())
    }

    /** One step of the fan-out: the result written for `platform`. */
    function Dispatch(platform: string, content: string, imageUrl: Option<string>,
                      imagePath: Option<string>, net: Network): (run: AdapterRun)
      // unknown and disabled platforms get a synthesized failure, and nothing is called
      ensures !Serves(platform) ==>
        run == AdapterRun(Failure(platform + " not configured or not recognized"), [])
      // Instagram without an image fails here, before its adapter
      ensures platform == "instagram" && !Truthy(imageUrl) ==> !run.result.success && run.calls == []
      // a result reached without any request is always one the manager made up itself, so
      // no adapter's own "not configured" branch is ever reached through the manager
      ensures run.calls == [] ==> run.result in {
        Failure(platform + " not configured or not recognized"), Failure("Instagram requires an image")}
      // a served name gets its own adapter's run
      ensures platform == "twitter" && twitter.Enabled() ==> run == twitter.Post(content, imagePath, net)
      ensures platform == "linkedin" && linkedin.Enabled() ==> run == linkedin.Post(content, imageUrl, net)
      ensures platform == "facebook" && facebook.Enabled() ==> run == facebook.Post(content, imageUrl, net)
      ensures platform == "instagram" && instagram.Enabled() && Truthy(imageUrl) ==>
        run == instagram.Post(content, imageUrl, net)
      ensures platform == "instagram" && instagram.Enabled() && !Truthy(imageUrl) ==>
        run == AdapterRun(Failure("Instagram requires an image"), [])
    {
      if platform == "twitter" && twitter.Enabled() then twitter.Post(content, imagePath, net)
      else if platform == "linkedin" && linkedin.Enabled() then linkedin.Post(content, imageUrl, net)
      else if platform == "facebook" && facebook.Enabled() then facebook.Post(content, imageUrl, net)
      else if platform == "instagram" && instagram.Enabled() then
        if Truthy(imageUrl) then instagram.Post(content, imageUrl, net)
        else AdapterRun(Failure("Instagram requires an image"), [])
      else AdapterRun(Failure(platform + " not configured or not recognized"), [])
    }

    /** `post_to_platforms`: visit the platform names in order and record each
        one's result under its name. */
    method PostToPlatforms(content: string, platforms: seq<string>, imageUrl: Option<string>,
                           imagePath: Option<string>, net: Network)
      returns (results: Results, calls: seq<Request>)
      ensures (results, calls) == Publish(this, platforms, content, imageUrl, imagePath, net)
      // one entry per distinct name, in order of first appearance
      ensures OrderedDict.DistinctKeys(results)
      ensures OrderedDict.Keys(results) == Distinct(platforms)
      // and each entry is the dispatch of that name
      ensures forall p :: p in platforms ==>
        OrderedDict.Get(results, p) == Some(Dispatch(p, content, imageUrl, imagePath, net).result)
    {
      results, calls := [], [];
      var i := 0;
      while i < |platforms|
        invariant 0 <= i <= |platforms|
        invariant (results, calls) == Publish(this, platforms[..i], content, imageUrl, imagePath, net)
      {
        var platform := platforms[i];
        var run: AdapterRun;
        if platform == "twitter" && twitter.Enabled() {
          run := twitter.Post(content, imagePath, net);
          results := OrderedDict.Put(results, "twitter", run.result);
        } else if platform == "linkedin" && linkedin.Enabled() {
          run := linkedin.Post(content, imageUrl, net);
          results := OrderedDict.Put(results, "linkedin", run.result);
        } else if platform == "facebook" && facebook.Enabled() {
          run := facebook.Post(content, imageUrl, net);
          results := OrderedDict.Put(results, "facebook", run.result);
        } else if platform == "instagram" && instagram.Enabled() {
          if Truthy(imageUrl) {
            run := instagram.Post(content, imageUrl, net);
          } else {
            run := AdapterRun(Failure("Instagram requires an image"), []);
          }
          results := OrderedDict.Put(results, "instagram", run.result);
        } else {
          run := AdapterRun(Failure(platform + " not configured or not recognized"), []);
          results := OrderedDict.Put(results, platform, run.result);
        }
        calls := calls + run.calls;
        assert platforms[..i + 1][..i] == platforms[..i];
        i := i + 1;
      }
      assert platforms[..i] == platforms;
      PublishKeys(this, platforms, content, imageUrl, imagePath, net);
      forall p | p in platforms {
        PublishGet(this, platforms, content, imageUrl, imagePath, net, p);
      }
    }
  }

  /** The result keys of the fan-out are the distinct names, in order of first
      appearance. */
  lemma {:induction false} PublishKeys(m: SocialMediaManager, platforms: seq<string>, content: string,
                                       imageUrl: Option<string>, imagePath: Option<string>, net: Network)
    ensures OrderedDict.DistinctKeys(Publish(m, platforms, content, imageUrl, imagePath, net).0)
    ensures OrderedDict.Keys(Publish(m, platforms, content, imageUrl, imagePath, net).0) == Distinct(platforms)
    decreases |platforms|
  {
    if platforms != [] {
      var n := |platforms| - 1;
      var front := platforms[..n];
      PublishKeys(m, front, content, imageUrl, imagePath, net);
      var results := Publish(m, front, content, imageUrl, imagePath, net).0;
      var run := m.Dispatch(platforms[n], content, imageUrl, imagePath, net);
      OrderedDict.PutKeys(results, platforms[n], run.result);
    }
  }

  /** Each listed name's entry is its own dispatch, and no other name has one;
      a name listed twice keeps the result of its last dispatch. */
  lemma {:induction false} PublishGet(m: SocialMediaManager, platforms: seq<string>, content: string,
                                      imageUrl: Option<string>, imagePath: Option<string>, net: Network, p: string)
    ensures OrderedDict.Get(Publish(m, platforms, content, imageUrl, imagePath, net).0, p) ==
      if p in platforms then Some(m.Dispatch(p, content, imageUrl, imagePath, net).result) else None
    decreases |platforms|
  {
    if platforms != [] {
      var n := |platforms| - 1;
      var front := platforms[..n];
      PublishGet(m, front, content, imageUrl, imagePath, net, p);
      var results := Publish(m, front, content, imageUrl, imagePath, net).0;
      var run := m.Dispatch(platforms[n], content, imageUrl, imagePath, net);
      OrderedDict.GetPut(results, platforms[n], run.result, p);
      assert p in platforms <==> p in front || p == platforms[n] by {
        assert platforms == front + [platforms[n]];
      }
    }
  }

  /** Requests are made only for platforms the manager serves: a list with no
      served name publishes nowhere. */
  lemma {:induction false} PublishCallsOnlyServed(m: SocialMediaManager, platforms: seq<string>, content: string,
                                                  imageUrl: Option<string>, imagePath: Option<string>, net: Network)
    requires forall i :: 0 <= i < |platforms| ==> !m.Serves(platforms[i])
    ensures Publish(m, platforms, content, imageUrl, imagePath, net).1 == []
    ensures forall i :: 0 <= i < |Publish(m, platforms, content, imageUrl, imagePath, net).0| ==>
      !Publish(m, platforms, content, imageUrl, imagePath, net).0[i].1.success
    decreases |platforms|
  {
    if platforms != [] {
      var n := |platforms| - 1;
      var front := platforms[..n];
      PublishCallsOnlyServed(m, front, content, imageUrl, imagePath, net);
      var results := Publish(m, front, content, imageUrl, imagePath, net).0;
      var run := m.Dispatch(platforms[n], content, imageUrl, imagePath, net);
      PutFailureKeepsFailures(results, platforms[n], run.result);
    }
  }

  lemma {:induction false} PutFailureKeepsFailures(d: Results, k: string, v: PlatformResult)
    requires !v.success
    requires forall i :: 0 <= i < |d| ==> !d[i].1.success
    ensures forall i :: 0 <= i < |OrderedDict.Put(d, k, v)| ==> !OrderedDict.Put(d, k, v)[i].1.success
  {
    if d != [] && d[0].0 != k {
      PutFailureKeepsFailures(d[1..], k, v);
      assert OrderedDict.Put(d, k, v) == [d[0]] + OrderedDict.Put(d[1..], k, v);
    }
  }

  /** A non-empty platform list always yields a non-empty result mapping. */
  lemma PublishNonEmpty(m: SocialMediaManager, platforms: seq<string>, content: string,
                        imageUrl: Option<string>, imagePath: Option<string>, net: Network)
    requires platforms != []
    ensures Publish(m, platforms, content, imageUrl, imagePath, net).0 != []
  {
    PublishKeys(m, platforms, content, imageUrl, imagePath, net);
    assert platforms[0] in Distinct(platforms);
  }
}
