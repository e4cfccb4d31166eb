/** The serverless app's posts: the in-memory table `posts_db` with its id
    counter, the handlers over it, and the app's own four adapters, which read
    the stored tokens and are called directly from the publish loop. */
module ServerlessPosts {
  import opened Common
  import OrderedDict
  import opened SocialMedia
  import opened Aggregation
  import AiContent
  import opened ServerlessAuth

  type Time = int

  // ---------------------------------------------------------------- the adapters

  const NoLinkedInSession := "Token expired. Please reconnect LinkedIn."

  /** `post_to_linkedin`: the profile lookup must answer 200; its member id is
      not checked, so a profile without one is shared as `urn:li:person:None`. */
  function PostToLinkedIn(tokens: Tokens, content: string, net: Network): (run: AdapterRun)
    ensures var token := Field(tokens, "linkedin", "access_token");
      && (!Truthy(token) ==> run == AdapterRun(Failure("LinkedIn not connected"), []))
      && (Truthy(token) ==>
            && 1 <= |run.calls| <= 2 && run.calls[0] == LinkedInUserInfo(token.value)
            && var lookup := net(run.calls[0]);
            && (|run.calls| == 2 <==> lookup.Replied? && lookup.status == 200)
            && (lookup.Replied? && lookup.status != 200 ==> run.result == Failure(NoLinkedInSession))
            && (|run.calls| == 2 ==>
                  run.calls[1] == LinkedInShare(token.value, "urn:li:person:" + lookup.sub.GetOr("None"), content)))
    ensures run.result.success <==>
      |run.calls| == 2 && net(run.calls[1]).Replied? && net(run.calls[1]).status in {200, 201}
    ensures run.result.success ==> run.result.postId == Some(net(run.calls[1]).id.GetOr(""))
  {
    var token := Field(tokens, "linkedin", "access_token");
    if !Truthy(token) then AdapterRun(Failure("LinkedIn not connected"), [])
    else
      var lookup := LinkedInUserInfo(token.value);
      match net(lookup)
      case Raised(m) => AdapterRun(Failure(m), [lookup])
      case Replied(status, _, sub, _, _) =>
        if status != 200 then AdapterRun(Failure(NoLinkedInSession), [lookup])
        else
          var share := LinkedInShare(token.value, "urn:li:person:" + sub.GetOr("None"), content);
          match net(share)
          case Raised(m) => AdapterRun(Failure(m), [lookup, share])
          case Replied(s, id, _, _, text) =>
            if s in {200, 201} then AdapterRun(Success(id.GetOr("")), [lookup, share])
            else AdapterRun(Failure(text), [lookup, share])
  }

  /** `post_to_twitter`: one request to the tweets endpoint with the cut text. */
  function PostToTwitter(tokens: Tokens, content: string, net: Network): (run: AdapterRun)
    ensures var token := Field(tokens, "twitter", "access_token");
      && (!Truthy(token) ==> run == AdapterRun(Failure("Twitter not connected"), []))
      && (Truthy(token) ==> run.calls == [TweetsEndpoint(token.value, TweetText(content))])
    ensures run.result.success <==> run.calls != [] && net(run.calls[0]).Replied? && net(run.calls[0]).status in {200, 201}
    ensures run.result.success ==> run.result.postId == Some(net(run.calls[0]).id.GetOr(""))
    ensures run.calls != [] && !run.result.success && net(run.calls[0]).Replied? ==>
      run.result.error == Some(net(run.calls[0]).text)
  {
    var token := Field(tokens, "twitter", "access_token");
    if !Truthy(token) then AdapterRun(Failure("Twitter not connected"), [])
    else
      var call := TweetsEndpoint(token.value, TweetText(content));
      match net(call)
      case Raised(m) => AdapterRun(Failure(m), [call])
      case Replied(s, id, _, _, text) =>
        if s in {200, 201} then AdapterRun(Success(id.GetOr("")), [call]) else AdapterRun(Failure(text), [call])
  }

  /** `post_to_facebook`: always a feed post, whatever the post's image. */
  function PostToFacebook(tokens: Tokens, content: string, net: Network): (run: AdapterRun)
    ensures var token, page := Field(tokens, "facebook", "access_token"), Field(tokens, "facebook", "page_id");
      && (!Truthy(token) || !Truthy(page) ==> run == AdapterRun(Failure("Facebook not connected"), []))
      && (Truthy(token) && Truthy(page) ==>
            run == AdapterRun(GraphResult(net(FacebookFeed(token.value, page.value, content)), "Unknown error"),
                              [FacebookFeed(token.value, page.value, content)]))
  {
    var token, page := Field(tokens, "facebook", "access_token"), Field(tokens, "facebook", "page_id");
    if !Truthy(token) || !Truthy(page) then AdapterRun(Failure("Facebook not connected"), [])
    else
      var call := FacebookFeed(token.value, page.value, content);
      AdapterRun(GraphResult(net(call), "Unknown error"), [call])
  }

  /** `post_to_instagram`: a media container, then its publication. */
  function PostToInstagram(tokens: Tokens, content: string, imageUrl: string, net: Network): (run: AdapterRun)
    ensures var token, account := Field(tokens, "instagram", "access_token"), Field(tokens, "instagram", "account_id");
      && (!Truthy(token) || !Truthy(account) ==> run == AdapterRun(Failure("Instagram not connected"), []))
      && (Truthy(token) && Truthy(account) && imageUrl == "" ==> run == AdapterRun(Failure("Instagram requires an image"), []))
      && (Truthy(token) && Truthy(account) && imageUrl != "" ==>
            && 1 <= |run.calls| <= 2
            && run.calls[0] == InstagramContainer(token.value, account.value, imageUrl, content)
            && (|run.calls| == 2 ==>
                  var c := net(run.calls[0]);
                  c.Replied? && c.id.Some? && run.calls[1] == InstagramPublish(token.value, account.value, c.id.value)))
    ensures run.result.success <==> |run.calls| == 2 && net(run.calls[1]).Replied? && net(run.calls[1]).id.Some?
    ensures run.result.success ==> run.result.postId == net(run.calls[1]).id
  {
    var token, account := Field(tokens, "instagram", "access_token"), Field(tokens, "instagram", "account_id");
    if !Truthy(token) || !Truthy(account) then AdapterRun(Failure("Instagram not connected"), [])
    else if imageUrl == "" then AdapterRun(Failure("Instagram requires an image"), [])
    else
      var container := InstagramContainer(token.value, account.value, imageUrl, content);
      match net(container)
      case Raised(m) => AdapterRun(Failure(m), [container])
      case Replied(_, id, _, errorMessage, _) =>
        if id.None? then AdapterRun(Failure(errorMessage.GetOr("Failed")), [container])
        else
          var publish := InstagramPublish(token.value, account.value, id.value);
          AdapterRun(GraphResult(net(publish), "Failed"), [container, publish])
  }

  /** The four names the publish loop knows. */
  predicate Known(platform: string) {
    platform in {"linkedin", "twitter", "facebook", "instagram"}
  }

  /** One step of the publish loop: the adapter for a known name (Instagram
      gets `image_url or ""`), nothing for any other name. */
  function Route(tokens: Tokens, platform: string, content: string, imageUrl: Option<string>, net: Network): (r: Option<AdapterRun>)
    ensures r.Some? <==> Known(platform)
    // each known name goes to its own adapter
    ensures platform == "linkedin" ==> r == Some(PostToLinkedIn(tokens, content, net))
    ensures platform == "twitter" ==> r == Some(PostToTwitter(tokens, content, net))
    ensures platform == "facebook" ==> r == Some(PostToFacebook(tokens, content, net))
    ensures platform == "instagram" ==> r == Some(PostToInstagram(tokens, content, imageUrl.GetOr(""), net))
  {
    if platform == "linkedin" then Some(PostToLinkedIn(tokens, content, net))
    else if platform == "twitter" then Some(PostToTwitter(tokens, content, net))
    else if platform == "facebook" then Some(PostToFacebook(tokens, content, net))
    else if platform == "instagram" then Some(PostToInstagram(tokens, content, imageUrl.GetOr(""), net))
    else None
  }

  /** The known names of a list, in order. */
  function KnownOnly(platforms: seq<string>): (k: seq<string>)
    ensures forall p :: p in k <==> p in platforms && Known(p)
    ensures k == [] <==> forall i :: 0 <= i < |platforms| ==> !Known(platforms[i])
  {
    if platforms == [] then []
    else
      var n := |platforms| - 1;
      assert forall p :: p in platforms <==> p in platforms[..n] || p == platforms[n];
      KnownOnly(platforms[..n]) + (if Known(platforms[n]) then [platforms[n]] else [])
  }

  /** The publish loop as a specification: the results after each name in
      turn, and every request made. */
  function Fanout(tokens: Tokens, platforms: seq<string>, content: string, imageUrl: Option<string>, net: Network)
    : (Results, seq<Request>)
    decreases |platforms|
  {
    if platforms == [] then ([], [])
    else
      var n := |platforms| - 1;
      var (results, calls) := Fanout(tokens, platforms[..n], content, imageUrl, net);
      match Route(tokens, platforms[n], content, imageUrl, net)
      case None => (results, calls)
      case Some(run) => (OrderedDict.Put(results, platforms[n], run.result), calls + run.calls)
  }

  /** The result keys are the distinct known names, in order of first appearance. */
  lemma {:induction false} FanoutKeys(tokens: Tokens, platforms: seq<string>, content: string, imageUrl: Option<string>, net: Network)
    ensures OrderedDict.DistinctKeys(Fanout(tokens, platforms, content, imageUrl, net).0)
    ensures OrderedDict.Keys(Fanout(tokens, platforms, content, imageUrl, net).0) == Distinct(KnownOnly(platforms))
    decreases |platforms|
  {
    if platforms != [] {
      var n := |platforms| - 1;
      var front := platforms[..n];
      FanoutKeys(tokens, front, content, imageUrl, net);
      var results := Fanout(tokens, front, content, imageUrl, net).0;
      assert KnownOnly(platforms) == KnownOnly(front) + (if Known(platforms[n]) then [platforms[n]] else []);
      if Known(platforms[n]) {
        var run := Route(tokens, platforms[n], content, imageUrl, net).value;
        OrderedDict.PutKeys(results, platforms[n], run.result);
        var kp := KnownOnly(platforms);
        assert kp[..|kp| - 1] == KnownOnly(front) && kp[|kp| - 1] == platforms[n];
      } else {
        assert KnownOnly(platforms) == KnownOnly(front);
      }
    }
  }

  /** A known listed name has its adapter's result; an unknown or unlisted one
      has no entry at all. */
  lemma {:induction false} FanoutGet(tokens: Tokens, platforms: seq<string>, content: string, imageUrl: Option<string>,
                                     net: Network, p: string)
    ensures OrderedDict.Get(Fanout(tokens, platforms, content, imageUrl, net).0, p) ==
      if p in platforms && Known(p) then Some(Route(tokens, p, content, imageUrl, net).value.result) else None
    decreases |platforms|
  {
    if platforms != [] {
      var n := |platforms| - 1;
      var front := platforms[..n];
      FanoutGet(tokens, front, content, imageUrl, net, p);
      assert p in platforms <==> p in front || p == platforms[n] by {
        assert platforms == front + [platforms[n]];
      }
      var results := Fanout(tokens, front, content, imageUrl, net).0;
      if Known(platforms[n]) {
        var run := Route(tokens, platforms[n], content, imageUrl, net).value;
        OrderedDict.GetPut(results, platforms[n], run.result, p);
      }
    }
  }

  /** A list without a known name publishes nowhere and records the sentinel. */
  lemma FanoutNothingKnown(tokens: Tokens, platforms: seq<string>, content: string, imageUrl: Option<string>, net: Network)
    requires forall i :: 0 <= i < |platforms| ==> !Known(platforms[i])
    ensures Fanout(tokens, platforms, content, imageUrl, net).0 == []
    ensures Serverless(Fanout(tokens, platforms, content, imageUrl, net).0) == Verdict(false, "failed", None, Some(NoPlatforms), false)
  {
    FanoutKeys(tokens, platforms, content, imageUrl, net);
    var r := Fanout(tokens, platforms, content, imageUrl, net).0;
    assert |OrderedDict.Keys(r)| == 0;
  }

  // ---------------------------------------------------------------- the table

  /** One `posts_db` entry. The two timestamps are the clock readings whose
      ISO forms the app stores; ISO strings of one clock sort as the readings do. */
  datatype Record = Record(
    id: int,
    content: string,
    imageUrl: Option<string>,
    imagePrompt: Option<string>,
    contentType: string,
    topic: Option<string>,
    platforms: seq<string>,
    status: string,
    autoPost: bool,
    scheduledTime: Option<string>,
    postedIds: map<string, string>,
    postedTime: Option<Time>,
    errorMessage: Option<string>,
    wordCount: nat,
    createdAt: Time,
    updatedAt: Time)

  /** A handler's answer: `success` and the post, or an HTTP error. */
  datatype Response = Answer(success: bool, post: Option<Record>) | HttpError(code: int, detail: string)

  const NotFound := HttpError(404, "Post not found")

  /** The body of `POST /api/posts/generate`. */
  datatype GenerateRequest = GenerateRequest(
    contentType: string, topic: Option<string>, platforms: seq<string>, customPrompt: Option<string>, autoPost: bool)

  /** The body of `POST /api/posts`. */
  datatype CreateRequest = CreateRequest(
    content: string, imageUrl: Option<string>, imagePrompt: Option<string>, contentType: string,
    topic: Option<string>, platforms: seq<string>, autoPost: bool, scheduledTime: Option<string>)

  /** The body of `PATCH /api/posts/{id}`: `None` leaves a field alone. */
  datatype UpdateRequest = UpdateRequest(
    content: Option<string>, imageUrl: Option<string>, platforms: Option<seq<string>>,
    status: Option<string>, scheduledTime: Option<string>, autoPost: Option<bool>)

  /** The generated post: always pending approval, whatever `auto_post` says. */
  function Generated(id: int, rq: GenerateRequest, content: string, parsed: AiContent.JsonFields, now: Time): (r: Record)
    ensures r.id == id && r.status == "pending_approval" && r.topic == rq.topic
    ensures r.content == content && r.wordCount == WordCount(content)
    ensures r.imagePrompt == Some(parsed.imagePrompt.GetOr(""))
    ensures r.postedIds == map[] && r.postedTime.None? && r.errorMessage.None? && r.scheduledTime.None?
    ensures r.imageUrl.None? && r.contentType == rq.contentType && r.platforms == rq.platforms && r.autoPost == rq.autoPost
    ensures r.createdAt == now == r.updatedAt
  {
    Record(id, content, None, Some(parsed.imagePrompt.GetOr("")), rq.contentType, rq.topic, rq.platforms,
           "pending_approval", rq.autoPost, None, map[], None, None, WordCount(content), now, now)
  }

  /** A created post: scheduled exactly when it has a non-empty time, a draft
      otherwise; the time itself is stored as given. */
  function Created(id: int, rq: CreateRequest, now: Time): (r: Record)
    ensures r.id == id && r.content == rq.content && r.wordCount == WordCount(rq.content)
    ensures r.status == (if Truthy(rq.scheduledTime) then "scheduled" else "draft")
    ensures r.scheduledTime == rq.scheduledTime && r.imageUrl == rq.imageUrl && r.imagePrompt == rq.imagePrompt
    ensures r.contentType == rq.contentType && r.topic == rq.topic && r.platforms == rq.platforms && r.autoPost == rq.autoPost
    ensures r.postedIds == map[] && r.postedTime.None? && r.errorMessage.None?
    ensures r.createdAt == now == r.updatedAt
  {
    Record(id, rq.content, rq.imageUrl, rq.imagePrompt, rq.contentType, rq.topic, rq.platforms,
           if Truthy(rq.scheduledTime) then "scheduled" else "draft", rq.autoPost, rq.scheduledTime,
           map[], None, None, WordCount(rq.content), now, now)
  }

  /** `update_post`'s writes: the given fields, the word count with the content,
      and the update time in every case. */
  function Updated(r: Record, rq: UpdateRequest, now: Time): (u: Record)
    ensures u.content == rq.content.GetOr(r.content)
    ensures u.wordCount == (if rq.content.Some? then WordCount(rq.content.value) else r.wordCount)
    ensures u.imageUrl == (if rq.imageUrl.Some? then rq.imageUrl else r.imageUrl)
    ensures u.platforms == rq.platforms.GetOr(r.platforms) && u.status == rq.status.GetOr(r.status)
    ensures u.scheduledTime == (if rq.scheduledTime.Some? then rq.scheduledTime else r.scheduledTime)
    ensures u.autoPost == rq.autoPost.GetOr(r.autoPost) && u.updatedAt == now
    ensures u.(content := r.content, wordCount := r.wordCount, imageUrl := r.imageUrl, platforms := r.platforms,
               status := r.status, scheduledTime := r.scheduledTime, autoPost := r.autoPost, updatedAt := r.updatedAt) == r
  {
    r.(content := rq.content.GetOr(r.content),
       wordCount := if rq.content.Some? then WordCount(rq.content.value) else r.wordCount,
       imageUrl := if rq.imageUrl.Some? then rq.imageUrl else r.imageUrl,
       platforms := rq.platforms.GetOr(r.platforms),
       status := rq.status.GetOr(r.status),
       scheduledTime := if rq.scheduledTime.Some? then rq.scheduledTime else r.scheduledTime,
       autoPost := rq.autoPost.GetOr(r.autoPost),
       updatedAt := now)
  }

  /** A verdict's writes, and the update time. */
  function Recorded(r: Record, v: Verdict, now: Time): (u: Record)
    ensures u.status == v.status && u.updatedAt == now
    ensures u.postedIds == v.postedIds.GetOr(r.postedIds)
    ensures u.errorMessage == (if v.errorMessage.Some? then v.errorMessage else r.errorMessage)
    ensures u.postedTime == (if v.stamp then Some(now) else r.postedTime)
    ensures u.(status := r.status, postedIds := r.postedIds, errorMessage := r.errorMessage,
               postedTime := r.postedTime, updatedAt := r.updatedAt) == r
  {
    r.(status := v.status, postedIds := v.postedIds.GetOr(r.postedIds),
       errorMessage := if v.errorMessage.Some? then v.errorMessage else r.errorMessage,
       postedTime := if v.stamp then Some(now) else r.postedTime, updatedAt := now)
  }

  // ---------------------------------------------------------------- listing

  /** The `status` and `content_type` filters; an empty or absent filter keeps all. */
  predicate Matches(r: Record, status: Option<string>, contentType: Option<string>) {
    && (Truthy(status) ==> r.status == status.value)
    && (Truthy(contentType) ==> r.contentType == contentType.value)
  }

  function Matching(s: seq<Record>, status: Option<string>, contentType: Option<string>): (m: seq<Record>)
    ensures forall r :: r in m ==> r in s && Matches(r, status, contentType)
    ensures forall r :: r in s && Matches(r, status, contentType) ==> r in m
    ensures multiset(m) <= multiset(s) && |m| <= |s|
  {
    if s == [] then []
    else
      var rest := Matching(s[1..], status, contentType);
      assert s == [s[0]] + s[1..];
      if Matches(s[0], status, contentType) then [s[0]] + rest else rest
  }

  /** Newest first, as the records created at one instant sort. */
  predicate NewestFirstOrder(s: seq<Record>) {
    forall i, j :: 0 <= i < j < |s| ==> s[i].createdAt >= s[j].createdAt
  }

  /** The records created at instant `t`, in order. */
  function At(s: seq<Record>, t: Time): seq<Record> {
    if s == [] then [] else (if s[0].createdAt == t then [s[0]] else []) + At(s[1..], t)
  }

  /** `x` placed before the first record no newer than it. */
  function InsertByTime(x: Record, s: seq<Record>): seq<Record> {
    if s == [] then [x]
    else if s[0].createdAt <= x.createdAt then [x] + s
    else [s[0]] + InsertByTime(x, s[1..])
  }

  /** `sorted(s, key=created_at, reverse=True)`. */
  function NewestFirst(s: seq<Record>): seq<Record> {
    if s == [] then [] else InsertByTime(s[0], NewestFirst(s[1..]))
  }

  lemma {:induction false} InsertByTimeKeeps(x: Record, s: seq<Record>)
    ensures multiset(InsertByTime(x, s)) == multiset(s) + multiset{x}
  {
    if s != [] && s[0].createdAt > x.createdAt {
      InsertByTimeKeeps(x, s[1..]);
      assert s == [s[0]] + s[1..];
    }
  }

  /** Every record of an insertion is `x` or one of `s`. */
  lemma InsertByTimeMembers(x: Record, s: seq<Record>, y: Record)
    requires y in InsertByTime(x, s)
    ensures y == x || y in s
  {
    InsertByTimeKeeps(x, s);
    assert y in multiset(InsertByTime(x, s));
  }

  lemma {:induction false} InsertByTimeOrder(x: Record, s: seq<Record>)
    requires NewestFirstOrder(s)
    ensures NewestFirstOrder(InsertByTime(x, s))
  {
    if s != [] && s[0].createdAt > x.createdAt {
      var rest := InsertByTime(x, s[1..]);
      OrderTail(s);
      InsertByTimeOrder(x, s[1..]);
      forall j | 0 <= j < |rest| ensures rest[j].createdAt <= s[0].createdAt {
        assert rest[j] in rest;
        InsertByTimeMembers(x, s[1..], rest[j]);
        if rest[j] != x {
          var k :| 0 <= k < |s[1..]| && s[1..][k] == rest[j];
          assert s[k + 1] == rest[j];
        }
      }
      ConsOrder(s[0], rest);
    } else if s != [] {
      forall j | 0 <= j < |s| ensures s[j].createdAt <= x.createdAt {
        assert s[j].createdAt <= s[0].createdAt;
      }
      ConsOrder(x, s);
    }
  }

  /** The tail of a newest-first run is newest first. */
  lemma OrderTail(s: seq<Record>)
    requires s != [] && NewestFirstOrder(s)
    ensures NewestFirstOrder(s[1..])
  {
    forall i, j | 0 <= i < j < |s[1..]| ensures s[1..][i].createdAt >= s[1..][j].createdAt {
      assert s[1..][i] == s[i + 1] && s[1..][j] == s[j + 1];
    }
  }

  /** A record no older than any of a newest-first run can go in front of it. */
  lemma ConsOrder(h: Record, rest: seq<Record>)
    requires NewestFirstOrder(rest)
    requires forall j :: 0 <= j < |rest| ==> rest[j].createdAt <= h.createdAt
    ensures NewestFirstOrder([h] + rest)
  {
    var r := [h] + rest;
    forall i, j | 0 <= i < j < |r| ensures r[i].createdAt >= r[j].createdAt {
      assert r[j] == rest[j - 1];
      if i > 0 {
        assert r[i] == rest[i - 1];
      }
    }
  }

  lemma {:induction false} InsertByTimeAt(x: Record, s: seq<Record>, t: Time)
    ensures At(InsertByTime(x, s), t) == (if x.createdAt == t then [x] else []) + At(s, t)
  {
    if s != [] && s[0].createdAt > x.createdAt {
      var rest := InsertByTime(x, s[1..]);
      InsertByTimeAt(x, s[1..], t);
      assert ([s[0]] + rest)[0] == s[0] && ([s[0]] + rest)[1..] == rest;
    } else if s != [] {
      assert ([x] + s)[0] == x && ([x] + s)[1..] == s;
    }
  }

  /** Sorting keeps every record, orders them newest first, and leaves
      records created at the same instant in their table order. */
  lemma {:induction false} NewestFirstLaws(s: seq<Record>, t: Time)
    ensures multiset(NewestFirst(s)) == multiset(s)
    ensures NewestFirstOrder(NewestFirst(s))
    ensures At(NewestFirst(s), t) == At(s, t)
  {
    if s != [] {
      NewestFirstLaws(s[1..], t);
      InsertByTimeKeeps(s[0], NewestFirst(s[1..]));
      InsertByTimeOrder(s[0], NewestFirst(s[1..]));
      InsertByTimeAt(s[0], NewestFirst(s[1..]), t);
      assert s == [s[0]] + s[1..];
    }
  }

  /** Filtering keeps table order: the matches created at instant `t` are the
      matching records among those created at `t`, in the same order. */
  lemma {:induction false} MatchingAt(s: seq<Record>, status: Option<string>, contentType: Option<string>, t: Time)
    ensures At(Matching(s, status, contentType), t) == Matching(At(s, t), status, contentType)
    decreases |s|
  {
    if s != [] {
      MatchingAt(s[1..], status, contentType, t);
      var rest := Matching(s[1..], status, contentType);
      var head := if s[0].createdAt == t then [s[0]] else [];
      assert At(s, t) == head + At(s[1..], t);
      if Matches(s[0], status, contentType) {
        assert ([s[0]] + rest)[0] == s[0] && ([s[0]] + rest)[1..] == rest;
      }
      if s[0].createdAt == t {
        assert (head + At(s[1..], t))[0] == s[0] && (head + At(s[1..], t))[1..] == At(s[1..], t);
      } else {
        assert head + At(s[1..], t) == At(s[1..], t);
      }
    }
  }

  /** The sorted matches created at one instant come in table order. */
  lemma SortedMatchingAt(values: seq<Record>, status: Option<string>, contentType: Option<string>, t: Time)
    ensures At(NewestFirst(Matching(values, status, contentType)), t) == Matching(At(values, t), status, contentType)
  {
    NewestFirstLaws(Matching(values, status, contentType), t);
    MatchingAt(values, status, contentType, t);
  }

  /** The answer of `list_posts`: the page and its own length. */
  datatype Listing = Listing(posts: seq<Record>, total: int)

  /** `list_posts`: filter, sort newest first, then `[offset:offset + limit]`. */
  function ListPage(values: seq<Record>, status: Option<string>, contentType: Option<string>,
                    limit: int, offset: int): (l: Listing)
    ensures l.total == |l.posts|
  {
    var page := PySlice(NewestFirst(Matching(values, status, contentType)), offset, offset + limit);
    Listing(page, |page|)
  }

  /** A Python slice of a sequence is one of its contiguous runs. */
  lemma SliceRun<T>(s: seq<T>, i: int, j: int) returns (a: nat, b: nat)
    ensures a <= b <= |s| && PySlice(s, i, j) == s[a..b]
    ensures 0 <= i <= j ==> a == Min(i, |s|) && b == Min(j, |s|)
  {
    a, b := SliceIndex(i, |s|), SliceIndex(j, |s|);
    if a > b {
      b := a;
    }
  }

  /** A listed post is a stored one that matches the filters, the page is
      newest first, and a non-negative `limit` caps its length. */
  lemma ListPageSound(values: seq<Record>, status: Option<string>, contentType: Option<string>, limit: int, offset: int)
    ensures var l := ListPage(values, status, contentType, limit, offset);
      && (forall r :: r in l.posts ==> r in values && Matches(r, status, contentType))
      && NewestFirstOrder(l.posts)
      && (limit >= 0 ==> |l.posts| <= limit)
  {
    var m := Matching(values, status, contentType);
    var sorted := NewestFirst(m);
    NewestFirstLaws(m, 0);
    PySliceBound(sorted, offset, offset + limit);
    var a, b := SliceRun(sorted, offset, offset + limit);
    RunKeepsOrder(sorted, a, b);
    RunMembers(sorted, a, b);
    forall r | r in sorted ensures r in values && Matches(r, status, contentType) {
      assert r in multiset(sorted);
    }
  }

  /** The sorted matching posts keep their number. */
  lemma SortedMatchingLength(values: seq<Record>, status: Option<string>, contentType: Option<string>)
    ensures |NewestFirst(Matching(values, status, contentType))| == |Matching(values, status, contentType)|
  {
    var m := Matching(values, status, contentType);
    NewestFirstLaws(m, 0);
    assert |multiset(NewestFirst(m))| == |multiset(m)|;
  }

  /** From a non-negative offset, with a limit that keeps the end bound
      non-negative, the page is the window `[offset, offset + limit)` of the
      matching posts sorted newest first. */
  lemma ListPageWindow(values: seq<Record>, status: Option<string>, contentType: Option<string>, limit: int, offset: int)
    requires offset >= 0 && offset + limit >= 0
    ensures var l := ListPage(values, status, contentType, limit, offset);
      var sorted := NewestFirst(Matching(values, status, contentType));
      var n := |Matching(values, status, contentType)|;
      && |l.posts| == Max(0, Min(offset + limit, n) - Min(offset, n))
      && (forall k :: 0 <= k < |l.posts| ==> l.posts[k] == sorted[offset + k])
  {
    SortedMatchingLength(values, status, contentType);
    var sorted := NewestFirst(Matching(values, status, contentType));
    WindowOfSlice(sorted, offset, offset + limit);
  }

  lemma WindowOfSlice<T>(s: seq<T>, i: int, j: int)
    requires 0 <= i && 0 <= j
    ensures |PySlice(s, i, j)| == Max(0, Min(j, |s|) - Min(i, |s|))
    ensures forall k :: 0 <= k < |PySlice(s, i, j)| ==> PySlice(s, i, j)[k] == s[i + k]
  {
  }

  /** A negative limit from offset 0 is a Python end bound counted from the
      back: the page is every matching post but the last `-limit`. */
  lemma ListPageNegativeLimit(values: seq<Record>, status: Option<string>, contentType: Option<string>, limit: int)
    requires limit < 0
    ensures var sorted := NewestFirst(Matching(values, status, contentType));
      ListPage(values, status, contentType, limit, 0).posts == sorted[..Max(0, |sorted| + limit)]
  {
  }

  /** A contiguous run of a newest-first list is newest first. */
  lemma RunKeepsOrder(s: seq<Record>, a: nat, b: nat)
    requires a <= b <= |s| && NewestFirstOrder(s)
    ensures NewestFirstOrder(s[a..b])
  {
    forall i, j | 0 <= i < j < b - a ensures s[a..b][i].createdAt >= s[a..b][j].createdAt {
      assert s[a..b][i] == s[a + i] && s[a..b][j] == s[a + j];
    }
  }

  /** Every element of a contiguous run is an element of the list. */
  lemma RunMembers<T>(s: seq<T>, a: nat, b: nat)
    requires a <= b <= |s|
    ensures forall x :: x in s[a..b] ==> x in s
  {
    forall x | x in s[a..b] ensures x in s {
      var k :| 0 <= k < b - a && s[a..b][k] == x;
      assert s[a + k] == x;
    }
  }

  /** A first page at least as long as the table lists every matching post. */
  lemma ListPageComplete(values: seq<Record>, status: Option<string>, contentType: Option<string>, limit: int)
    requires limit >= |values|
    ensures multiset(ListPage(values, status, contentType, limit, 0).posts) == multiset(Matching(values, status, contentType))
  {
    var m := Matching(values, status, contentType);
    var sorted := NewestFirst(m);
    NewestFirstLaws(m, 0);
    assert |sorted| == |m| by {
      assert |multiset(sorted)| == |multiset(m)|;
    }
    var a, b := SliceRun(sorted, 0, limit);
    assert sorted[a..b] == sorted;
  }

  /** The loop of `publish_post`: each name of the list in turn, a known one
      handed to its adapter and its result stored under the name. */
  method PublishLoop(tokens: Tokens, platforms: seq<string>, content: string, imageUrl: Option<string>, net: Network)
    returns (results: Results, calls: seq<Request>)
    ensures (results, calls) == Fanout(tokens, platforms, content, imageUrl, net)
  {
    results, calls := [], [];
    var i := 0;
    while i < |platforms|
      invariant 0 <= i <= |platforms|
      invariant (results, calls) == Fanout(tokens, platforms[..i], content, imageUrl, net)
    {
      var platform := platforms[i];
      var run: AdapterRun;
      if platform == "linkedin" {
        run := PostToLinkedIn(tokens, content, net);
        results, calls := OrderedDict.Put(results, "linkedin", run.result), calls + run.calls;
      } else if platform == "twitter" {
        run := PostToTwitter(tokens, content, net);
        results, calls := OrderedDict.Put(results, "twitter", run.result), calls + run.calls;
      } else if platform == "facebook" {
        run := PostToFacebook(tokens, content, net);
        results, calls := OrderedDict.Put(results, "facebook", run.result), calls + run.calls;
      } else if platform == "instagram" {
        run := PostToInstagram(tokens, content, imageUrl.GetOr(""), net);
        results, calls := OrderedDict.Put(results, "instagram", run.result), calls + run.calls;
      }
      assert platforms[..i + 1][..i] == platforms[..i];
      i := i + 1;
    }
    assert platforms[..i] == platforms;
  }

  // ---------------------------------------------------------------- the app

  /** Every row sits under its own id, and every id is at most `counter`. */
  ghost predicate Keyed(d: OrderedDict.Dict<int, Record>, counter: int) {
    forall i :: 0 <= i < |d| ==> d[i].1.id == d[i].0 && 1 <= d[i].0 <= counter
  }

  /** Storing a row under an issued id of its own keeps the rows keyed. */
  lemma PutKeyed(d: OrderedDict.Dict<int, Record>, r: Record, counter: int)
    requires Keyed(d, counter) && 1 <= r.id <= counter
    ensures Keyed(OrderedDict.Put(d, r.id, r), counter)
  {
    OrderedDict.PutMembers(d, r.id, r);
    var e := OrderedDict.Put(d, r.id, r);
    forall i | 0 <= i < |e| ensures e[i].1.id == e[i].0 && 1 <= e[i].0 <= counter {
      assert e[i] in e;
      if e[i] != (r.id, r) {
        var k :| 0 <= k < |d| && d[k] == e[i];
      }
    }
  }

  /** Removing a row keeps the others keyed. */
  lemma RemoveKeyed(d: OrderedDict.Dict<int, Record>, id: int, counter: int)
    requires Keyed(d, counter)
    ensures Keyed(OrderedDict.Remove(d, id), counter)
  {
    OrderedDict.RemoveKeys(d, id);
    var e := OrderedDict.Remove(d, id);
    forall i | 0 <= i < |e| ensures e[i].1.id == e[i].0 && 1 <= e[i].0 <= counter {
      var k :| 0 <= k < |d| && d[k] == e[i];
    }
  }

  /** A present key is one of the listed keys. */
  lemma HasKeyInKeys<V>(d: OrderedDict.Dict<int, V>, k: int)
    requires OrderedDict.HasKey(d, k)
    ensures k in OrderedDict.Keys(d)
  {
    var i :| 0 <= i < |d| && d[i].0 == k;
    assert OrderedDict.Keys(d)[i] == k;
  }

  class PostsTable {
    var posts: OrderedDict.Dict<int, Record>
    var postCounter: int

    /** Every row sits under its own id, and every id has been issued by the counter. */
    ghost predicate Valid()
      reads this
    {
      && postCounter >= 0
      && OrderedDict.DistinctKeys(posts)
      && Keyed(posts, postCounter)
    }

    constructor ()
      ensures Valid() && posts == [] && postCounter == 0
    {
      posts := [];
      postCounter := 0;
    }

    /** A new row under the next id; ids are never reused, even after a delete. */
    method Append(r: Record)
      requires Valid() && r.id == postCounter + 1
      modifies this
      ensures Valid()
      ensures postCounter == old(postCounter) + 1 && posts == old(posts) + [(r.id, r)]
      ensures !OrderedDict.HasKey(old(posts), r.id)
    {
      ghost var before := posts;
      postCounter := postCounter + 1;
      posts := posts + [(r.id, r)];
      assert forall i :: 0 <= i < |before| ==> posts[i] == before[i] && before[i].0 < r.id;
      assert posts[|before|] == (r.id, r);
      assert !OrderedDict.HasKey(before, r.id);
    }

    /** The counter advances with no row stored under the new id. */
    method UseId()
      requires Valid()
      modifies this
      ensures Valid() && postCounter == old(postCounter) + 1 && posts == old(posts)
    {
      postCounter := postCounter + 1;
    }

    /** `get_post`. */
    method GetPost(id: int) returns (resp: Response)
      requires Valid()
      ensures OrderedDict.Get(posts, id).None? ==> resp == NotFound
      ensures OrderedDict.Get(posts, id).Some? ==> resp == Answer(true, OrderedDict.Get(posts, id))
      ensures resp.Answer? ==> resp.post.value.id == id
    {
      var found := OrderedDict.Get(posts, id);
      if found.None? {
        return NotFound;
      }
      return Answer(true, found);
    }

    /** `generate_content`: no API key or a failed completion is a 500 and
        changes nothing. Otherwise the counter advances; then decoded content
        that is not a string makes counting its words raise, a 500 with
        nothing stored and the id used up, and text content is stored under
        the new id. */
    method GenerateContent(openAiKey: Option<string>, rq: GenerateRequest, chat: AiContent.Chat,
                           decode: AiContent.Decoder, now: Time) returns (resp: Response)
      requires Valid()
      modifies this
      ensures Valid()
      ensures var reply := chat(AiContent.GenerationRequest(rq.contentType, rq.topic, Some(rq.platforms),
                                                            rq.customPrompt, AiContent.ServerlessDefaultPrompt));
        && (!Truthy(openAiKey) ==> resp == HttpError(500, "OpenAI API key not configured") && unchanged(this))
        && (Truthy(openAiKey) && reply.ChatFailed? ==> resp == HttpError(500, reply.message) && unchanged(this))
        && (Truthy(openAiKey) && reply.Answered? ==>
              var raw := Strip(reply.text);
              var parsed := AiContent.ParseAiResponse(raw, decode);
              var content := AiContent.ContentOr(parsed, raw);
              && postCounter == old(postCounter) + 1
              && (content.NotText? ==>
                    resp == HttpError(500, AiContent.NoSplitError(content.typeName)) && posts == old(posts))
              && (content.JsonText? ==>
                    var r := Generated(old(postCounter) + 1, rq, content.text, parsed, now);
                    && posts == old(posts) + [(r.id, r)]
                    && resp == Answer(true, Some(r))))
    {
      if !Truthy(openAiKey) {
        return HttpError(500, "OpenAI API key not configured");
      }
      var request := AiContent.GenerationRequest(rq.contentType, rq.topic, Some(rq.platforms),
                                                 rq.customPrompt, AiContent.ServerlessDefaultPrompt);
      match chat(request) {
        case ChatFailed(message) =>
          return HttpError(500, message);
        case Answered(text) =>
          var raw := Strip(text);
          var parsed := AiContent.ParseAiResponse(raw, decode);
          match AiContent.ContentOr(parsed, raw) {
            case NotText(typeName) =>
              UseId();
              return HttpError(500, AiContent.NoSplitError(typeName));
            case JsonText(content) =>
              var r := Generated(postCounter + 1, rq, content, parsed, now);
              Append(r);
              return Answer(true, Some(r));
          }
      }
    }

    /** `create_post`. */
    method CreatePost(rq: CreateRequest, now: Time) returns (resp: Response)
      requires Valid()
      modifies this
      ensures Valid()
      ensures var r := Created(old(postCounter) + 1, rq, now);
        && posts == old(posts) + [(r.id, r)] && postCounter == old(postCounter) + 1
        && resp == Answer(true, Some(r))
    {
      var r := Created(postCounter + 1, rq, now);
      Append(r);
      return Answer(true, Some(r));
    }

    /** Replacing a stored row under its own id keeps the table valid. */
    method Replace(r: Record)
      requires Valid() && OrderedDict.HasKey(posts, r.id)
      modifies this
      ensures Valid() && postCounter == old(postCounter)
      ensures posts == OrderedDict.Put(old(posts), r.id, r)
      ensures OrderedDict.Keys(posts) == OrderedDict.Keys(old(posts))
    {
      OrderedDict.PutKeys(posts, r.id, r);
      HasKeyInKeys(posts, r.id);
      ghost var i :| 0 <= i < |posts| && posts[i].0 == r.id;
      PutKeyed(posts, r, postCounter);
      posts := OrderedDict.Put(posts, r.id, r);
    }

    /** `update_post`. */
    method UpdatePost(id: int, rq: UpdateRequest, now: Time) returns (resp: Response)
      requires Valid()
      modifies this
      ensures Valid() && postCounter == old(postCounter)
      ensures OrderedDict.Get(old(posts), id).None? ==> resp == NotFound && posts == old(posts)
      ensures OrderedDict.Get(old(posts), id).Some? ==>
        var u := Updated(OrderedDict.Get(old(posts), id).value, rq, now);
        && posts == OrderedDict.Put(old(posts), id, u)
        && resp == Answer(true, Some(u))
    {
      var found := OrderedDict.Get(posts, id);
      if found.None? {
        return NotFound;
      }
      var u := Updated(found.value, rq, now);
      IdOfGet(id);
      Replace(u);
      return Answer(true, Some(u));
    }

    /** `approve_post`: approved, whatever the status was. */
    method ApprovePost(id: int, now: Time) returns (resp: Response)
      requires Valid()
      modifies this
      ensures Valid() && postCounter == old(postCounter)
      ensures OrderedDict.Get(old(posts), id).None? ==> resp == NotFound && posts == old(posts)
      ensures OrderedDict.Get(old(posts), id).Some? ==>
        var u := OrderedDict.Get(old(posts), id).value.(status := "approved", updatedAt := now);
        && posts == OrderedDict.Put(old(posts), id, u)
        && resp == Answer(true, Some(u))
    {
      var found := OrderedDict.Get(posts, id);
      if found.None? {
        return NotFound;
      }
      var u := found.value.(status := "approved", updatedAt := now);
      IdOfGet(id);
      Replace(u);
      return Answer(true, Some(u));
    }

    /** `delete_post`: the row goes; the counter stays, so its id is never issued again. */
    method DeletePost(id: int) returns (resp: Response)
      requires Valid()
      modifies this
      ensures Valid() && postCounter == old(postCounter)
      ensures OrderedDict.Get(old(posts), id).None? ==> resp == NotFound && posts == old(posts)
      ensures OrderedDict.Get(old(posts), id).Some? ==>
        resp == Answer(true, None) && posts == OrderedDict.Remove(old(posts), id)
    {
      var found := OrderedDict.Get(posts, id);
      if found.None? {
        return NotFound;
      }
      OrderedDict.RemoveDistinct(posts, id);
      RemoveKeyed(posts, id, postCounter);
      posts := OrderedDict.Remove(posts, id);
      return Answer(true, None);
    }

    /** `list_posts` over the table's rows in insertion order. */
    function ListPosts(status: Option<string>, contentType: Option<string>, limit: int, offset: int): (l: Listing)
      reads this
      requires limit <= 100
      ensures l.total == |l.posts|
      ensures forall r :: r in l.posts ==> r in OrderedDict.Values(posts) && Matches(r, status, contentType)
      ensures NewestFirstOrder(l.posts)
      ensures limit >= 0 ==> |l.posts| <= limit
      ensures var sorted := NewestFirst(Matching(OrderedDict.Values(posts), status, contentType));
        offset >= 0 && offset + limit >= 0 ==>
          && |l.posts| == Max(0, Min(offset + limit, |sorted|) - Min(offset, |sorted|))
          && (forall k :: 0 <= k < |l.posts| ==> l.posts[k] == sorted[offset + k])
    {
      ListPageSound(OrderedDict.Values(posts), status, contentType, limit, offset);
      SortedMatchingLength(OrderedDict.Values(posts), status, contentType);
      ListPage(OrderedDict.Values(posts), status, contentType, limit, offset)
    }

    /** `publish_post`: every known name of the post's list is posted to in
        order, unknown names are skipped, and the serverless rule records the
        outcome. There is no already-published guard. */
    method PublishPost(auth: AuthStore, id: int, net: Network, now: Time) returns (resp: Response)
      requires Valid()
      modifies this
      ensures Valid() && postCounter == old(postCounter)
      ensures OrderedDict.Get(old(posts), id).None? ==> resp == NotFound && posts == old(posts)
      ensures OrderedDict.Get(old(posts), id).Some? ==>
        var r := OrderedDict.Get(old(posts), id).value;
        var v := Serverless(Fanout(auth.StoredTokens(), r.platforms, r.content, r.imageUrl, net).0);
        && posts == OrderedDict.Put(old(posts), id, Recorded(r, v, now))
        && resp == Answer(v.success, Some(Recorded(r, v, now)))
    {
      var found := OrderedDict.Get(posts, id);
      if found.None? {
        return NotFound;
      }
      var r := found.value;
      var results, _ := PublishLoop(auth.StoredTokens(), r.platforms, r.content, r.imageUrl, net);
      var v := Serverless(results);
      var u := Recorded(r, v, now);
      IdOfGet(id);
      Replace(u);
      return Answer(v.success, Some(u));
    }

    /** A row found under an id carries that id. */
    lemma IdOfGet(id: int)
      requires Valid() && OrderedDict.Get(posts, id).Some?
      ensures OrderedDict.Get(posts, id).value.id == id && OrderedDict.HasKey(posts, id)
    {
      var i :| 0 <= i < |posts| && posts[i] == (id, OrderedDict.Get(posts, id).value);
    }
  }

  /** Publishing to a post's list: a known name has its adapter's result and
      an unknown one none; the post ends posted exactly when some known name
      succeeded, and a success of the endpoint needs at least one known name. */
  lemma {:induction false} PublishOutcome(tokens: Tokens, r: Record, net: Network, now: Time, p: string)
    ensures var results := Fanout(tokens, r.platforms, r.content, r.imageUrl, net).0;
      var u := Recorded(r, Serverless(results), now);
      && OrderedDict.Get(results, p) == (if p in r.platforms && Known(p) then Some(Route(tokens, p, r.content, r.imageUrl, net).value.result) else None)
      && (u.status == "posted" <==> exists q :: q in r.platforms && Known(q) && Route(tokens, q, r.content, r.imageUrl, net).value.result.success)
      && (Serverless(results).success ==> exists q :: q in r.platforms && Known(q))
  {
    var results := Fanout(tokens, r.platforms, r.content, r.imageUrl, net).0;
    FanoutGet(tokens, r.platforms, r.content, r.imageUrl, net, p);
    FanoutSucceeded(tokens, r.platforms, r.content, r.imageUrl, net);
    FanoutNonEmpty(tokens, r.platforms, r.content, r.imageUrl, net);
    if results != [] && AllSucceeded(results) {
      assert results[0].1.success;
    }
  }

  /** Some result succeeded exactly when some known name's adapter succeeded. */
  lemma FanoutSucceeded(tokens: Tokens, platforms: seq<string>, content: string, imageUrl: Option<string>, net: Network)
    ensures AnySucceeded(Fanout(tokens, platforms, content, imageUrl, net).0) <==>
      exists q :: q in platforms && Known(q) && Route(tokens, q, content, imageUrl, net).value.result.success
  {
    var results := Fanout(tokens, platforms, content, imageUrl, net).0;
    FanoutKeys(tokens, platforms, content, imageUrl, net);
    if AnySucceeded(results) {
      var i :| 0 <= i < |results| && results[i].1.success;
      var q := results[i].0;
      OrderedDict.GetIndex(results, i);
      FanoutGet(tokens, platforms, content, imageUrl, net, q);
    }
    if exists q :: q in platforms && Known(q) && Route(tokens, q, content, imageUrl, net).value.result.success {
      var q :| q in platforms && Known(q) && Route(tokens, q, content, imageUrl, net).value.result.success;
      FanoutGet(tokens, platforms, content, imageUrl, net, q);
      var i :| 0 <= i < |results| && results[i] == (q, Route(tokens, q, content, imageUrl, net).value.result);
    }
  }

  /** A result exists only for a known name of the list. */
  lemma FanoutNonEmpty(tokens: Tokens, platforms: seq<string>, content: string, imageUrl: Option<string>, net: Network)
    ensures Fanout(tokens, platforms, content, imageUrl, net).0 != [] ==> exists q :: q in platforms && Known(q)
  {
    var results := Fanout(tokens, platforms, content, imageUrl, net).0;
    FanoutKeys(tokens, platforms, content, imageUrl, net);
    if results != [] {
      var q := results[0].0;
      OrderedDict.GetIndex(results, 0);
      FanoutGet(tokens, platforms, content, imageUrl, net, q);
    }
  }

  /** The member id of the profile lookup is never checked: a profile without
      one is still shared, authored by `urn:li:person:None`. */
  lemma LinkedInWithoutMemberId(tokens: Tokens, content: string, net: Network)
    requires Truthy(Field(tokens, "linkedin", "access_token"))
    requires var lookup := net(LinkedInUserInfo(Field(tokens, "linkedin", "access_token").value));
      lookup.Replied? && lookup.status == 200 && lookup.sub.None?
    ensures |PostToLinkedIn(tokens, content, net).calls| == 2
    ensures PostToLinkedIn(tokens, content, net).calls[1] ==
      LinkedInShare(Field(tokens, "linkedin", "access_token").value, "urn:li:person:None", content)
  {
  }
}
