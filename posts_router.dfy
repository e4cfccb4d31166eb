/** The backend's post endpoints over the post table: generation, manual
    creation, partial update, approval, immediate publishing and deletion.
    Each handler either answers with an HTTP error and leaves the table as it
    was, or commits its change and answers with the stored post. */
module PostsRouter {
  import opened Common
  import opened PostModel
  import opened SocialMedia
  import opened Aggregation
  import AiContent
  import Scheduler

  /** A handler's answer: the post it returns, if any, and the `success` flag;
      or an `HTTPException` with its status code and detail. */
  datatype Response = Ok(success: bool, post: Option<Post>) | HttpError(code: int, detail: string)

  const NotFound := HttpError(404, "Post not found")

  /** The framework's answer to an exception the handler does not catch. */
  const InternalError := HttpError(500, "Internal Server Error")

  /** The body of `POST /posts/generate`, with its defaults applied. */
  datatype GenerateRequest = GenerateRequest(
    contentType: string, topic: Option<string>, platforms: seq<string>,
    customPrompt: Option<string>, autoPost: bool)

  /** The body of `POST /posts/`. */
  datatype CreateRequest = CreateRequest(
    content: string, imageUrl: Option<string>, imagePrompt: Option<string>, contentType: string,
    topic: Option<string>, platforms: seq<string>, autoPost: bool, scheduledTime: Option<Time>)

  /** The body of `PATCH /posts/{id}`: `None` leaves a field alone. */
  datatype UpdateRequest = UpdateRequest(
    content: Option<string>, imageUrl: Option<string>, platforms: Option<seq<string>>,
    status: Option<string>, scheduledTime: Option<Time>, autoPost: Option<bool>)

  /** The status a generated post starts in. */
  function GeneratedStatus(autoPost: bool): (s: string)
    ensures s == (if autoPost then "approved" else "pending_approval")
    ensures ParseStatus(s).Some? && (ParseStatus(s).value == Approved <==> autoPost)
  {
    if autoPost then PostStatus.Approved.Value() else PostStatus.PendingApproval.Value()
  }

  /** The status a manually created post starts in. */
  function CreatedStatus(scheduledTime: Option<Time>): (s: string)
    ensures s == (if scheduledTime.Some? then "scheduled" else "draft")
    ensures ParseStatus(s).Some? && (ParseStatus(s).value == Scheduled <==> scheduledTime.Some?)
  {
    if scheduledTime.Some? then PostStatus.Scheduled.Value() else PostStatus.Draft.Value()
  }

  /** The construction `generate_content` makes from a successful generation
      whose content is the text `content`. */
  function GeneratedPost(rq: GenerateRequest, g: AiContent.Generation, content: string): NewPost {
    NewPost(
      content := content,
      imageUrl := None,
      imagePrompt := Some(Some(g.imagePrompt)),
      contentType := Some(rq.contentType),
      topic := Some(if Truthy(rq.topic) then rq.topic else g.topic),
      wordCount := Some(WordCount(content)),
      status := Some(GeneratedStatus(rq.autoPost)),
      autoPost := Some(rq.autoPost),
      scheduledTime := None,
      platforms := Some(rq.platforms))
  }

  /** `POST /posts/generate`: a failed generation is a 500 and stores nothing;
      so is generated content that is not a string, on which counting the words
      raises and the framework answers with its generic 500; otherwise one new
      post is stored. */
  method GenerateContent(store: PostStore, rq: GenerateRequest, chat: AiContent.Chat,
                         decode: AiContent.Decoder, now: Time) returns (resp: Response)
    requires store.Valid()
    modifies store
    ensures store.Valid()
    ensures var g := AiContent.GenerateContent(rq.contentType, rq.topic, Some(rq.platforms), rq.customPrompt, chat, decode);
      && (!g.success ==> resp == HttpError(500, g.error.GetOr("Content generation failed")) && store.rows == old(store.rows))
      && (g.success && g.content.NotText? ==> resp == InternalError && store.rows == old(store.rows))
      && (g.success && g.content.JsonText? ==>
            && resp.Ok? && resp.success && resp.post.Some?
            && resp.post.value.id !in old(store.rows)
            && store.rows == old(store.rows)[resp.post.value.id := resp.post.value]
            && resp.post.value == Insert(GeneratedPost(rq, g, g.content.text), resp.post.value.id, now))
  {
    var g := AiContent.GenerateContent(rq.contentType, rq.topic, Some(rq.platforms), rq.customPrompt, chat, decode);
    if !g.success {
      return HttpError(500, g.error.GetOr("Content generation failed"));
    }
    if g.content.NotText? {
      return InternalError;
    }
    var id := store.Add(GeneratedPost(rq, g, g.content.text), now);
    return Ok(true, Some(store.rows[id]));
  }

  /** A generated post: approved exactly when auto-posting is on, pending
      approval otherwise; the topic is the request's, the word count that of the
      generated text. */
  lemma GeneratedPostFields(rq: GenerateRequest, g: AiContent.Generation, id: int, now: Time)
    requires g.success && g.topic == rq.topic && g.content.JsonText?
    ensures var p := Insert(GeneratedPost(rq, g, g.content.text), id, now);
      && (p.status == Some("approved") <==> rq.autoPost)
      && (p.status == Some("pending_approval") <==> !rq.autoPost)
      && p.content == g.content.text && p.topic == rq.topic && p.wordCount == Some(|Words(g.content.text)|)
      && p.platforms == Some(rq.platforms) && p.scheduledTime.None?
  {
  }

  /** `POST /posts/`: the post is stored, and the scheduler is asked to
      schedule it exactly when it has a time. */
  method CreatePost(store: PostStore, scheduler: Scheduler.SchedulerService, rq: CreateRequest, now: Time)
    returns (resp: Response)
    requires store.Valid()
    modifies store, scheduler
    ensures store.Valid()
    ensures resp.Ok? && resp.success && resp.post.Some?
    ensures var id := resp.post.value.id;
      && id !in old(store.rows)
      && store.rows == old(store.rows)[id := resp.post.value]
      && resp.post.value == Insert(NewPost(rq.content, Some(rq.imageUrl), Some(rq.imagePrompt), Some(rq.contentType),
                                           Some(rq.topic), Some(WordCount(rq.content)), Some(CreatedStatus(rq.scheduledTime)),
                                           Some(rq.autoPost), Some(rq.scheduledTime), Some(rq.platforms)), id, now)
    ensures scheduler.started == old(scheduler.started)
    ensures rq.scheduledTime.None? ==> scheduler.jobs == old(scheduler.jobs)
    ensures rq.scheduledTime.Some? ==>
      var id := resp.post.value.id;
      var t := rq.scheduledTime.value;
      scheduler.jobs == if t > now then old(scheduler.jobs)[Scheduler.JobId(id) := Scheduler.PublishAt(id, t)]
                        else old(scheduler.jobs) - {Scheduler.JobId(id)}
  {
    var n := NewPost(rq.content, Some(rq.imageUrl), Some(rq.imagePrompt), Some(rq.contentType),
                     Some(rq.topic), Some(WordCount(rq.content)), Some(CreatedStatus(rq.scheduledTime)),
                     Some(rq.autoPost), Some(rq.scheduledTime), Some(rq.platforms));
    var id := store.Add(n, now);
    var post := store.rows[id];
    if rq.scheduledTime.Some? {
      var _ := scheduler.SchedulePost(id, rq.scheduledTime.value, now);
    }
    return Ok(true, Some(post));
  }

  /** The fields `update_post` writes: only those given, and the word count
      along with the content. */
  function Updated(p: Post, rq: UpdateRequest): (r: Post)
    ensures r.id == p.id && r.createdAt == p.createdAt && r.updatedAt == p.updatedAt
    ensures r.content == rq.content.GetOr(p.content)
    ensures r.wordCount == (if rq.content.Some? then Some(WordCount(rq.content.value)) else p.wordCount)
    ensures r.imageUrl == (if rq.imageUrl.Some? then rq.imageUrl else p.imageUrl)
    ensures r.platforms == (if rq.platforms.Some? then rq.platforms else p.platforms)
    ensures r.status == (if rq.status.Some? then rq.status else p.status)
    ensures r.scheduledTime == (if rq.scheduledTime.Some? then rq.scheduledTime else p.scheduledTime)
    ensures r.autoPost == (if rq.autoPost.Some? then rq.autoPost else p.autoPost)
    // the remaining columns are never touched
    ensures r.imagePrompt == p.imagePrompt && r.contentType == p.contentType && r.topic == p.topic
    ensures r.hookType == p.hookType && r.postedIds == p.postedIds && r.postedTime == p.postedTime
    ensures r.errorMessage == p.errorMessage
  {
    p.(content := rq.content.GetOr(p.content),
       wordCount := if rq.content.Some? then Some(WordCount(rq.content.value)) else p.wordCount,
       imageUrl := if rq.imageUrl.Some? then rq.imageUrl else p.imageUrl,
       platforms := if rq.platforms.Some? then rq.platforms else p.platforms,
       status := if rq.status.Some? then rq.status else p.status,
       scheduledTime := if rq.scheduledTime.Some? then rq.scheduledTime else p.scheduledTime,
       autoPost := if rq.autoPost.Some? then rq.autoPost else p.autoPost)
  }

  /** An empty update changes nothing, and an update is idempotent. */
  lemma UpdatedLaws(p: Post, rq: UpdateRequest)
    ensures Updated(p, UpdateRequest(None, None, None, None, None, None)) == p
    ensures Updated(Updated(p, rq), rq) == Updated(p, rq)
  {
  }

  /** `PATCH /posts/{id}`. */
  method UpdatePost(store: PostStore, scheduler: Scheduler.SchedulerService, postId: int, rq: UpdateRequest, now: Time)
    returns (resp: Response)
    requires store.Valid()
    modifies store, scheduler
    ensures store.Valid()
    ensures scheduler.started == old(scheduler.started)
    ensures postId !in old(store.rows) ==>
      resp == NotFound && store.rows == old(store.rows) && scheduler.jobs == old(scheduler.jobs)
    ensures postId in old(store.rows) ==>
      var p := Committed(old(store.rows)[postId], Updated(old(store.rows)[postId], rq), now);
      && store.rows == old(store.rows)[postId := p]
      && resp == Ok(true, Some(p))
    // the scheduler is consulted exactly when a new time is given
    ensures postId in old(store.rows) && rq.scheduledTime.None? ==> scheduler.jobs == old(scheduler.jobs)
    ensures postId in old(store.rows) && rq.scheduledTime.Some? ==>
      var t := rq.scheduledTime.value;
      scheduler.jobs == if t > now then old(scheduler.jobs)[Scheduler.JobId(postId) := Scheduler.PublishAt(postId, t)]
                        else old(scheduler.jobs) - {Scheduler.JobId(postId)}
  {
    var found := store.Find(postId);
    if found.None? {
      return NotFound;
    }
    var post := found.value;
    if rq.scheduledTime.Some? {
      var _ := scheduler.SchedulePost(post.id, rq.scheduledTime.value, now);
    }
    store.Save(Updated(post, rq), now);
    return Ok(true, Some(store.rows[postId]));
  }

  /** `POST /posts/{id}/approve`: whatever the post's status was, it becomes approved. */
  method ApprovePost(store: PostStore, postId: int, now: Time) returns (resp: Response)
    requires store.Valid()
    modifies store
    ensures store.Valid()
    ensures postId !in old(store.rows) ==> resp == NotFound && store.rows == old(store.rows)
    ensures postId in old(store.rows) ==>
      var p := old(store.rows)[postId];
      var q := Committed(p, p.(status := Some("approved")), now);
      && store.rows == old(store.rows)[postId := q]
      && resp == Ok(true, Some(q))
  {
    var found := store.Find(postId);
    if found.None? {
      return NotFound;
    }
    store.Save(found.value.(status := Some(PostStatus.Approved.Value())), now);
    return Ok(true, Some(store.rows[postId]));
  }

  /** `POST /posts/{id}/publish`: a missing post is a 404 and an already
      posted one a 400, both leaving it unchanged; otherwise the post goes out
      to its targets and the lenient rule records the outcome. */
  method PublishPost(store: PostStore, m: SocialMediaManager, net: Network, postId: int, now: Time)
    returns (resp: Response)
    requires store.Valid()
    modifies store
    ensures store.Valid()
    ensures postId !in old(store.rows) ==> resp == NotFound && store.rows == old(store.rows)
    ensures postId in old(store.rows) && old(store.rows)[postId].status == Some("posted") ==>
      resp == HttpError(400, "Post already published") && store.rows == old(store.rows)
    ensures postId in old(store.rows) && old(store.rows)[postId].status != Some("posted") ==>
      var p := old(store.rows)[postId];
      var v := Lenient(Publish(m, Targets(p), p.content, p.imageUrl, None, net).0);
      var q := Committed(p, Apply(p, v, now), now);
      && store.rows == old(store.rows)[postId := q]
      && resp == Ok(v.success, Some(q))
  {
    var found := store.Find(postId);
    if found.None? {
      return NotFound;
    }
    var post := found.value;
    if post.status == Some(PostStatus.Posted.Value()) {
      return HttpError(400, "Post already published");
    }
    var results, _ := m.PostToPlatforms(post.content, Targets(post), post.imageUrl, None, net);
    var v := Lenient(results);
    store.Save(Apply(post, v, now), now);
    return Ok(v.success, Some(store.rows[postId]));
  }

  /** `DELETE /posts/{id}`. */
  method DeletePost(store: PostStore, postId: int) returns (resp: Response)
    requires store.Valid()
    modifies store
    ensures store.Valid()
    ensures postId !in old(store.rows) ==> resp == NotFound && store.rows == old(store.rows)
    ensures postId in old(store.rows) ==> resp == Ok(true, None) && store.rows == old(store.rows) - {postId}
  {
    var found := store.Find(postId);
    if found.None? {
      return NotFound;
    }
    store.Delete(postId);
    return Ok(true, None);
  }

  /** `GET /posts/{id}`. */
  method GetPost(store: PostStore, postId: int) returns (resp: Response)
    ensures postId !in store.rows ==> resp == NotFound
    ensures postId in store.rows ==> resp == Ok(true, Some(store.rows[postId]))
  {
    var found := store.Find(postId);
    if found.None? {
      return NotFound;
    }
    return Ok(true, found);
  }

  /** A publish whose every target accepts the post leaves it posted with one
      id per target platform and its error message as it was. */
  lemma {:induction false} PublishAllAccepted(m: SocialMediaManager, p: Post, net: Network, now: Time, platform: string)
    requires forall j :: 0 <= j < |Targets(p)| ==> m.Dispatch(Targets(p)[j], p.content, p.imageUrl, None, net).result.success
    ensures var r := Publish(m, Targets(p), p.content, p.imageUrl, None, net).0;
      var q := Apply(p, Lenient(r), now);
      && q.status == Some("posted") && q.errorMessage == p.errorMessage && q.postedTime == Some(now)
      && q.postedIds.Some? && (platform in q.postedIds.value <==> platform in Targets(p))
  {
    var t := Targets(p);
    var r := Publish(m, t, p.content, p.imageUrl, None, net).0;
    PublishAllSucceeded(m, t, p.content, p.imageUrl, None, net);
    PublishKeys(m, t, p.content, p.imageUrl, None, net);
    PublishGet(m, t, p.content, p.imageUrl, None, net, platform);
    PostedIdsGet(r, false, platform);
  }

  /** A publish where some targets fail records the error lines of exactly the
      failing ones and, if any target accepted it, posts it with the ids of
      exactly the accepting ones; if none did, it fails and keeps its ids. */
  lemma {:induction false} PublishSomeRejected(m: SocialMediaManager, p: Post, net: Network, now: Time, platform: string)
    requires exists j :: 0 <= j < |Targets(p)| && !m.Dispatch(Targets(p)[j], p.content, p.imageUrl, None, net).result.success
    ensures var r := Publish(m, Targets(p), p.content, p.imageUrl, None, net).0;
      var q := Apply(p, Lenient(r), now);
      var accepted := platform in Targets(p) && m.Dispatch(platform, p.content, p.imageUrl, None, net).result.success;
      && q.errorMessage == Some(Join(ErrorLines(r, "Unknown"), "; "))
      && (q.status == Some("posted") ==> q.postedIds.Some? && (platform in q.postedIds.value <==> accepted))
      && (q.status == Some("failed") ==> q.postedIds == p.postedIds && q.postedTime == p.postedTime)
  {
    var t := Targets(p);
    var r := Publish(m, t, p.content, p.imageUrl, None, net).0;
    PublishAllSucceeded(m, t, p.content, p.imageUrl, None, net);
    PublishKeys(m, t, p.content, p.imageUrl, None, net);
    PublishGet(m, t, p.content, p.imageUrl, None, net, platform);
    PostedIdsGet(r, true, platform);
  }
}
