/** The backend's scheduler service: an idempotent started flag, the timer
    library's job table keyed by job id, the periodic scan for due posts, and
    the one-shot job that publishes a single post. Time is an integer clock. */
module Scheduler {
  import opened Common
  import opened PostModel
  import opened SocialMedia
  import opened Aggregation

  /** A registered job: the once-a-minute scan, or a one-shot publish of one
      post at its run time. */
  datatype Job = Periodic | PublishAt(postId: int, runAt: Time)

  const ScanJobId := "check_scheduled_posts"

  /** `f"post_{post_id}"`. */
  function JobId(postId: int): (name: string)
    ensures |name| > 5 && name[..5] == "post_"
  {
    "post_" + IntToString(postId)
  }

  /** Different posts have different job names, so one post's job never
      replaces another's, and the scan job is never one of them. */
  lemma JobIdInjective(a: int, b: int)
    ensures JobId(a) == JobId(b) ==> a == b
    ensures JobId(a) != ScanJobId
  {
    if JobId(a) == JobId(b) {
      assert JobId(a)[5..] == IntToString(a) && JobId(b)[5..] == IntToString(b);
      IntToStringInjective(a, b);
    }
    assert JobId(a)[0] == 'p' && ScanJobId[0] == 'c';
  }

  /** The scan's query: approved or scheduled, with a time, and that time has come. */
  predicate Due(p: Post, now: Time) {
    && p.status.Some? && p.status.value in {PostStatus.Approved.Value(), PostStatus.Scheduled.Value()}
    && p.scheduledTime.Some? && p.scheduledTime.value <= now
  }

  /** A due post after the scan has handled it: published with the lenient rule,
      or, when publishing raised `fault`, marked failed with the exception's
      text. Only the columns named here change. */
  ghost function Scanned(p: Post, m: SocialMediaManager, net: Network, now: Time, fault: Option<string>): (r: Post)
    ensures fault.Some? ==> r == p.(status := Some("failed"), errorMessage := fault)
    ensures fault.None? ==> r == Apply(p, Lenient(Publish(m, Targets(p), p.content, p.imageUrl, None, net).0), now)
  {
    if fault.Some? then p.(status := Some(PostStatus.Failed.Value()), errorMessage := fault)
    else Apply(p, Lenient(Publish(m, Targets(p), p.content, p.imageUrl, None, net).0), now)
  }

  /** A post as the scan leaves it: a due post published (or failed) and
      committed, any other post untouched. */
  ghost function AfterScan(p: Post, m: SocialMediaManager, net: Network, now: Time, fault: Option<string>): (r: Post)
    ensures !Due(p, now) ==> r == p
    ensures Due(p, now) ==> r == Committed(p, Scanned(p, m, net, now, fault), now)
  {
    if Due(p, now) then Committed(p, Scanned(p, m, net, now, fault), now) else p
  }

  /** The whole table as the scan leaves it. */
  ghost function ScanTable(rows: map<int, Post>, m: SocialMediaManager, net: Network, now: Time,
                           fault: int -> Option<string>): (r: map<int, Post>)
    ensures r.Keys == rows.Keys
    ensures forall id :: id in rows ==> r[id] == AfterScan(rows[id], m, net, now, fault(id))
  {
    map id | id in rows :: AfterScan(rows[id], m, net, now, fault(id))
  }

  /** The due posts of a table. */
  function DueIds(rows: map<int, Post>, now: Time): (ids: set<int>)
    ensures forall id :: id in ids <==> id in rows && Due(rows[id], now)
  {
    set id | id in rows && Due(rows[id], now)
  }

  lemma NonEmptyHasMember(s: set<int>)
    requires s != {}
    ensures exists x :: x in s
  {
    if forall x :: x !in s {
      assert false;
    }
  }

  /** Part way through a scan: the rows in `done` hold their `target`, and
      every other row is as it was. */
  ghost predicate Progress<V>(rows: map<int, V>, rows0: map<int, V>, target: map<int, V>, done: set<int>) {
    && rows.Keys == rows0.Keys && rows0.Keys <= target.Keys
    && forall id :: id in rows0 ==> rows[id] == if id in done then target[id] else rows0[id]
  }

  lemma ProgressStep<V>(rows: map<int, V>, rows0: map<int, V>, target: map<int, V>, done: set<int>, id: int)
    requires Progress(rows, rows0, target, done) && id in rows0
    ensures Progress(rows[id := target[id]], rows0, target, done + {id})
  {
  }

  /** A finished scan: every due row was handled and the others are as they
      were, which is the table `ScanTable` describes. */
  lemma ScanFinished(rows: map<int, Post>, rows0: map<int, Post>, target: map<int, Post>, done: set<int>,
                     due: set<int>, m: SocialMediaManager, net: Network, now: Time, fault: int -> Option<string>)
    requires target == ScanTable(rows0, m, net, now, fault) && due == DueIds(rows0, now)
    requires Progress(rows, rows0, target, done) && due <= done
    ensures rows == target
  {
    forall id | id in rows0
      ensures rows[id] == target[id]
    {
      if !Due(rows0[id], now) {
        assert target[id] == rows0[id];
      }
    }
  }

  class SchedulerService {
    var started: bool
    var jobs: map<string, Job>

    constructor ()
      ensures !started && jobs == map[]
    {
      started := false;
      jobs := map[];
    }

    /** `start`: the first call starts the timer and registers the scan; any
        later call changes nothing. */
    method Start()
      modifies this
      ensures started
      ensures old(started) ==> jobs == old(jobs)
      ensures !old(started) ==> jobs == old(jobs)[ScanJobId := Periodic]
    {
      if !started {
        started := true;
        jobs := jobs[ScanJobId := Periodic];
      }
    }

    /** `stop`: shuts the timer down if it was started; otherwise a no-op. */
    method Stop()
      modifies this
      ensures !started && jobs == old(jobs)
    {
      if started {
        started := false;
      }
    }

    /** `schedule_post`: any existing job of the post is removed first; a time
        that is not in the future is refused, and otherwise the post gets a job
        running at that time. */
    method SchedulePost(postId: int, scheduledTime: Time, now: Time) returns (accepted: bool)
      modifies this
      ensures started == old(started)
      ensures accepted <==> scheduledTime > now
      ensures !accepted ==> jobs == old(jobs) - {JobId(postId)}
      ensures accepted ==> jobs == old(jobs)[JobId(postId) := PublishAt(postId, scheduledTime)]
    {
      var jobId := JobId(postId);
      if jobId in jobs {
        jobs := jobs - {jobId};
      }
      if scheduledTime <= now {
        return false;
      }
      jobs := jobs[jobId := PublishAt(postId, scheduledTime)];
      return true;
    }

    /** `check_scheduled_posts`: every post that is due when the scan starts is
        published in turn and committed; one post's failure marks only that
        post failed, and the scan carries on. `fault` gives the exception, if
        any, that publishing a given post raises. */
    method CheckScheduledPosts(store: PostStore, m: SocialMediaManager, net: Network, now: Time,
                               fault: int -> Option<string>)
      requires store.Valid()
      modifies store
      ensures store.Valid() && store.lastId == old(store.lastId)
      ensures store.rows == ScanTable(old(store.rows), m, net, now, fault)
    {
      var pending := DueIds(store.rows, now);
      ghost var rows0 := store.rows;
      ghost var due := pending;
      ghost var target := ScanTable(rows0, m, net, now, fault);
      ghost var done: set<int> := {};
      while pending != {}
        invariant store.Valid() && store.lastId == old(store.lastId)
        invariant Progress(store.rows, rows0, target, done)
        invariant pending <= due && pending !! done && due <= pending + done
        decreases |pending|
      {
        NonEmptyHasMember(pending);
        var id :| id in pending;
        ghost var before := store.rows;
        ScanOne(store, m, net, now, id, fault(id));
        ProgressStep(before, rows0, target, done, id);
        pending := pending - {id};
        done := done + {id};
      }
      ScanFinished(store.rows, rows0, target, done, due, m, net, now, fault);
    }

    /** One iteration of the scan: publish one post, or record its fault. */
    method ScanOne(store: PostStore, m: SocialMediaManager, net: Network, now: Time, id: int, fault: Option<string>)
      requires store.Valid() && id in store.rows && Due(store.rows[id], now)
      modifies store
      ensures store.Valid() && store.lastId == old(store.lastId)
      ensures store.rows == old(store.rows)[id := AfterScan(old(store.rows)[id], m, net, now, fault)]
    {
      var post := store.rows[id];
      var updated: Post;
      match fault {
        case Some(e) =>
          updated := post.(status := Some(PostStatus.Failed.Value()), errorMessage := Some(e));
        case None =>
          var results, _ := m.PostToPlatforms(post.content, Targets(post), post.imageUrl, None, net);
          updated := Apply(post, Lenient(results), now);
      }
      store.Save(updated, now);
    }

    /** `_publish_single_post`: nothing happens for a missing or an already
        posted post; otherwise it is published with the strict rule and
        committed. */
    method PublishSinglePost(store: PostStore, m: SocialMediaManager, net: Network, postId: int, now: Time)
      requires store.Valid()
      modifies store
      ensures store.Valid() && store.lastId == old(store.lastId)
      ensures postId !in old(store.rows) || old(store.rows)[postId].status == Some("posted") ==>
        store.rows == old(store.rows)
      ensures postId in old(store.rows) && old(store.rows)[postId].status != Some("posted") ==>
        var p := old(store.rows)[postId];
        store.rows == old(store.rows)[postId :=
          Committed(p, Apply(p, Strict(Publish(m, Targets(p), p.content, p.imageUrl, None, net).0), now), now)]
    {
      var found := store.Find(postId);
      if found.None? {
        return;
      }
      var post := found.value;
      if post.status == Some(PostStatus.Posted.Value()) {
        return;
      }
      var results, _ := m.PostToPlatforms(post.content, Targets(post), post.imageUrl, None, net);
      store.Save(Apply(post, Strict(results), now), now);
    }
  }

  /** A faulted post of the scan is failed with the exception's text and keeps
      its posted ids; a post that did not fault ends posted exactly when one of
      its target platforms accepted it. */
  lemma ScanOutcome(p: Post, m: SocialMediaManager, net: Network, now: Time, fault: Option<string>)
    ensures fault.Some? ==>
      && Scanned(p, m, net, now, fault).status == Some("failed")
      && Scanned(p, m, net, now, fault).errorMessage == fault
      && Scanned(p, m, net, now, fault).postedIds == p.postedIds
    ensures fault.None? ==>
      (Scanned(p, m, net, now, fault).status == Some("posted") <==>
        exists j :: 0 <= j < |Targets(p)| && m.Dispatch(Targets(p)[j], p.content, p.imageUrl, None, net).result.success)
  {
    LenientPublishStatus(m, p, net, now);
  }
}
