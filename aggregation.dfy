/** How a publish attempt's platform → result mapping is folded into the post's
    `status`, `posted_ids`, `error_message` and `posted_time`. The code has three
    variants: the lenient one of the publish endpoint and the periodic scan, the
    strict one of the one-shot job, and the one of the serverless app. */
module Aggregation {
  import opened Common
  import OrderedDict
  import opened SocialMedia
  import opened PostModel

  /** `all(r.get("success", False) for r in results.values())`; true of no results. */
  predicate AllSucceeded(results: Results) {
    forall i :: 0 <= i < |results| ==> results[i].1.success
  }

  /** `any(r.get("success") for r in results.values())`. */
  predicate AnySucceeded(results: Results) {
    exists i :: 0 <= i < |results| && results[i].1.success
  }

  /** The entries that did not succeed, in result order. */
  function Failed(results: Results): (f: Results)
    ensures |f| <= |results|
    ensures forall i :: 0 <= i < |f| ==> !f[i].1.success && f[i] in results
    ensures forall i :: 0 <= i < |results| && !results[i].1.success ==> results[i] in f
    ensures f == [] <==> AllSucceeded(results)
  {
    if results == [] then []
    else
      var rest := Failed(results[1..]);
      assert forall i :: 1 <= i < |results| ==> results[i] == results[1..][i - 1];
      if results[0].1.success then rest else [results[0]] + rest
  }

  /** Filtering keeps the order of the entries: it distributes over concatenation. */
  lemma {:induction false} FailedAppend(a: Results, b: Results)
    ensures Failed(a + b) == Failed(a) + Failed(b)
  {
    if a != [] {
      assert (a + b)[0] == a[0] && (a + b)[1..] == a[1..] + b;
      FailedAppend(a[1..], b);
      if !a[0].1.success {
        assert [a[0]] + (Failed(a[1..]) + Failed(b)) == ([a[0]] + Failed(a[1..])) + Failed(b);
      }
    } else {
      assert a + b == b;
    }
  }

  /** `f"{p}: {r.get('error', missing)}"` for one failed entry. */
  function ErrorLine(entry: (string, PlatformResult), missing: string): string {
    entry.0 + ": " + entry.1.error.GetOr(missing)
  }

  /** The error lines of the failed entries, in result order. */
  function ErrorLines(results: Results, missing: string): (lines: seq<string>)
    ensures |lines| == |Failed(results)|
    ensures forall i :: 0 <= i < |lines| ==> lines[i] == ErrorLine(Failed(results)[i], missing)
  {
    if results == [] then []
    else
      var rest := ErrorLines(results[1..], missing);
      if results[0].1.success then rest else [ErrorLine(results[0], missing)] + rest
  }

  /** The `posted_ids` comprehension: each entry's `post_id`, or `""` without one;
      with `onlySuccess`, only the entries that succeeded. A later entry for the
      same key wins, as in a dict comprehension. */
  function PostedIds(results: Results, onlySuccess: bool): (ids: map<string, string>)
    ensures forall p :: p in ids ==> exists i :: 0 <= i < |results| && results[i].0 == p
  {
    if results == [] then map[]
    else
      var rest := PostedIds(results[1..], onlySuccess);
      var (p, r) := results[0];
      assert forall q :: q in rest ==> exists i :: 0 <= i < |results| && results[i].0 == q by {
        forall q | q in rest ensures exists i :: 0 <= i < |results| && results[i].0 == q {
          var j :| 0 <= j < |results[1..]| && results[1..][j].0 == q;
          assert results[j + 1].0 == q;
        }
      }
      if r.success || !onlySuccess then map[p := r.postId.GetOr("")] + rest else rest
  }

  /** On a real dict (no repeated key), `posted_ids` holds exactly the platforms
      written, each with its own result's post id. */
  lemma {:induction false} PostedIdsGet(results: Results, onlySuccess: bool, p: string)
    requires OrderedDict.DistinctKeys(results)
    ensures p in PostedIds(results, onlySuccess) <==>
      OrderedDict.Get(results, p).Some? && (onlySuccess ==> OrderedDict.Get(results, p).value.success)
    ensures p in PostedIds(results, onlySuccess) ==>
      PostedIds(results, onlySuccess)[p] == OrderedDict.Get(results, p).value.postId.GetOr("")
  {
    if results != [] {
      var t := results[1..];
      assert OrderedDict.DistinctKeys(t) by {
        forall a, b | 0 <= a < b < |t| ensures t[a].0 != t[b].0 {
          assert t[a] == results[a + 1] && t[b] == results[b + 1];
        }
      }
      PostedIdsGet(t, onlySuccess, p);
      if results[0].0 == p {
        assert !OrderedDict.HasKey(t, p) by {
          forall j | 0 <= j < |t| ensures t[j].0 != p {
            assert t[j] == results[j + 1];
          }
        }
      }
    }
  }

  /** What a variant writes: `None` leaves that column as it was; `stamp` sets
      `posted_time` to the current time. `success` is the endpoint's `success`. */
  datatype Verdict = Verdict(
    success: bool,
    status: string,
    postedIds: Option<map<string, string>>,
    errorMessage: Option<string>,
    stamp: bool)

  /** The publish endpoint and the periodic scan: a partial success counts as
      posted, with the failures recorded. */
  function Lenient(results: Results): (v: Verdict)
    ensures v.success <==> AllSucceeded(results)
    ensures v.status == "posted" || v.status == "failed"
    ensures v.status == "posted" <==> AllSucceeded(results) || AnySucceeded(results)
    ensures v.stamp <==> v.status == "posted"
    ensures v.postedIds.Some? <==> v.status == "posted"
    ensures v.success ==> v.postedIds == Some(PostedIds(results, false)) && v.errorMessage.None?
    ensures !v.success ==> v.errorMessage == Some(Join(ErrorLines(results, "Unknown"), "; "))
    ensures !v.success && v.status == "posted" ==> v.postedIds == Some(PostedIds(results, true))
  {
    if AllSucceeded(results) then Verdict(true, "posted", Some(PostedIds(results, false)), None, true)
    else
      var message := Join(ErrorLines(results, "Unknown"), "; ");
      if AnySucceeded(results) then Verdict(false, "posted", Some(PostedIds(results, true)), Some(message), true)
      else Verdict(false, "failed", None, Some(message), false)
  }

  /** The one-shot job: any failure means failed, and `posted_ids` is kept. */
  function Strict(results: Results): (v: Verdict)
    ensures v.success <==> AllSucceeded(results)
    ensures v.status == (if AllSucceeded(results) then "posted" else "failed")
    ensures v.stamp <==> v.success
    ensures v.success ==> v.postedIds == Some(PostedIds(results, false)) && v.errorMessage.None?
    ensures !v.success ==> v.postedIds.None? && v.errorMessage == Some(Join(ErrorLines(results, "Unknown"), "; "))
  {
    if AllSucceeded(results) then Verdict(true, "posted", Some(PostedIds(results, false)), None, true)
    else Verdict(false, "failed", None, Some(Join(ErrorLines(results, "Unknown"), "; ")), false)
  }

  const NoPlatforms := "No platforms configured"

  /** The serverless app: no results at all is a failure with a sentinel
      message, and a missing error text prints as `None`. */
  function Serverless(results: Results): (v: Verdict)
    ensures v.success <==> results != [] && AllSucceeded(results)
    ensures v.status == "posted" <==> (results != [] && AllSucceeded(results)) || AnySucceeded(results)
    ensures v.status == "posted" || v.status == "failed"
    ensures v.stamp <==> v.status == "posted"
    ensures v.postedIds.Some? <==> v.status == "posted"
    ensures results == [] ==> v == Verdict(false, "failed", None, Some(NoPlatforms), false)
    ensures results != [] && !v.success ==> v.errorMessage == Some(Join(ErrorLines(results, "None"), "; "))
    ensures !v.success && v.status == "posted" ==> v.postedIds == Some(PostedIds(results, true))
  {
    var allSuccess := if results != [] then AllSucceeded(results) else false;
    if allSuccess then Verdict(true, "posted", Some(PostedIds(results, false)), None, true)
    else
      var errors := ErrorLines(results, "None");
      var message := if errors != [] then Join(errors, "; ") else NoPlatforms;
      if AnySucceeded(results) then Verdict(false, "posted", Some(PostedIds(results, true)), Some(message), true)
      else Verdict(false, "failed", None, Some(message), false)
  }

  // ---------------------------------------------------------------- laws

  /** Every platform of the result mapping is recorded when all succeeded, and
      exactly the succeeding ones on a partial success. */
  lemma LenientPostedIds(results: Results, p: string)
    requires OrderedDict.DistinctKeys(results)
    ensures var v := Lenient(results);
      && (v.success ==> (p in v.postedIds.value <==> OrderedDict.HasKey(results, p)))
      && (!v.success && v.status == "posted" ==>
            (p in v.postedIds.value <==> OrderedDict.Get(results, p).Some? && OrderedDict.Get(results, p).value.success))
  {
    PostedIdsGet(results, false, p);
    PostedIdsGet(results, true, p);
  }

  /** The error message is empty of nothing: it has one line per failed entry,
      and there is a failed entry whenever it is written. */
  lemma {:induction false} ErrorLinesNonEmpty(results: Results, missing: string)
    requires !AllSucceeded(results)
    ensures ErrorLines(results, missing) != []
    ensures Join(ErrorLines(results, missing), "; ") != ""
  {
    var lines := ErrorLines(results, missing);
    assert Failed(results) != [];
    assert lines[0] == ErrorLine(Failed(results)[0], missing);
    assert |lines[0]| >= 2;
    JoinStartsWith(lines, "; ");
  }

  lemma {:induction false} JoinStartsWith(parts: seq<string>, sep: string)
    requires parts != []
    ensures parts[0] <= Join(parts, sep)
  {
  }

  /** The strict and the lenient variants agree except on a partial success,
      which the lenient one reports as posted and the strict one as failed. */
  lemma StrictVersusLenient(results: Results)
    ensures Strict(results) == Lenient(results) <==> AllSucceeded(results) || !AnySucceeded(results)
    ensures !AllSucceeded(results) && AnySucceeded(results) ==>
      Lenient(results).status == "posted" && Strict(results).status == "failed"
  {
  }

  /** An empty result mapping: the lenient variants call it a full success, since
      `all` of nothing is true, and the serverless one a failure. */
  lemma EmptyResults()
    ensures Lenient([]) == Strict([]) == Verdict(true, "posted", Some(map[]), None, true)
    ensures Serverless([]) == Verdict(false, "failed", None, Some(NoPlatforms), false)
  {
  }

  /** On a non-empty mapping whose failures all carry an error text, the
      serverless variant agrees with the lenient one. */
  lemma {:induction false} ServerlessVersusLenient(results: Results)
    requires results != []
    requires forall i :: 0 <= i < |results| && !results[i].1.success ==> results[i].1.error.Some?
    ensures Serverless(results) == Lenient(results)
  {
    if !AllSucceeded(results) {
      ErrorLinesNonEmpty(results, "None");
      ErrorLinesMissingIrrelevant(results, "None", "Unknown");
    }
  }

  lemma {:induction false} ErrorLinesMissingIrrelevant(results: Results, m1: string, m2: string)
    requires forall i :: 0 <= i < |results| && !results[i].1.success ==> results[i].1.error.Some?
    ensures ErrorLines(results, m1) == ErrorLines(results, m2)
  {
    if results != [] {
      assert forall i :: 1 <= i < |results| ==> results[1..][i - 1] == results[i];
      ErrorLinesMissingIrrelevant(results[1..], m1, m2);
    }
  }

  // ---------------------------------------------------------------- applied to a post

  /** `post.platforms or ["linkedin"]`: the list a stored post is published to. */
  function Targets(p: Post): (t: seq<string>)
    ensures t != []
    ensures p.platforms.Some? && p.platforms.value != [] ==> t == p.platforms.value
    ensures p.platforms.None? || p.platforms.value == [] ==> t == ["linkedin"]
  {
    if p.platforms.Some? && p.platforms.value != [] then p.platforms.value else ["linkedin"]
  }

  /** The post with a verdict's writes applied at time `now`; every other
      column keeps its value. */
  function Apply(p: Post, v: Verdict, now: Time): (r: Post)
    ensures r.status == Some(v.status)
    ensures r.postedIds == (if v.postedIds.Some? then v.postedIds else p.postedIds)
    ensures r.errorMessage == (if v.errorMessage.Some? then v.errorMessage else p.errorMessage)
    ensures r.postedTime == (if v.stamp then Some(now) else p.postedTime)
    ensures r.(status := p.status, postedIds := p.postedIds, errorMessage := p.errorMessage, postedTime := p.postedTime) == p
  {
    p.(status := Some(v.status),
       postedIds := if v.postedIds.Some? then v.postedIds else p.postedIds,
       errorMessage := if v.errorMessage.Some? then v.errorMessage else p.errorMessage,
       postedTime := if v.stamp then Some(now) else p.postedTime)
  }

  // ---------------------------------------------------------------- in terms of the fan-out

  /** Each entry of a fan-out is a listed name with its own dispatch result. */
  lemma PublishEntry(m: SocialMediaManager, platforms: seq<string>, content: string,
                     imageUrl: Option<string>, imagePath: Option<string>, net: Network, i: nat)
    requires i < |Publish(m, platforms, content, imageUrl, imagePath, net).0|
    ensures var r := Publish(m, platforms, content, imageUrl, imagePath, net).0;
      r[i].0 in platforms && r[i].1 == m.Dispatch(r[i].0, content, imageUrl, imagePath, net).result
  {
    var r := Publish(m, platforms, content, imageUrl, imagePath, net).0;
    PublishKeys(m, platforms, content, imageUrl, imagePath, net);
    var k := r[i].0;
    assert OrderedDict.Keys(r)[i] == k;
    assert k in Distinct(platforms);
    OrderedDict.GetIndex(r, i);
    PublishGet(m, platforms, content, imageUrl, imagePath, net, k);
  }

  /** Each listed name has an entry in the fan-out, holding its dispatch result. */
  lemma PublishEntryOf(m: SocialMediaManager, platforms: seq<string>, content: string,
                       imageUrl: Option<string>, imagePath: Option<string>, net: Network, j: nat)
    requires j < |platforms|
    ensures var r := Publish(m, platforms, content, imageUrl, imagePath, net).0;
      exists i :: 0 <= i < |r| && r[i] == (platforms[j], m.Dispatch(platforms[j], content, imageUrl, imagePath, net).result)
  {
    PublishGet(m, platforms, content, imageUrl, imagePath, net, platforms[j]);
  }

  /** Some entry of a fan-out succeeded exactly when the dispatch of some listed
      name succeeds. */
  lemma PublishAnySucceeded(m: SocialMediaManager, platforms: seq<string>, content: string,
                            imageUrl: Option<string>, imagePath: Option<string>, net: Network)
    ensures AnySucceeded(Publish(m, platforms, content, imageUrl, imagePath, net).0) <==>
      exists j :: 0 <= j < |platforms| && m.Dispatch(platforms[j], content, imageUrl, imagePath, net).result.success
  {
    var r := Publish(m, platforms, content, imageUrl, imagePath, net).0;
    if AnySucceeded(r) {
      var i :| 0 <= i < |r| && r[i].1.success;
      PublishEntry(m, platforms, content, imageUrl, imagePath, net, i);
      var j :| 0 <= j < |platforms| && platforms[j] == r[i].0;
    }
    if exists j :: 0 <= j < |platforms| && m.Dispatch(platforms[j], content, imageUrl, imagePath, net).result.success {
      var j :| 0 <= j < |platforms| && m.Dispatch(platforms[j], content, imageUrl, imagePath, net).result.success;
      PublishEntryOf(m, platforms, content, imageUrl, imagePath, net, j);
    }
  }

  /** Every entry of a fan-out succeeded exactly when the dispatch of every
      listed name succeeds. */
  lemma PublishAllSucceeded(m: SocialMediaManager, platforms: seq<string>, content: string,
                            imageUrl: Option<string>, imagePath: Option<string>, net: Network)
    ensures AllSucceeded(Publish(m, platforms, content, imageUrl, imagePath, net).0) <==>
      forall j :: 0 <= j < |platforms| ==> m.Dispatch(platforms[j], content, imageUrl, imagePath, net).result.success
  {
    var r := Publish(m, platforms, content, imageUrl, imagePath, net).0;
    if !AllSucceeded(r) {
      var i :| 0 <= i < |r| && !r[i].1.success;
      PublishEntry(m, platforms, content, imageUrl, imagePath, net, i);
      var j :| 0 <= j < |platforms| && platforms[j] == r[i].0;
    }
    if exists j :: 0 <= j < |platforms| && !m.Dispatch(platforms[j], content, imageUrl, imagePath, net).result.success {
      var j :| 0 <= j < |platforms| && !m.Dispatch(platforms[j], content, imageUrl, imagePath, net).result.success;
      PublishEntryOf(m, platforms, content, imageUrl, imagePath, net, j);
    }
  }

  /** Publishing a stored post with the lenient rule: it ends `posted` exactly
      when at least one of its target platforms accepted it, since the target
      list is never empty and `all` of nothing cannot arise. */
  lemma LenientPublishStatus(m: SocialMediaManager, p: Post, net: Network, now: Time)
    ensures var r := Publish(m, Targets(p), p.content, p.imageUrl, None, net).0;
      (Apply(p, Lenient(r), now).status == Some("posted") <==>
       exists j :: 0 <= j < |Targets(p)| && m.Dispatch(Targets(p)[j], p.content, p.imageUrl, None, net).result.success)
  {
    var t := Targets(p);
    PublishAnySucceeded(m, t, p.content, p.imageUrl, None, net);
    PublishAllSucceeded(m, t, p.content, p.imageUrl, None, net);
    assert m.Dispatch(t[0], p.content, p.imageUrl, None, net).result.success ==> exists j :: 0 <= j < |t| && m.Dispatch(t[j], p.content, p.imageUrl, None, net).result.success;
  }

  /** Publishing a stored post with the strict rule: it ends `posted` exactly
      when all of its target platforms accepted it. */
  lemma StrictPublishStatus(m: SocialMediaManager, p: Post, net: Network, now: Time)
    ensures var r := Publish(m, Targets(p), p.content, p.imageUrl, None, net).0;
      (Apply(p, Strict(r), now).status == Some("posted") <==>
       forall j :: 0 <= j < |Targets(p)| ==> m.Dispatch(Targets(p)[j], p.content, p.imageUrl, None, net).result.success)
  {
    PublishAllSucceeded(m, Targets(p), p.content, p.imageUrl, None, net);
  }
}
