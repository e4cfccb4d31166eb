# Social media dashboard — a Dafny model of its posting core

The dashboard drafts social media posts with an AI model. A person approves
them, and the dashboard publishes them to Twitter/X, LinkedIn, Facebook and
Instagram, either on demand or at a scheduled time. It exists in two
variants, and the model covers both:

- **The backend** (FastAPI with an SQL table of posts). It has these parts:
  - a platform adapter per network and a manager that fans one post out to
    several of them;
  - the posts router (generate, create, get, update, approve, publish,
    delete);
  - a scheduler that scans for due posts every minute and can also run a
    one-shot publish of one post;
  - the OpenAI content service and its tolerant parser for model replies.
- **The serverless API** (one file). It has these parts:
  - an in-memory `posts_db` dictionary with a global id counter;
  - its own adapters that read credentials from a token cache, which falls
    back to environment variables;
  - the OAuth connect, callback and disconnect flow that fills that cache;
  - list, get, create, update, approve, publish and delete endpoints.

## How the model is laid out

| file | module | what it holds |
|---|---|---|
| `common.dfy` | `Common` | The Python behaviour the sources rely on. This covers `Option`, truthiness of optional strings, `str.split()` word counting, `strip()`, `", ".join`, integer-to-text, and Python slice semantics with negative and out-of-range bounds. |
| `ordered_dict.dfy` | `OrderedDict` | An insertion-ordered `dict` as a sequence of pairs. It has `Put` (overwrite in place or append) and `Remove`, with their laws. |
| `post_model.dfy` | `PostModel` | The `Post` row and its enums, the column defaults on insert, `to_dict`, and a `PostStore` class standing for the SQL table. |
| `social_media.dfy` | `SocialMedia` | The four backend adapters, as functions of their credentials and of the network. Also the `SocialMediaManager` class, whose `PostToPlatforms` loop is proved against the specification function `Publish`. |
| `aggregation.dfy` | `Aggregation` | How the per-platform results become a post's status, posted ids and error message. There are three rules: the lenient one (router and periodic scan), the strict one (one-shot job) and the serverless one. |
| `ai_content.dfy` | `AiContent` | The prompt selection, the reply parser (fence stripping and the outermost `{…}` span, with a plain-text fallback) and the content service's result. |
| `scheduler.dfy` | `Scheduler` | The `SchedulerService` class: its started flag, job table, periodic scan and one-shot job. |
| `posts_router.dfy` | `PostsRouter` | The backend's post endpoints as methods over `PostStore`. |
| `serverless_auth.dfy` | `ServerlessAuth` | The `AuthStore` class holding `tokens_cache`, `oauth_states` and `pkce_verifiers`. It also has the environment fallback, connect, callback and disconnect. |
| `serverless_posts.dfy` | `ServerlessPosts` | The serverless adapters, the publishing fan-out, the record builders and the stable newest-first paginated listing. It also has the `PostsTable` class holding `posts_db` and `post_counter`. |

### Modelling choices

- The network is a function from an outgoing request to its reply, and an
  adapter returns its result together with the requests it sent. A
  contract can therefore say which calls are made, in which order, and
  that an unconfigured platform makes none.
- The chat model is a function from a chat request to its reply. The JSON
  decoder is a partial function from text to the two fields the code
  reads. The OAuth token endpoint is a function from
  `(platform, code, verifier)` to the outcome of the whole exchange. The
  environment is a function from a variable name to an optional value.
- The clock is an integer `now` passed in. One value stands for every
  reading of `datetime.utcnow()` within a handler or a scan, so a record's
  `created_at` and `updated_at` agree, and a scan's `posted_time` is the
  time the scan started.
- Times are integers. The backend stores times as
  timestamps. The serverless API stores `isoformat()` strings, which the
  model takes to be ordered like the clock.
- An exception that the source catches becomes a `Raised` reply or a fault
  value, and the model follows the code's `except` branch for it.

### Where the behaviour differs from what one would expect

- **Empty results in the backend.** `all(...)` over an empty result
  dictionary is true, so the backend's lenient and strict rules would mark
  a post with no results as posted (`Aggregation.EmptyResults`). The case
  cannot arise there: an empty or missing platform list defaults to
  `["linkedin"]` (`Aggregation.Targets`), and every platform yields an
  entry. The serverless endpoint guards the empty case ("No platforms
  configured").
- **Serverless generation.** It ignores `auto_post`: the post is always
  `pending_approval`. The backend honours `auto_post`.
- **Serverless publishing.** There is no "already published" guard, so a
  posted post can be published again. There is no `linkedin` default for
  an empty platform list. Unknown platform names are skipped silently.
- **Serverless LinkedIn adapter.** It does not check that the user-info
  reply carried a member id. The share is then sent with the author
  `urn:li:person:None` (`ServerlessPosts.LinkedInWithoutMemberId`). The
  backend adapter refuses in that case.
- **Serverless OAuth refusal for Facebook.** Without a client id the
  refusal asks for `FACEBOOK_CLIENT_ID` (`ServerlessAuth.FacebookHintName`),
  but Facebook's client id is read from `FACEBOOK_APP_ID`, so setting the
  named variable changes nothing (`ServerlessAuth.FacebookHintIgnored`).
- **Negative page limits.** `limit` has an upper bound of 100 and no lower
  one. A negative limit with offset 0 returns all matches but the oldest
  `-limit` (`ServerlessPosts.ListPageNegativeLimit`).
- **Serverless token cache.** As soon as any platform is connected through
  OAuth, the environment credentials of every other platform are hidden
  (`ServerlessAuth.CacheShadowsEnvironment`). Disconnecting the last
  cached platform brings them back.

## Model

| member | source | states |
|---|---|---|
| `Common.WordsLayout` | api/index.py:697 | every text is its `split()` words in order, separated by non-empty runs of whitespace and framed by possibly empty ones |
| `Common.LayoutWords` | api/index.py:697 | conversely, any such layout of words and whitespace runs splits back into exactly those words, so the words are all the maximal non-space runs |
| `Common.WordsOfJoin` | api/index.py:697 | splitting words joined by single spaces gives back those words, so `len(content.split())` counts the words |
| `Common.Strip` | backend/app/services/openai_service.py:53 | the result has no leading or trailing whitespace, and it is the input's characters between its whitespace prefix and its whitespace suffix |
| `Common.IntToStringInjective` | backend/app/services/scheduler.py:117 | different integers print differently, which is what keeps job names apart |
| `Common.PySlice` | api/index.py:721 | for any bounds, negative or out of range, the slice runs from `SliceIndex(i)` to `SliceIndex(j)` and element `k` is `s[SliceIndex(i)+k]`; it never grows the list |
| `Common.SliceIndex` | api/index.py:721 | a non-negative bound is capped at the length, and a negative one counts from the end and is floored at 0 |
| `Common.PySliceBound` | api/index.py:721 | a slice with `i <= j` holds at most `j - i` elements, whatever the signs of the bounds |
| `Common.Take` | api/index.py:316-317 | `s[:n]` is a prefix of length `min(n, len(s))` |
| `OrderedDict.Get` | api/index.py:782-790 | a key is found exactly when present, and the value returned is one stored under it |
| `OrderedDict.PutKeys` | api/index.py:782-790 | assigning `d[k]` keeps the key order and appends a new key at the end; keys stay distinct |
| `OrderedDict.GetPut` | api/index.py:782-790 | after assigning `d[k] = v`, `k` reads `v` and every other key reads as before |
| `OrderedDict.PutMembers` | api/index.py:782-790 | assignment introduces no entry other than the new pair |
| `OrderedDict.GetRemove` | api/index.py:818 | after `del d[k]`, `k` is gone and every other key reads as before |
| `OrderedDict.RemoveKeys` | api/index.py:818 | deletion keeps exactly the other entries |
| `OrderedDict.RemoveDistinct` | api/index.py:818 | deletion keeps keys distinct |
| `OrderedDict.GetIndex` | api/index.py:728-730 | with distinct keys, the value stored at any position is the one looked up by its key |
| `PostModel.StatusValuesExact` | backend/app/models/post.py:8-15 | `PostStatus` values round-trip through their string form, and exactly the six listed strings are statuses |
| `PostModel.ContentTypeValuesExact` | backend/app/models/post.py:17-23 | `ContentType` values round-trip, and exactly the six listed strings are content types |
| `PostModel.Insert` | backend/app/models/post.py:26-59 | a new row gets the column defaults (draft, custom, `["linkedin"]`, 0 words, no auto-post, empty posted ids) and both timestamps set to now |
| `PostModel.InsertDefaults` | backend/app/models/post.py:37-51 | a row inserted with only content is a draft custom post for LinkedIn with nothing posted |
| `PostModel.IsoOrNone` | backend/app/models/post.py:73-80 | a time serialises to its ISO text, and a missing time to None |
| `PostModel.ToDict` | backend/app/models/post.py:61-80 | the view never holds a null list or map; each timestamp is null exactly when the column is, and otherwise its ISO text; every other column is copied |
| `PostModel.Committed` | backend/app/models/post.py:59 | committing changes only `updated_at`, and refreshes it exactly when the row changed |
| `PostModel.PostStore.constructor` | backend/app/models/post.py:26-59 | the table starts empty |
| `PostModel.PostStore.Add` | backend/app/models/post.py:26-59 | inserting assigns a fresh id and stores the defaulted row under it |
| `PostModel.PostStore.Find` | backend/app/routers/posts.py:179-183 | lookup finds a row exactly when its id is present |
| `PostModel.PostStore.Save` | backend/app/routers/posts.py:218-219 | commit replaces only that row, with `onupdate` applied |
| `PostModel.PostStore.Delete` | backend/app/routers/posts.py:303-304 | delete removes only that row |
| `SocialMedia.TweetText` | backend/app/services/social_media.py:43-44 | text up to 280 characters is unchanged; longer text becomes its first 277 characters plus `...`, exactly 280 long |
| `SocialMedia.TweetTextFits` | backend/app/services/social_media.py:43-44 | the tweet never exceeds 280 characters and truncating twice changes nothing |
| `SocialMedia.TwitterService.Post` | backend/app/services/social_media.py:37-63 | unconfigured refuses without calls; an image is uploaded first and its media id attached; the tweet text is the truncated content; once the tweet is sent it succeeds exactly when the reply carries an id, and that id is the post id |
| `SocialMedia.TwitterService.Tweet` | backend/app/services/social_media.py:50-60 | a tweet succeeds exactly when the reply carries an id, and returns that id |
| `SocialMedia.LinkedInService.Post` | backend/app/services/social_media.py:88-143 | the member id is looked up first; without one it fails with "Could not get LinkedIn user ID" after that single call; the share is authored by `urn:li:person:<id>`; a sent share succeeds exactly when it answered 200 or 201, with the `x-restli-id` header (or "") as the post id |
| `SocialMedia.FacebookService.Post` | backend/app/services/social_media.py:158-200 | exactly one call: photo when an image URL is given, feed otherwise; success exactly when the reply carries an id |
| `SocialMedia.GraphResult` | backend/app/services/social_media.py:185-197 | a Graph reply is success exactly when it has an id; otherwise its error message, or the fallback text |
| `SocialMedia.InstagramService.Post` | backend/app/services/social_media.py:215-274 | no image means no call; a container is created with the caption, then published by its id; success exactly when the publish reply has an id, which is the post id |
| `SocialMedia.Distinct` | backend/app/services/social_media.py:308-329 | the result keys are the requested platforms without repeats |
| `SocialMedia.SocialMediaManager.constructor` | backend/app/services/social_media.py:280-284 | each adapter gets its own credentials; Instagram uses the Facebook page token |
| `SocialMedia.SocialMediaManager.EnabledPlatforms` | backend/app/services/social_media.py:286-293 | a platform is enabled exactly when all its credentials are non-empty |
| `SocialMedia.SocialMediaManager.Dispatch` | backend/app/services/social_media.py:305-329 | a configured Twitter, LinkedIn or Facebook gets its own adapter's run, and Instagram too when an image is given; Instagram without an image fails without a call; any other name fails with "<p> not configured or not recognized" |
| `SocialMedia.SocialMediaManager.PostToPlatforms` | backend/app/services/social_media.py:295-331 | the results have one entry per distinct requested platform, each the outcome of posting there, in first-request order |
| `SocialMedia.PublishKeys` | backend/app/services/social_media.py:308-329 | the fan-out's keys are distinct and are exactly the requested platforms in order |
| `SocialMedia.PublishGet` | backend/app/services/social_media.py:308-329 | each requested platform's entry is that platform's own result |
| `SocialMedia.PublishCallsOnlyServed` | backend/app/services/social_media.py:308-329 | when no requested platform is configured, nothing goes out on the network and every entry is a failure |
| `SocialMedia.PutFailureKeepsFailures` | backend/app/services/social_media.py:329 | overwriting an entry with a failure keeps an all-failure dictionary all-failure |
| `SocialMedia.PublishNonEmpty` | backend/app/services/social_media.py:308-329 | a non-empty request yields non-empty results |
| `Aggregation.Failed` | backend/app/routers/posts.py:270 | the failed entries are exactly the unsuccessful ones, and there are none exactly when all succeeded |
| `Aggregation.FailedAppend` | backend/app/routers/posts.py:270 | filtering failures distributes over concatenation |
| `Aggregation.ErrorLines` | backend/app/routers/posts.py:270-271 | one `platform: error` line per failed entry, in order |
| `Aggregation.ErrorLinesNonEmpty` | backend/app/routers/posts.py:269-271 | a failure always leaves a non-empty error message |
| `Aggregation.ErrorLinesMissingIrrelevant` | api/index.py:799 | when every failure carries an error, the placeholder for a missing one never shows |
| `Aggregation.PostedIds` | backend/app/routers/posts.py:265-280 | posted ids are only recorded for platforms that were in the results |
| `Aggregation.PostedIdsGet` | backend/app/routers/posts.py:265-280 | a platform has a posted id exactly when it is in the results (and succeeded, for the partial case), and the id is its post id |
| `Aggregation.Lenient` | backend/app/routers/posts.py:260-282 | the post is posted exactly when some platform succeeded, or all did; the call succeeds only when all did; the error lists exactly the failures |
| `Aggregation.LenientPostedIds` | backend/app/routers/posts.py:262-280 | after a full success every result platform has an id; after a partial success exactly the successful ones do |
| `Aggregation.Strict` | backend/app/services/scheduler.py:162-178 | the one-shot job marks posted only when every platform succeeded, and otherwise failed with the joined errors and no ids |
| `Aggregation.StrictVersusLenient` | backend/app/services/scheduler.py:162-178 | the one-shot and the router rule agree except on partial success, where only the router marks the post posted |
| `Aggregation.EmptyResults` | backend/app/routers/posts.py:260 | with no results the backend rules mark the post posted while the serverless rule gives "No platforms configured" |
| `Aggregation.Serverless` | api/index.py:792-806 | like the lenient rule, but with no results the post fails with "No platforms configured" |
| `Aggregation.ServerlessVersusLenient` | api/index.py:792-806 | on non-empty results where every failure carries an error, the serverless and backend rules coincide |
| `Aggregation.Targets` | backend/app/routers/posts.py:255 | the platforms to publish to are the post's own, or `["linkedin"]` when it has none |
| `Aggregation.Apply` | backend/app/routers/posts.py:260-282 | recording the verdict sets the status, posted ids, error and posted time as the verdict says, and no other column |
| `Aggregation.PublishEntry` | backend/app/services/social_media.py:308-329 | every result entry is the outcome of one requested platform |
| `Aggregation.PublishEntryOf` | backend/app/services/social_media.py:308-329 | every requested platform's outcome is in the results |
| `Aggregation.PublishAnySucceeded` | backend/app/services/social_media.py:295-331 | some result succeeded exactly when posting to some requested platform succeeds |
| `Aggregation.PublishAllSucceeded` | backend/app/services/social_media.py:295-331 | all results succeeded exactly when posting to every requested platform succeeds |
| `Aggregation.LenientPublishStatus` | backend/app/routers/posts.py:255-282 | a published post ends posted exactly when one of its target platforms accepts it |
| `Aggregation.StrictPublishStatus` | backend/app/services/scheduler.py:155-178 | the one-shot job ends posted exactly when every target platform accepts it |
| `AiContent.PlatformString` | backend/app/services/openai_service.py:25-28 | missing platforms default to `linkedin`; otherwise the names joined by `, ` |
| `AiContent.PromptFor` | backend/app/services/openai_service.py:30-35 | educational and motivation pick their own prompt, and anything else the general one |
| `AiContent.UserPrompt` | backend/app/services/openai_service.py:37-40 | a custom prompt wins; otherwise `Create a post about: <topic>`; otherwise the default text |
| `AiContent.DropOpening` | backend/app/services/openai_service.py:103 | a leading case-insensitive `` ```json `` and the whitespace after it are removed, and nothing else |
| `AiContent.DropClosing` | backend/app/services/openai_service.py:104 | a closing fence at the very end is removed, and text without one is untouched |
| `AiContent.Find` | backend/app/services/openai_service.py:107 | the first index of the character, or none exactly when it is absent |
| `AiContent.RFind` | backend/app/services/openai_service.py:108 | the last index of the character, or none exactly when it is absent |
| `AiContent.NoBraceFallback` | backend/app/services/openai_service.py:109-116 | a reply lacking `{` or `}` is taken as the post's plain content |
| `AiContent.CandidateShape` | backend/app/services/openai_service.py:106-110 | the decoded span starts at the first `{` and ends at the last `}` of the unfenced reply |
| `AiContent.BraceSpanShape` | backend/app/services/openai_service.py:107-110 | a non-empty brace span opens with `{`, closes with `}` and lies inside the text |
| `AiContent.UnfencedBraceFrom` | backend/app/services/openai_service.py:104 | removing a closing fence never introduces a brace |
| `AiContent.FencedObject` | backend/app/services/openai_service.py:99-111 | a JSON object wrapped in a json fence is decoded exactly as the bare object would be |
| `AiContent.GenerateContent` | backend/app/services/openai_service.py:16-73 | an exception gives `success=False` with its message and empty content; a reply gives the decoded content (default: the stripped reply), the image prompt or "", and the topic |
| `AiContent.ContentOr` | backend/app/services/openai_service.py:60 | the decoded `content` value when the key is present, and the raw text otherwise |
| `AiContent.PlainAnswer` | backend/app/services/openai_service.py:53-65 | a brace-free reply becomes the stripped reply as content, with image prompt "" |
| `Scheduler.JobId` | backend/app/services/scheduler.py:117 | job names are `post_` followed by the id |
| `Scheduler.JobIdInjective` | backend/app/services/scheduler.py:117-138 | two posts never share a job name, and no post job is the scan job |
| `Scheduler.DueIds` | backend/app/services/scheduler.py:50-56 | the scan picks exactly the approved or scheduled posts whose time has come |
| `Scheduler.Scanned` | backend/app/services/scheduler.py:63-113 | a faulting post is marked failed with the exception text; otherwise the lenient verdict is recorded |
| `Scheduler.AfterScan` | backend/app/services/scheduler.py:50-113 | a post that is not due is left as it was; a due post is handled and committed |
| `Scheduler.ScanTable` | backend/app/services/scheduler.py:42-113 | the scan keeps every row id, and each row ends as `AfterScan` says |
| `Scheduler.ScanFinished` | backend/app/services/scheduler.py:63-113 | once every due row has been handled, with the others left alone, the table is the one `ScanTable` describes |
| `Scheduler.SchedulerService.constructor` | backend/app/services/scheduler.py:18-20 | the service starts stopped, with no jobs |
| `Scheduler.SchedulerService.Start` | backend/app/services/scheduler.py:22-34 | the first start registers the scan job, and later starts change nothing |
| `Scheduler.SchedulerService.Stop` | backend/app/services/scheduler.py:36-40 | stopping clears the started flag and keeps the job table |
| `Scheduler.SchedulerService.SchedulePost` | backend/app/services/scheduler.py:115-138 | an old job of the post is always removed; a future time registers a one-shot job and is accepted, and a past time is refused |
| `Scheduler.SchedulerService.CheckScheduledPosts` | backend/app/services/scheduler.py:42-113 | the table ends as `ScanTable` of the table at the start: every post that was due then is published and committed, one fault affects only its own post, and no other post changes |
| `Scheduler.SchedulerService.ScanOne` | backend/app/services/scheduler.py:63-113 | one iteration on a due post replaces that row with its `AfterScan` form and changes nothing else |
| `Scheduler.SchedulerService.PublishSinglePost` | backend/app/services/scheduler.py:140-180 | a missing or already posted post is left alone; otherwise the strict verdict is committed |
| `Scheduler.ScanOutcome` | backend/app/services/scheduler.py:74-113 | a faulting post ends failed with its exception text and keeps its ids; otherwise it ends posted exactly when a target platform accepted it |
| `PostsRouter.GeneratedStatus` | backend/app/routers/posts.py:90 | generated posts are approved exactly when auto-post is requested, and pending approval otherwise |
| `PostsRouter.CreatedStatus` | backend/app/routers/posts.py:132 | created posts are scheduled exactly when a time is given, and drafts otherwise |
| `PostsRouter.GenerateContent` | backend/app/routers/posts.py:65-102 | a failed generation gives 500 with its error and stores nothing; decoded content that is not text fails the word count with a 500 and stores nothing; otherwise the generated post is stored under a fresh id and returned |
| `PostsRouter.GeneratedPostFields` | backend/app/routers/posts.py:83-92 | the stored post carries the generated text, its word count, the request's topic and platforms, no schedule, and the auto-post status |
| `PostsRouter.CreatePost` | backend/app/routers/posts.py:118-145 | the post is stored under a fresh id; the scheduler is consulted exactly when a time is given |
| `PostsRouter.Updated` | backend/app/routers/posts.py:201-216 | every field given in the request replaces the column (content also recounts words), and every other column is untouched |
| `PostsRouter.UpdatedLaws` | backend/app/routers/posts.py:201-216 | an empty update changes nothing, and applying an update twice equals applying it once |
| `PostsRouter.UpdatePost` | backend/app/routers/posts.py:189-221 | a missing post gives 404; otherwise the update is committed and a given time reschedules the post |
| `PostsRouter.ApprovePost` | backend/app/routers/posts.py:225-236 | a missing post gives 404; otherwise only its status becomes approved |
| `PostsRouter.PublishPost` | backend/app/routers/posts.py:240-291 | 404 for a missing post; 400 "Post already published" for a posted one; otherwise the lenient verdict of publishing to its targets is committed and returned |
| `PostsRouter.PublishAllAccepted` | backend/app/routers/posts.py:260-268 | when every target accepts, the post is posted at `now` with an id for exactly its target platforms, and its error message is kept |
| `PostsRouter.PublishSomeRejected` | backend/app/routers/posts.py:269-282 | when some target rejects, the error message lists exactly the failing platforms; a posted outcome has ids for exactly the accepting targets, and a failed one keeps its ids and posted time |
| `PostsRouter.DeletePost` | backend/app/routers/posts.py:295-306 | a missing post gives 404; otherwise exactly that row is removed |
| `PostsRouter.GetPost` | backend/app/routers/posts.py:177-185 | the stored post, or 404 |
| `ServerlessAuth.EnvTokens` | api/index.py:46-75 | the environment fallback lists all four platforms, each connected exactly when its key variable is non-empty; Instagram reuses the Facebook page token |
| `ServerlessAuth.Field` | api/index.py:46-75 | a credential is the value stored under that platform and field, and none when either is missing |
| `ServerlessAuth.OAuthConfig` | api/index.py:85-107 | OAuth is offered for LinkedIn, Twitter and Facebook only, each with its own client id and secret variables; Facebook's client id is `FACEBOOK_APP_ID` |
| `ServerlessAuth.Upper` | api/index.py:168 | upper-casing keeps the length and maps each letter `a`-`z` to its capital, leaving every other character alone |
| `ServerlessAuth.UpperChar` | api/index.py:168 | a lower-case ASCII letter becomes the capital at the same place in the alphabet; any other character is kept |
| `ServerlessAuth.FacebookHintName` | api/index.py:168 | the refusal for Facebook names `FACEBOOK_CLIENT_ID` |
| `ServerlessAuth.FacebookHintIgnored` | api/index.py:85-107 | the variable `FACEBOOK_CLIENT_ID` named by that refusal has no effect on the OAuth configuration |
| `ServerlessAuth.Saved` | api/index.py:77-80 | saving a token marks that platform connected with its fields and leaves the other platforms alone |
| `ServerlessAuth.Granting` | api/index.py:257-312 | LinkedIn and Twitter save their token; Facebook saves the first page's token and, if that page has an Instagram account, an Instagram token; a page without an id ends in `error=id` |
| `ServerlessAuth.AuthStore.constructor` | api/index.py:42-111 | the cache, the pending states and the verifiers start empty |
| `ServerlessAuth.AuthStore.StoredTokens` | api/index.py:46-75 | a non-empty cache is used as is; otherwise the environment fallback |
| `ServerlessAuth.AuthStore.SaveToken` | api/index.py:77-80 | only the cache changes, as `Saved` says |
| `ServerlessAuth.AuthStore.Disconnect` | api/index.py:320-326 | the platform leaves the cache, and the reply names it |
| `ServerlessAuth.AuthStore.OAuthConnect` | api/index.py:157-196 | an unknown platform or a missing client id is refused with its message; otherwise the state is remembered for the platform, and the PKCE verifier for Twitter only |
| `ServerlessAuth.AuthStore.OAuthCallback` | api/index.py:199-317 | a provider error, a missing code or state, or a state not issued for this platform each redirect with their error and change nothing; otherwise the state is consumed and the exchange's outcome saved |
| `ServerlessAuth.AuthStore.ReplayCallback` | api/index.py:210-214 | a state can be used once: replaying the callback is refused as an invalid state |
| `ServerlessAuth.CacheShadowsEnvironment` | api/index.py:50-52 | once anything is cached, a platform missing from the cache has no credentials at all |
| `ServerlessAuth.EmptyCacheUsesEnvironment` | api/index.py:54-75 | with an empty cache every platform's connection follows its environment variable |
| `ServerlessPosts.PostToLinkedIn` | api/index.py:419-463 | without a token, or when the lookup fails, it refuses with its message; the share is authored by the looked-up member; success on status 200 or 201 carries the reply's id |
| `ServerlessPosts.PostToTwitter` | api/index.py:466-492 | without a token no call is made; the tweet text is truncated; success on 200 or 201 carries the id |
| `ServerlessPosts.PostToFacebook` | api/index.py:495-514 | without both a token and a page id no call is made; otherwise one feed post, the Graph rule decides |
| `ServerlessPosts.PostToInstagram` | api/index.py:517-549 | a missing account or image refuses without calls; the container carries the caption and is published by its id; success exactly when the publish reply has an id, which is the post id |
| `ServerlessPosts.Route` | api/index.py:782-790 | exactly the four known names are posted to, each through its own adapter, Instagram with `image_url or ""` |
| `ServerlessPosts.KnownOnly` | api/index.py:782-790 | the platforms that get a result are the known ones among those requested, and there are none exactly when no known platform is requested |
| `ServerlessPosts.FanoutKeys` | api/index.py:780-790 | the result keys are the known requested platforms without repeats |
| `ServerlessPosts.FanoutGet` | api/index.py:780-790 | each known requested platform's entry is its adapter's result |
| `ServerlessPosts.FanoutNothingKnown` | api/index.py:792-800 | publishing to no known platform fails with "No platforms configured" |
| `ServerlessPosts.PublishLoop` | api/index.py:780-790 | the loop over the post's platforms computes exactly the results and requests `Fanout` describes |
| `ServerlessPosts.FanoutSucceeded` | api/index.py:780-801 | some result succeeded exactly when the adapter of some known requested platform succeeded |
| `ServerlessPosts.FanoutNonEmpty` | api/index.py:780-792 | there is a result only when some known platform was requested |
| `ServerlessPosts.PublishOutcome` | api/index.py:782-806 | a known requested platform has its adapter's result and any other name none; the record ends posted exactly when some known requested platform accepted it; the endpoint succeeds only if some known platform was requested |
| `ServerlessPosts.LinkedInWithoutMemberId` | api/index.py:432-438 | a user-info reply without a member id still leads to a share authored by `urn:li:person:None` |
| `ServerlessPosts.Generated` | api/index.py:633-651 | a generated record is pending approval with the given content and its word count, the decoded image prompt or "", the request's type, topic, platforms and auto-post flag, no image, no schedule and nothing posted |
| `ServerlessPosts.Created` | api/index.py:678-703 | a created record is scheduled exactly when a non-empty time is given, and a draft otherwise; it stores that time and every other request field as given, its word count, and nothing posted |
| `ServerlessPosts.Updated` | api/index.py:740-754 | the given fields replace the record's, content recounts words, `updated_at` is refreshed, and nothing else changes |
| `ServerlessPosts.Recorded` | api/index.py:792-808 | the verdict sets the status, ids, error and posted time, and refreshes `updated_at` |
| `ServerlessPosts.Matching` | api/index.py:715-718 | the filtered list holds exactly the records matching the given status and type, drawn from the table |
| `ServerlessPosts.InsertByTimeKeeps` | api/index.py:720 | inserting into the sorted list adds exactly that record |
| `ServerlessPosts.InsertByTimeMembers` | api/index.py:720 | inserting brings in no other record |
| `ServerlessPosts.InsertByTimeOrder` | api/index.py:720 | inserting keeps newest-first order |
| `ServerlessPosts.InsertByTimeAt` | api/index.py:720 | inserting keeps the relative order of records with equal creation time |
| `ServerlessPosts.NewestFirstLaws` | api/index.py:720 | the reverse sort by creation time is a permutation, newest first, and stable among equal times |
| `ServerlessPosts.MatchingAt` | api/index.py:715-718 | filtering keeps table order: the matches created at one instant are the matching records among those created then, in order |
| `ServerlessPosts.SortedMatchingAt` | api/index.py:715-720 | after filtering and sorting, records created at the same instant still come in table order |
| `ServerlessPosts.ListPage` | api/index.py:713-723 | the reported total is the length of the returned page, not of the number of matches |
| `ServerlessPosts.SliceRun` | api/index.py:721 | a Python slice is a contiguous run of the list, from `min(i,n)` to `min(j,n)` for non-negative bounds |
| `ServerlessPosts.ListPageSound` | api/index.py:713-723 | every listed record is a stored record that matches the filters; the page is newest first; a non-negative limit bounds its length |
| `ServerlessPosts.ListPageWindow` | api/index.py:720-721 | for `offset >= 0` and `offset + limit >= 0` the page is exactly the `[offset:offset+limit]` window of the newest-first matches, in length and in each element |
| `ServerlessPosts.ListPageNegativeLimit` | api/index.py:721 | a negative limit with offset 0 drops that many of the oldest matches, as Python's slice does |
| `ServerlessPosts.SortedMatchingLength` | api/index.py:720 | sorting keeps the number of matches |
| `ServerlessPosts.ListPageComplete` | api/index.py:713-723 | with offset 0 and a limit covering the table, the page holds every matching record |
| `ServerlessPosts.PostsTable.constructor` | api/index.py:43-44 | the table starts empty with counter 0 |
| `ServerlessPosts.PostsTable.Append` | api/index.py:680-701 | a new record gets the next counter value as its id and is appended under it |
| `ServerlessPosts.PostsTable.GetPost` | api/index.py:726-730 | the record under the id, or 404 |
| `ServerlessPosts.PostsTable.GenerateContent` | api/index.py:603-658 | no API key gives 500 "OpenAI API key not configured"; a chat exception gives 500 with its text; a reply uses up the next id, and it stores a generated record under it unless the decoded content is not text, which gives 500 with the `split` error and stores nothing |
| `ServerlessPosts.PostsTable.UseId` | api/index.py:633-634 | the counter advances by one and the table is unchanged |
| `ServerlessPosts.PostsTable.CreatePost` | api/index.py:678-703 | the created record, scheduled exactly when a non-empty time is given, is stored under the next id and returned |
| `ServerlessPosts.PutKeyed` | api/index.py:738-754 | storing a record under its own issued id keeps every row under its own id |
| `ServerlessPosts.RemoveKeyed` | api/index.py:813-819 | deleting a row keeps every other row under its own id |
| `ServerlessPosts.PostsTable.Replace` | api/index.py:738-754 | a record is changed in place: same keys, same id order |
| `ServerlessPosts.PostsTable.UpdatePost` | api/index.py:733-756 | a missing record gives 404; otherwise the updated record replaces it |
| `ServerlessPosts.PostsTable.ApprovePost` | api/index.py:759-767 | a missing record gives 404; otherwise it becomes approved with a fresh `updated_at` |
| `ServerlessPosts.PostsTable.DeletePost` | api/index.py:813-819 | a missing record gives 404; otherwise exactly that record is removed |
| `ServerlessPosts.PostsTable.ListPosts` | api/index.py:706-723 | the listing holds only matching stored records, newest first, at most a non-negative `limit` of them, and reports its own length; for `offset >= 0` and `offset + limit >= 0` it is exactly the `[offset:offset+limit]` window of the sorted matches |
| `ServerlessPosts.PostsTable.PublishPost` | api/index.py:770-810 | a missing record gives 404; otherwise the serverless verdict of the fan-out is recorded and returned |
| `ServerlessPosts.PostsTable.IdOfGet` | api/index.py:728-730 | a record found under an id carries that id |

## Left out

- HTTP transport, URL encoding, JSON bodies and headers are not modelled.
  The network, the token endpoint, the chat model and the JSON decoder are
  opaque function parameters. JSON `null` and a missing key are one case.
- Twitter user-context signing, the Basic auth on the token request and the
  Facebook long-lived token exchange are not modelled: these details sit
  inside the opaque token endpoint.
- State and PKCE generation (`secrets`, `hashlib`) are not modelled: state
  and verifier are parameters of `OAuthConnect`.
- The SQL database, sessions and transactions are not modelled; the table
  is a map of rows in `PostStore`.
- APScheduler's threads and timers are not modelled. The job table records
  what is registered, and the scan is one call with the clock value.
  Concurrent publishing of the same post is out of scope.
- The prompt texts are not modelled: the system prompt is its kind and
  platform string. The model name, `max_tokens` and `temperature` are left
  out too.
- `generate_image` (both variants) and the image-generation endpoints are
  not modelled; they only relay the image service's reply.
- `get_scheduled_jobs`, the platform status endpoints, the health and root
  endpoints, and `platforms.py` only report configuration and are not
  modelled.
- The backend `list_posts` runs an SQL query with ordering and limits; it is
  not modelled separately, and the serverless listing stands for it.
- `ServerlessPosts.PostsTable.ListPosts`: requires `limit <= 100`, the
  FastAPI validation bound that rejects larger values before the handler.
- `Scheduler.SchedulerService.SchedulePost`: the comparison of a request
  time with the naive `datetime.utcnow()` raises `TypeError` when the time
  carries a timezone offset (`Z`, `+02:00`). This is not modelled, because
  times are integers. The error comes after the post's old job was removed.
  In `PostsRouter.CreatePost` the post is then already committed as
  scheduled, the request answers 500 and no job is registered. In
  `PostsRouter.UpdatePost` the old job is lost and the update is never
  committed. The model answers both normally and registers the job.
- `ISO` formatting is not modelled. Times are integers, and
  `PostModel.ToDict` takes the formatter as a parameter.
- `AiContent.GenerateContent`: a non-object JSON reply (a list or a
  number), which would make `parsed.get` raise, is not modelled; the
  decoder yields only objects.
- `PostsRouter.GenerateContent`: of the exceptions raised after the service
  returned, only the failing word count of non-text content is modelled; a
  database error is not.
- `ServerlessPosts.Generated`: a decoded `image_prompt` that is not a string
  is not modelled; the decoder yields the image prompt as text.
- `SocialMedia.PublishGet`, `ServerlessPosts.FanoutGet`: the network answers
  identical requests identically, so when a platform name is repeated its
  entry, written by the last occurrence, equals the entry of the first. A
  real service that rejects the second, duplicate post (after accepting the
  first) would make the entry that failure; the model does not capture it.
- `ServerlessPosts.Response`: the `generation_result` key of the generate
  reply, the `platform_results` and `message` keys of the publish reply are
  not carried, and `get_post`'s body (only `{"post": ...}`, without a
  `success` key) is modelled as the same `Answer` as the other endpoints.
- The Mangum handler and application wiring (`main.py`, settings loading)
  are not modelled.
