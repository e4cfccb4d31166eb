/** The post table of the backend: the status and content-type enumerations,
    one row of the table with its column defaults, the `to_dict` view of a row,
    and the table itself as a store keyed by the row id. */
module PostModel {
  import opened Common

  // ---------------------------------------------------------------- enums

  datatype PostStatus = Draft | PendingApproval | Approved | Scheduled | Posted | Failed {
    /** The string stored in the `status` column. */
    function Value(): string {
      match this
      case Draft => "draft"
      case PendingApproval => "pending_approval"
      case Approved => "approved"
      case Scheduled => "scheduled"
      case Posted => "posted"
      case Failed => "failed"
    }
  }

  /** `PostStatus(s)`: the member whose value is `s`, if there is one. */
  function ParseStatus(s: string): Option<PostStatus> {
    if s == "draft" then Some(Draft)
    else if s == "pending_approval" then Some(PendingApproval)
    else if s == "approved" then Some(Approved)
    else if s == "scheduled" then Some(Scheduled)
    else if s == "posted" then Some(Posted)
    else if s == "failed" then Some(Failed)
    else None
  }

  /** The six statuses are exactly the six strings: parsing recovers every member
      from its value, and a string parses only when it is one of the values. */
  lemma StatusValuesExact(st: PostStatus, s: string)
    ensures ParseStatus(st.Value()) == Some(st)
    ensures ParseStatus(s).Some? ==> ParseStatus(s).value.Value() == s
    ensures ParseStatus(s).Some? <==> s in {"draft", "pending_approval", "approved", "scheduled", "posted", "failed"}
  {
  }

  datatype ContentType = Educational | Motivation | Promotional | Engagement | News | Custom {
    /** The string stored in the `content_type` column. */
    function Value(): string {
      match this
      case Educational => "educational"
      case Motivation => "motivation"
      case Promotional => "promotional"
      case Engagement => "engagement"
      case News => "news"
      case Custom => "custom"
    }
  }

  function ParseContentType(s: string): Option<ContentType> {
    if s == "educational" then Some(Educational)
    else if s == "motivation" then Some(Motivation)
    else if s == "promotional" then Some(Promotional)
    else if s == "engagement" then Some(Engagement)
    else if s == "news" then Some(News)
    else if s == "custom" then Some(Custom)
    else None
  }

  lemma ContentTypeValuesExact(ct: ContentType, s: string)
    ensures ParseContentType(ct.Value()) == Some(ct)
    ensures ParseContentType(s).Some? ==> ParseContentType(s).value.Value() == s
    ensures ParseContentType(s).Some? <==> s in {"educational", "motivation", "promotional", "engagement", "news", "custom"}
  {
  }

  // ---------------------------------------------------------------- rows

  /** Timestamps are whole clock ticks. */
  type Time = int

  /** One row of the `posts` table. The `status` and `content_type` columns are
      plain strings: nothing stops a handler from writing another value. */
  datatype Post = Post(
    id: int,
    content: string,
    imageUrl: Option<string>,
    imagePrompt: Option<string>,
    contentType: Option<string>,
    topic: Option<string>,
    hookType: Option<string>,
    wordCount: Option<int>,
    status: Option<string>,
    autoPost: Option<bool>,
    scheduledTime: Option<Time>,
    platforms: Option<seq<string>>,
    postedIds: Option<map<string, string>>,
    postedTime: Option<Time>,
    errorMessage: Option<string>,
    createdAt: Option<Time>,
    updatedAt: Option<Time>)

  /** The keyword arguments of a `Post(...)` construction. `None` means the
      argument was not passed, so that the column's default applies; a passed
      value of a nullable column is itself an option. */
  datatype NewPost = NewPost(
    content: string,
    imageUrl: Option<Option<string>>,
    imagePrompt: Option<Option<string>>,
    contentType: Option<string>,
    topic: Option<Option<string>>,
    wordCount: Option<int>,
    status: Option<string>,
    autoPost: Option<bool>,
    scheduledTime: Option<Option<Time>>,
    platforms: Option<seq<string>>)

  /** No keyword argument except the content. */
  function Bare(content: string): NewPost {
    NewPost(content, None, None, None, None, None, None, None, None, None)
  }

  /** The row the database stores for a construction, given the id it assigns
      and the server clock at insertion. */
  function Insert(n: NewPost, id: int, now: Time): (p: Post)
    ensures p.id == id && p.content == n.content
    ensures p.createdAt == Some(now) && p.updatedAt == Some(now)
    ensures p.postedIds == Some(map[]) && p.postedTime.None? && p.errorMessage.None? && p.hookType.None?
    ensures p.status == Some(n.status.GetOr("draft"))
    ensures p.contentType == Some(n.contentType.GetOr("custom"))
    ensures p.platforms == Some(n.platforms.GetOr(["linkedin"]))
    ensures p.wordCount == Some(n.wordCount.GetOr(0)) && p.autoPost == Some(n.autoPost.GetOr(false))
    ensures p.imageUrl == n.imageUrl.GetOr(None) && p.topic == n.topic.GetOr(None)
    ensures p.imagePrompt == n.imagePrompt.GetOr(None) && p.scheduledTime == n.scheduledTime.GetOr(None)
  {
    Post(
      id := id,
      content := n.content,
      imageUrl := n.imageUrl.GetOr(None),
      imagePrompt := n.imagePrompt.GetOr(None),
      contentType := Some(n.contentType.GetOr(ContentType.Custom.Value())),
      topic := n.topic.GetOr(None),
      hookType := None,
      wordCount := Some(n.wordCount.GetOr(0)),
      status := Some(n.status.GetOr(PostStatus.Draft.Value())),
      autoPost := Some(n.autoPost.GetOr(false)),
      scheduledTime := n.scheduledTime.GetOr(None),
      platforms := Some(n.platforms.GetOr(["linkedin"])),
      postedIds := Some(map[]),
      postedTime := None,
      errorMessage := None,
      createdAt := Some(now),
      updatedAt := Some(now))
  }

  /** A row inserted with no arguments but its content gets the declared column
      defaults: draft, custom, the LinkedIn-only platform list and no posted ids. */
  lemma InsertDefaults(content: string, id: int, now: Time)
    ensures var p := Insert(Bare(content), id, now);
      && ParseStatus(p.status.value) == Some(Draft)
      && ParseContentType(p.contentType.value) == Some(Custom)
      && p.platforms == Some(["linkedin"]) && p.postedIds == Some(map[])
      && p.wordCount == Some(0) && p.autoPost == Some(false)
      && p.scheduledTime.None? && p.imageUrl.None?
  {
  }

  /** The JSON object `to_dict` returns; timestamps are already ISO strings. */
  datatype PostView = PostView(
    id: int,
    content: string,
    imageUrl: Option<string>,
    imagePrompt: Option<string>,
    contentType: Option<string>,
    topic: Option<string>,
    hookType: Option<string>,
    wordCount: Option<int>,
    status: Option<string>,
    autoPost: Option<bool>,
    scheduledTime: Option<string>,
    platforms: seq<string>,
    postedIds: map<string, string>,
    postedTime: Option<string>,
    errorMessage: Option<string>,
    createdAt: Option<string>,
    updatedAt: Option<string>)

  /** `t.isoformat() if t else None`; a datetime is always truthy. */
  function IsoOrNone(t: Option<Time>, iso: Time -> string): (r: Option<string>)
    ensures r.None? <==> t.None?
    ensures t.Some? ==> r == Some(iso(t.value))
  {
    if t.Some? then Some(iso(t.value)) else None
  }

  /** `Post.to_dict()`, with `iso` standing for `datetime.isoformat`. */
  function ToDict(p: Post, iso: Time -> string): (v: PostView)
    // the list and the mapping are never null: an absent one becomes empty
    ensures p.platforms.Some? ==> v.platforms == p.platforms.value
    ensures p.platforms.None? ==> v.platforms == []
    ensures p.postedIds.Some? ==> v.postedIds == p.postedIds.value
    ensures p.postedIds.None? ==> v.postedIds == map[]
    // each timestamp is absent exactly when the column is, and ISO-formatted otherwise
    ensures v.scheduledTime.None? <==> p.scheduledTime.None?
    ensures v.postedTime.None? <==> p.postedTime.None?
    ensures v.createdAt.None? <==> p.createdAt.None?
    ensures v.updatedAt.None? <==> p.updatedAt.None?
    ensures p.scheduledTime.Some? ==> v.scheduledTime == Some(iso(p.scheduledTime.value))
    ensures p.postedTime.Some? ==> v.postedTime == Some(iso(p.postedTime.value))
    ensures p.createdAt.Some? ==> v.createdAt == Some(iso(p.createdAt.value))
    ensures p.updatedAt.Some? ==> v.updatedAt == Some(iso(p.updatedAt.value))
    // every other field passes through
    ensures v.id == p.id && v.content == p.content && v.status == p.status
    ensures v.errorMessage == p.errorMessage && v.imageUrl == p.imageUrl && v.topic == p.topic
    ensures v.imagePrompt == p.imagePrompt && v.contentType == p.contentType && v.hookType == p.hookType
    ensures v.wordCount == p.wordCount && v.autoPost == p.autoPost
  {
    PostView(
      id := p.id,
      content := p.content,
      imageUrl := p.imageUrl,
      imagePrompt := p.imagePrompt,
      contentType := p.contentType,
      topic := p.topic,
      hookType := p.hookType,
      wordCount := p.wordCount,
      status := p.status,
      autoPost := p.autoPost,
      scheduledTime := IsoOrNone(p.scheduledTime, iso),
      // `x or []`: both None and an empty list give the empty list
      platforms := if p.platforms.Some? && p.platforms.value != [] then p.platforms.value else [],
      postedIds := if p.postedIds.Some? && p.postedIds.value != map[] then p.postedIds.value else map[],
      postedTime := IsoOrNone(p.postedTime, iso),
      errorMessage := p.errorMessage,
      createdAt := IsoOrNone(p.createdAt, iso),
      updatedAt := IsoOrNone(p.updatedAt, iso))
  }

  /** The row's status column holds the value of `st`. */
  predicate HasStatus(p: Post, st: PostStatus) {
    p.status == Some(st.Value())
  }

  // ---------------------------------------------------------------- the table

  /** The row stored when `p` is committed over `stored`. */
  function Committed(stored: Post, p: Post, now: Time): (r: Post)
    ensures r.(updatedAt := p.updatedAt) == p
    ensures r.updatedAt == if p == stored then stored.updatedAt else Some(now)
  {
    if p == stored then stored else p.(updatedAt := Some(now))
  }

  /** The `posts` table behind the database session. Row ids are assigned by the
      database on insertion and never collide with a stored row. */
  class PostStore {
    var rows: map<int, Post>
    var lastId: int

    ghost predicate Valid()
      reads this
    {
      forall id :: id in rows ==> id <= lastId && rows[id].id == id
    }

    constructor ()
      ensures Valid() && rows == map[]
    {
      rows := map[];
      lastId := 0;
    }

    /** `db.add(Post(...)); await db.commit()`: the new row gets a fresh id. */
    method Add(n: NewPost, now: Time) returns (id: int)
      requires Valid()
      modifies this
      ensures Valid()
      ensures id !in old(rows)
      ensures rows == old(rows)[id := Insert(n, id, now)]
    {
      lastId := lastId + 1;
      id := lastId;
      rows := rows[id := Insert(n, id, now)];
    }

    /** `select(Post).where(Post.id == id)` then `scalar_one_or_none()`. */
    function Find(id: int): (r: Option<Post>)
      reads this
      ensures r.Some? <==> id in rows
      ensures r.Some? ==> r.value == rows[id]
    {
      if id in rows then Some(rows[id]) else None
    }

    /** Commits the fields of an existing row. An UPDATE is issued only when a
        column changed, and then `updated_at` is refreshed by its `onupdate`
        clause. */
    method Save(p: Post, now: Time)
      requires Valid() && p.id in rows
      modifies this
      ensures Valid() && lastId == old(lastId)
      ensures rows == old(rows)[p.id := Committed(old(rows)[p.id], p, now)]
    {
      rows := rows[p.id := Committed(rows[p.id], p, now)];
    }

    /** `await db.delete(post); await db.commit()`. */
    method Delete(id: int)
      requires Valid()
      modifies this
      ensures Valid() && lastId == old(lastId)
      ensures rows == old(rows) - {id}
    {
      rows := rows - {id};
    }
  }
}
