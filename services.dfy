/**
 * The read side of the store (internal/database/services.go): the NULL
 * helpers, scanning rows into entities, the blog-post and monologue queries
 * with their visibility filters, orderings and absence policies, and the
 * profile, skill, experience and code-category listings.
 */
module Services {
  import opened Base
  import opened Models
  import opened Sql
  import opened Store

  // ---------------------------------------------------------------------------
  // database/sql's nullable holders and the conversions to and from pointers
  // ---------------------------------------------------------------------------

  datatype NullString = NullString(str: Bytes, valid: bool)

  datatype NullInt64 = NullInt64(int64: int, valid: bool)

  function NullStringToPtr(ns: NullString): (p: Option<Bytes>)
    ensures p.Some? <==> ns.valid
    ensures p.Some? ==> p.value == ns.str
  {
    if !ns.valid then None else Some(ns.str)
  }

  function PtrToNullString(p: Option<Bytes>): (ns: NullString)
    ensures ns.valid <==> p.Some?
    ensures ns.valid ==> ns.str == p.value
    ensures !ns.valid ==> ns == NullString([], false)
  {
    if p.None? then NullString([], false) else NullString(p.value, true)
  }

  function PtrToNullInt(p: Option<int>): (ni: NullInt64)
    ensures ni.valid <==> p.Some?
    ensures ni.valid ==> ni.int64 == p.value
    ensures !ni.valid ==> ni == NullInt64(0, false)
  {
    if p.None? then NullInt64(0, false) else NullInt64(p.value, true)
  }

  /** nil goes to an invalid NullString and back to nil; a string to a valid one and back to itself. */
  lemma NullStringRoundTrip(p: Option<Bytes>)
    ensures NullStringToPtr(PtrToNullString(p)) == p
  {
  }

  /** The other direction holds for the holders the driver produces (an invalid one carries ""). */
  lemma NullStringRoundTripBack(ns: NullString)
    requires ns.valid || ns.str == []
    ensures PtrToNullString(NullStringToPtr(ns)) == ns
  {
  }

  /** The bound argument a NullString becomes (its driver.Valuer). */
  function NullStringArg(ns: NullString): SqlValue {
    if ns.valid then SqlText(ns.str) else SqlNull
  }

  /** What Scan stores into a NullString or NullInt64 for a column value. */
  function ScanNullString(v: Option<Bytes>): NullString {
    if v.Some? then NullString(v.value, true) else NullString([], false)
  }

  function ScanNullInt(v: Option<int>): NullInt64 {
    if v.Some? then NullInt64(v.value, true) else NullInt64(0, false)
  }

  // ---------------------------------------------------------------------------
  // Entities scanned from rows
  // ---------------------------------------------------------------------------

  /** One row of queryBlogPosts: nullable text through NullString, a NULL like_count read as 0. */
  function PostEntity(id: Id, r: PostRow): BlogPost {
    var likeCount := ScanNullInt(r.likeCount);
    BlogPost(
      id := id,
      title := r.title,
      slug := r.slug,
      excerpt := NullStringToPtr(ScanNullString(r.excerpt)),
      content := r.content,
      coverImageUrl := NullStringToPtr(ScanNullString(r.coverImageUrl)),
      tags := r.tags,
      status := BlogStatus(r.status),
      seoTitle := NullStringToPtr(ScanNullString(r.seoTitle)),
      seoDescription := NullStringToPtr(ScanNullString(r.seoDescription)),
      publishedAt := r.publishedAt,
      likeCount := if likeCount.valid then Some(likeCount.int64) else Some(0),
      createdAt := r.createdAt,
      updatedAt := r.updatedAt)
  }

  function PostEntities(rows: seq<(Id, PostRow)>): (r: seq<BlogPost>)
    ensures |r| == |rows|
    ensures forall i :: 0 <= i < |rows| ==> r[i] == PostEntity(rows[i].0, rows[i].1)
  {
    seq(|rows|, i requires 0 <= i < |rows| => PostEntity(rows[i].0, rows[i].1))
  }

  function PreviewEntity(p: PreviewRow): URLPreview {
    URLPreview(
      title := p.title,
      description := NullStringToPtr(ScanNullString(p.description)),
      imageUrl := NullStringToPtr(ScanNullString(p.imageUrl)),
      siteName := NullStringToPtr(ScanNullString(p.siteName)),
      url := p.url,
      favicon := NullStringToPtr(ScanNullString(p.favicon)),
      createdAt := p.createdAt)
  }

  /** The first url_previews row of a monologue in storage order: what QueryRow reads. */
  function FirstPreviewOf(ps: seq<PreviewRow>, id: Id): Option<PreviewRow>
    decreases |ps|
  {
    if ps == [] then None
    else if ps[0].monologueId == Some(id) then Some(ps[0])
    else FirstPreviewOf(ps[1..], id)
  }

  lemma {:induction false} FirstPreviewOfSpec(ps: seq<PreviewRow>, id: Id)
    ensures FirstPreviewOf(ps, id).None? <==> !ReferencedByPreview(ps, id)
    ensures FirstPreviewOf(ps, id).Some? ==>
              exists i :: 0 <= i < |ps| && ps[i] == FirstPreviewOf(ps, id).value && ps[i].monologueId == Some(id)
                          && forall j :: 0 <= j < i ==> ps[j].monologueId != Some(id)
    decreases |ps|
  {
    if ps != [] && ps[0].monologueId != Some(id) {
      FirstPreviewOfSpec(ps[1..], id);
      if FirstPreviewOf(ps, id).Some? {
        var i :| 0 <= i < |ps[1..]| && ps[1..][i] == FirstPreviewOf(ps, id).value && ps[1..][i].monologueId == Some(id)
                 && forall j :: 0 <= j < i ==> ps[1..][j].monologueId != Some(id);
        assert ps[i + 1] == ps[1..][i];
        assert forall j :: 1 <= j < i + 1 ==> ps[j] == ps[1..][j - 1];
      }
      if ReferencedByPreview(ps, id) {
        var i :| 0 <= i < |ps| && ps[i].monologueId == Some(id);
        assert ps[1..][i - 1] == ps[i];
      }
    } else if ps != [] {
      assert ps[0].monologueId == Some(id);
    }
  }

  /** GetURLPreviewByMonologueID's result: no row is (nil, nil), not an error. */
  function PreviewLookup(s: DbState, id: Id): Result<Option<URLPreview>> {
    if !s.online then Err(Sql(Unavailable))
    else match FirstPreviewOf(s.previews, id)
      case None => Ok(None)
      case Some(p) => Ok(Some(PreviewEntity(p)))
  }

  /** The joined code category; created_at and updated_at are not selected, so they stay zero. */
  function JoinedCategory(s: DbState, r: MonologueRow): Option<CodeCategory> {
    if r.codeCategoryId.Some? && r.codeCategoryId.value in s.categories then
      var c := s.categories[r.codeCategoryId.value];
      Some(CodeCategory(
        id := r.codeCategoryId.value,
        name := c.name,
        slug := c.slug,
        description := NullStringToPtr(ScanNullString(c.description)),
        parentId := NullStringToPtr(ScanNullString(c.parentId)),
        color := NullStringToPtr(ScanNullString(c.color)),
        icon := NullStringToPtr(ScanNullString(c.icon)),
        createdAt := ZeroTime,
        updatedAt := ZeroTime))
    else None
  }

  /**
   * One row of queryMonologues: a NULL like_count stays absent, the preview is
   * looked up only when url is non-NULL and a failed lookup gives no preview.
   */
  function MonologueEntity(s: DbState, id: Id, r: MonologueRow): Monologue {
    var likeCount := ScanNullInt(r.likeCount);
    var url := NullStringToPtr(ScanNullString(r.url));
    var difficulty := ScanNullString(r.difficulty);
    Monologue(
      id := id,
      content := r.content,
      contentType := ContentType(r.contentType),
      codeLanguage := NullStringToPtr(ScanNullString(r.codeLanguage)),
      codeSnippet := NullStringToPtr(ScanNullString(r.codeSnippet)),
      tags := r.tags,
      isPublished := r.isPublished,
      publishedAt := r.publishedAt,
      createdAt := r.createdAt,
      updatedAt := r.updatedAt,
      url := url,
      urlPreview := if url.Some? && PreviewLookup(s, id).Ok? then PreviewLookup(s, id).value else None,
      series := NullStringToPtr(ScanNullString(r.series)),
      category := NullStringToPtr(ScanNullString(r.category)),
      likeCount := if likeCount.valid then Some(likeCount.int64) else None,
      codeCategory := JoinedCategory(s, r),
      difficulty := if difficulty.valid then Some(Difficulty(difficulty.str)) else None)
  }

  function MonologueEntities(s: DbState, rows: seq<(Id, MonologueRow)>): (r: seq<Monologue>)
    ensures |r| == |rows|
    ensures forall i :: 0 <= i < |rows| ==> r[i] == MonologueEntity(s, rows[i].0, rows[i].1)
  {
    seq(|rows|, i requires 0 <= i < |rows| => MonologueEntity(s, rows[i].0, rows[i].1))
  }

  /** A NULL like_count reads as 0 on a blog post but as absent on a monologue. */
  lemma NullLikeCountPolicy(s: DbState, id: Id, p: PostRow, m: MonologueRow)
    ensures PostEntity(id, p).likeCount == Some(p.likeCount.GetOr(0))
    ensures MonologueEntity(s, id, m).likeCount == m.likeCount
  {
  }

  /** The optional parts of a scanned monologue follow the NULLs of its row. */
  lemma MonologueOptionalParts(s: DbState, id: Id, m: MonologueRow)
    requires Consistent(s)
    ensures MonologueEntity(s, id, m).codeCategory.Some? <==> m.codeCategoryId.Some? && m.codeCategoryId.value in s.categories
    ensures MonologueEntity(s, id, m).difficulty.Some? <==> m.difficulty.Some?
    ensures MonologueEntity(s, id, m).urlPreview.Some? <==>
              m.url.Some? && s.online && ReferencedByPreview(s.previews, id)
    ensures !s.online ==> MonologueEntity(s, id, m).urlPreview.None?
  {
    FirstPreviewOfSpec(s.previews, id);
  }

  // ---------------------------------------------------------------------------
  // Blog posts
  // ---------------------------------------------------------------------------

  /** PublishedDesc, AnyOrder or CreatedDesc on blog-post entities, as on their rows. */
  predicate PostEntityOrder(o: RowOrder, a: BlogPost, b: BlogPost) {
    match o
    case AnyOrder => true
    case PublishedDesc => PublishedDescLe(a.publishedAt, b.publishedAt)
    case CreatedDesc => a.createdAt >= b.createdAt
  }

  /** The SELECT run by queryBlogPosts, then its loop scanning each row. */
  method QueryBlogPosts(db: DB, q: PostQuery, args: seq<SqlValue>)
    returns (r: Result<seq<BlogPost>>, ghost rows: seq<(Id, PostRow)>)
    ensures r.Err? <==> !db.online || PostQueryError(q, args).Some?
    ensures r.Err? ==> r.error == Sql(if !db.online then Unavailable else PostQueryError(q, args).value)
    ensures r.Ok? ==> IsSelection(rows, db.posts, PostWhere(q, args), PostOrder(q.order))
    ensures r.Ok? ==> r.value == PostEntities(rows)
  {
    rows := [];
    if !db.online {
      return Err(Sql(Unavailable)), rows;
    }
    var e := PostQueryError(q, args);
    if e.Some? {
      return Err(Sql(e.value)), rows;
    }
    PostOrderTotal(q.order);
    var selected := SortedSelect(db.posts, PostWhere(q, args), PostOrder(q.order));
    rows := selected;
    var posts: seq<BlogPost> := [];
    for i := 0 to |selected|
      invariant |posts| == i
      invariant forall k :: 0 <= k < i ==> posts[k] == PostEntity(selected[k].0, selected[k].1)
    {
      posts := posts + [PostEntity(selected[i].0, selected[i].1)];
    }
    r := Ok(posts);
  }

  /**
   * A blog-post listing: exactly the entities of the rows the WHERE keeps,
   * each once, in the given order.
   */
  ghost predicate PostListing(ps: seq<BlogPost>, table: map<Id, PostRow>, keep: PostRow -> bool, o: RowOrder) {
    && (forall i :: 0 <= i < |ps| ==>
          ps[i].id in table && keep(table[ps[i].id]) && ps[i] == PostEntity(ps[i].id, table[ps[i].id]))
    && (forall id :: id in table && keep(table[id]) ==> exists i :: 0 <= i < |ps| && ps[i].id == id)
    && (forall i, j :: 0 <= i < j < |ps| ==> ps[i].id != ps[j].id && PostEntityOrder(o, ps[i], ps[j]))
  }

  lemma PostListingOfSelection(rows: seq<(Id, PostRow)>, table: map<Id, PostRow>, q: PostQuery,
                               args: seq<SqlValue>, keep: PostRow -> bool)
    requires IsSelection(rows, table, PostWhere(q, args), PostOrder(q.order))
    requires forall id, r :: PostWhere(q, args)(id, r) == keep(r)
    ensures PostListing(PostEntities(rows), table, keep, q.order)
  {
    var ps := PostEntities(rows);
    forall id | id in table && keep(table[id]) ensures exists i :: 0 <= i < |ps| && ps[i].id == id {
      assert PostWhere(q, args)(id, table[id]);
      var i :| 0 <= i < |rows| && rows[i].0 == id;
      assert ps[i].id == id;
    }
    forall i, j | 0 <= i < j < |ps| ensures ps[i].id != ps[j].id && PostEntityOrder(q.order, ps[i], ps[j]) {
      assert PostOrder(q.order)(rows[i].1, rows[j].1);
    }
  }

  predicate IsPublishedPost(r: PostRow) {
    r.status == StatusPublished.name
  }

  /** Public listing: only PUBLISHED posts, newest publication first (NULLs first). */
  method GetBlogPosts(db: DB) returns (r: Result<seq<BlogPost>>)
    ensures r.Err? <==> !db.online
    ensures r.Err? ==> r.error == Sql(Unavailable)
    ensures r.Ok? ==> PostListing(r.value, db.posts, IsPublishedPost, PublishedDesc)
  {
    var q := PostQuery([PostIsPublished], PublishedDesc);
    ghost var rows;
    r, rows := QueryBlogPosts(db, q, []);
    if r.Ok? {
      PostListingOfSelection(rows, db.posts, q, [], IsPublishedPost);
    }
  }

  /** Admin listing: every post whatever its status, newest creation first. */
  method GetAdminBlogPosts(db: DB) returns (r: Result<seq<BlogPost>>)
    ensures r.Err? <==> !db.online
    ensures r.Err? ==> r.error == Sql(Unavailable)
    ensures r.Ok? ==> PostListing(r.value, db.posts, (p: PostRow) => true, CreatedDesc)
  {
    var q := PostQuery([], CreatedDesc);
    ghost var rows;
    r, rows := QueryBlogPosts(db, q, []);
    if r.Ok? {
      PostListingOfSelection(rows, db.posts, q, [], (p: PostRow) => true);
    }
  }

  /** The published post with this slug; none is (nil, nil), and a draft is not found. */
  method GetBlogPostBySlug(db: DB, slug: Bytes) returns (r: Result<Option<BlogPost>>)
    ensures r.Err? <==> !db.online
    ensures r.Err? ==> r.error == Sql(Unavailable)
    ensures r.Ok? && r.value.Some? ==>
              var p := r.value.value;
              p.id in db.posts && db.posts[p.id].slug == slug && IsPublishedPost(db.posts[p.id])
              && p == PostEntity(p.id, db.posts[p.id])
    ensures r.Ok? && r.value.None? ==>
              forall id :: id in db.posts ==> !(db.posts[id].slug == slug && IsPublishedPost(db.posts[id]))
  {
    var q := PostQuery([PostSlugIs(1), PostIsPublished], AnyOrder);
    var args := [SqlText(slug)];
    assert PostFilterParams(q.filters) == [1];
    var posts;
    ghost var rows;
    posts, rows := QueryBlogPosts(db, q, args);
    if posts.Err? {
      return Err(posts.error);
    }
    ghost var keep := (p: PostRow) => p.slug == slug && IsPublishedPost(p);
    PostListingOfSelection(rows, db.posts, q, args, keep);
    if |posts.value| == 0 {
      return Ok(None);
    }
    r := Ok(Some(posts.value[0]));
  }

  /** The blog post with this id, as the mutations re-read it (no publication filter). */
  method QueryPostById(db: DB, id: Id) returns (r: Result<seq<BlogPost>>)
    ensures r.Err? <==> !db.online
    ensures r.Err? ==> r.error == Sql(Unavailable)
    ensures r.Ok? ==> r.value == (if id in db.posts then [PostEntity(id, db.posts[id])] else [])
  {
    var q := PostQuery([PostIdIs(1)], AnyOrder);
    var args := [SqlText(id)];
    assert PostFilterParams(q.filters) == [1];
    ghost var rows;
    r, rows := QueryBlogPosts(db, q, args);
    if r.Ok? {
      SelectionOfOneId(rows, db.posts, PostWhere(q, args), PostOrder(q.order), id);
    }
  }

  /** QueryRow(SELECT like_count ... WHERE id = $1).Scan: no row is sql.ErrNoRows. */
  method ScanLikeCount(db: DB, id: Id) returns (r: Result<NullInt64>)
    ensures r.Err? <==> !db.online || id !in db.posts
    ensures r.Err? ==> r.error == Sql(if !db.online then Unavailable else NoRows)
    ensures r.Ok? ==> r.value == ScanNullInt(db.posts[id].likeCount)
  {
    if !db.online {
      return Err(Sql(Unavailable));
    }
    if id !in db.posts {
      return Err(Sql(NoRows));
    }
    r := Ok(ScanNullInt(db.posts[id].likeCount));
  }

  /** A missing post and a NULL count both read as 0; only a store failure is an error. */
  method GetBlogPostLikeCount(db: DB, id: Id) returns (r: Result<int>)
    ensures r == if !db.online then Err(Sql(Unavailable))
                 else Ok(if id in db.posts then db.posts[id].likeCount.GetOr(0) else 0)
  {
    var scanned := ScanLikeCount(db, id);
    if scanned.Err? {
      if scanned.error == Sql(NoRows) {
        return Ok(0);
      }
      return Err(scanned.error);
    }
    if scanned.value.valid {
      return Ok(scanned.value.int64);
    }
    return Ok(0);
  }

  // ---------------------------------------------------------------------------
  // URL previews and monologues
  // ---------------------------------------------------------------------------

  /** The first preview row of the monologue, or (nil, nil) when there is none. */
  method GetURLPreviewByMonologueID(db: DB, id: Id) returns (r: Result<Option<URLPreview>>)
    ensures r == PreviewLookup(db.State(), id)
  {
    if !db.online {
      return Err(Sql(Unavailable));
    }
    var i := 0;
    while i < |db.previews| && db.previews[i].monologueId != Some(id)
      invariant 0 <= i <= |db.previews|
      invariant FirstPreviewOf(db.previews, id) == FirstPreviewOf(db.previews[i..], id)
    {
      assert db.previews[i..][1..] == db.previews[i + 1..];
      i := i + 1;
    }
    if i == |db.previews| {
      return Ok(None);
    }
    r := Ok(Some(PreviewEntity(db.previews[i])));
  }

  /** The LIMIT and OFFSET values a monologue SELECT binds. */
  function QueryPaging(q: MonologueQuery, args: seq<SqlValue>): (Option<int>, Option<int>)
    requires MonologueQueryError(q, args).None?
  {
    (IntArg(q.limit, args), IntArg(q.offset, args))
  }

  /** queryMonologues' scan loop: each row becomes an entity, with its preview looked up when it has a url. */
  method ScanMonologues(db: DB, rows: seq<(Id, MonologueRow)>) returns (ms: seq<Monologue>)
    ensures ms == MonologueEntities(db.State(), rows)
  {
    ms := [];
    for i := 0 to |rows|
      invariant |ms| == i
      invariant forall k :: 0 <= k < i ==> ms[k] == MonologueEntity(db.State(), rows[k].0, rows[k].1)
    {
      var mono := MonologueEntity(db.State(), rows[i].0, rows[i].1).(urlPreview := None);
      if mono.url.Some? {
        var preview := GetURLPreviewByMonologueID(db, mono.id);
        mono := mono.(urlPreview := if preview.Ok? then preview.value else None);
      }
      ms := ms + [mono];
    }
  }

  /** The SELECT run by queryMonologues, its LIMIT and OFFSET, then the scan of the page. */
  method QueryMonologues(db: DB, q: MonologueQuery, args: seq<SqlValue>)
    returns (r: Result<seq<Monologue>>, ghost all: seq<(Id, MonologueRow)>, ghost page: seq<(Id, MonologueRow)>)
    ensures !db.online ==> r == Err(Sql(Unavailable))
    ensures db.online && MonologueQueryError(q, args).Some? ==> r == Err(Sql(MonologueQueryError(q, args).value))
    ensures db.online && MonologueQueryError(q, args).None? ==>
              && IsSelection(all, db.monologues, MonologueWhere(q, args), MonologueOrder(q.order))
              && match Page(all, QueryPaging(q, args).0, QueryPaging(q, args).1)
                 case Err(e) => r == Err(e)
                 case Ok(rows) => rows == page && r == Ok(MonologueEntities(db.State(), page))
  {
    all, page := [], [];
    if !db.online {
      return Err(Sql(Unavailable)), all, page;
    }
    var e := MonologueQueryError(q, args);
    if e.Some? {
      return Err(Sql(e.value)), all, page;
    }
    MonologueOrderTotal(q.order);
    var selected := SortedSelect(db.monologues, MonologueWhere(q, args), MonologueOrder(q.order));
    all := selected;
    var paging := QueryPaging(q, args);
    var paged := Page(selected, paging.0, paging.1);
    if paged.Err? {
      return Err(paged.error), all, page;
    }
    page := paged.value;
    var ms := ScanMonologues(db, paged.value);
    r := Ok(ms);
  }

  /** What GetMonologues' arguments ask for: published rows that pass every given filter. */
  predicate MonologueMatches(r: MonologueRow, categoryID: Option<Id>, tags: seq<Bytes>, difficulty: Option<Difficulty>) {
    && r.isPublished
    && (categoryID.Some? ==> r.codeCategoryId == categoryID)
    && (difficulty.Some? ==> r.difficulty == Some(difficulty.value.name))
    && (|tags| > 0 ==> Overlaps(r.tags, tags))
  }

  predicate FiltersHold(fs: seq<MonologueFilter>, args: seq<SqlValue>, id: Id, r: MonologueRow) {
    forall i :: 0 <= i < |fs| ==> MonologueFilterHolds(fs[i], args, id, r)
  }

  predicate FiltersTyped(fs: seq<MonologueFilter>, args: seq<SqlValue>) {
    forall i :: 0 <= i < |fs| ==> MonologueFilterTyped(fs[i], args)
  }

  /** Every placeholder of the filters names one of n bound arguments. */
  predicate ParamsBounded(fs: seq<MonologueFilter>, n: nat) {
    forall i :: 0 <= i < |fs| ==> !fs[i].MonoPublishedOnly? ==> 1 <= fs[i].param <= n
  }

  /** A WHERE clause under construction: $1..$n numbered in order, one well-typed argument each. */
  predicate Built(fs: seq<MonologueFilter>, args: seq<SqlValue>) {
    && Consecutive(MonologueFilterParams(fs)) && |args| == |MonologueFilterParams(fs)|
    && ParamsBounded(fs, |args|) && FiltersTyped(fs, args)
  }

  lemma {:induction false} MonologueFilterParamsAppend(fs: seq<MonologueFilter>, f: MonologueFilter)
    ensures MonologueFilterParams(fs + [f]) ==
            MonologueFilterParams(fs) + (if f.MonoPublishedOnly? then [] else [f.param])
    decreases |fs|
  {
    if fs == [] {
      assert [f][1..] == [];
    } else {
      assert (fs + [f])[1..] == fs[1..] + [f];
      MonologueFilterParamsAppend(fs[1..], f);
    }
  }

  /** A filter's verdict depends only on its own argument, so binding more arguments keeps it. */
  lemma MonologueFilterMoreArgs(f: MonologueFilter, args: seq<SqlValue>, more: seq<SqlValue>, id: Id, r: MonologueRow)
    requires !f.MonoPublishedOnly? ==> 1 <= f.param <= |args|
    ensures MonologueFilterHolds(f, args + more, id, r) == MonologueFilterHolds(f, args, id, r)
    ensures MonologueFilterTyped(f, args + more) == MonologueFilterTyped(f, args)
  {
    if !f.MonoPublishedOnly? {
      assert (args + more)[f.param - 1] == args[f.param - 1];
    }
  }

  lemma FiltersMoreArgs(fs: seq<MonologueFilter>, args: seq<SqlValue>, more: seq<SqlValue>)
    requires ParamsBounded(fs, |args|)
    ensures forall id, r :: FiltersHold(fs, args + more, id, r) == FiltersHold(fs, args, id, r)
    ensures FiltersTyped(fs, args + more) == FiltersTyped(fs, args)
    ensures ParamsBounded(fs, |args + more|)
  {
    forall i, id, r | 0 <= i < |fs| {
      MonologueFilterMoreArgs(fs[i], args, more, id, r);
    }
  }

  /** Appending a condition on the next placeholder, together with its argument. */
  lemma AppendFilter(fs: seq<MonologueFilter>, args: seq<SqlValue>, f: MonologueFilter, v: SqlValue)
    requires Built(fs, args)
    requires !f.MonoPublishedOnly? && f.param == |args| + 1 && MonologueFilterTyped(f, args + [v])
    ensures Built(fs + [f], args + [v])
    ensures forall id, r :: FiltersHold(fs + [f], args + [v], id, r) ==
                            (FiltersHold(fs, args, id, r) && MonologueFilterHolds(f, args + [v], id, r))
  {
    MonologueFilterParamsAppend(fs, f);
    FiltersMoreArgs(fs, args, [v]);
    var fs' := fs + [f];
    assert forall i :: 0 <= i < |fs| ==> fs'[i] == fs[i];
    assert fs'[|fs|] == f;
    forall id, r
      ensures FiltersHold(fs', args + [v], id, r) ==
              (FiltersHold(fs, args + [v], id, r) && MonologueFilterHolds(f, args + [v], id, r))
    {
    }
  }

  /** Appending the next placeholder number keeps the numbering consecutive. */
  lemma ConsecutiveExtend(ps: seq<nat>, more: seq<nat>)
    requires Consecutive(ps)
    requires more == [] || more == [|ps| + 1]
    ensures Consecutive(ps + more)
  {
  }

  /** One optional condition of the builder: appended, with its argument, only when present. */
  function WithFilter(acc: (seq<MonologueFilter>, seq<SqlValue>), present: bool, f: MonologueFilter, v: SqlValue)
    : (seq<MonologueFilter>, seq<SqlValue>)
  {
    if present then (acc.0 + [f], acc.1 + [v]) else acc
  }

  lemma WithFilterBuilt(acc: (seq<MonologueFilter>, seq<SqlValue>), present: bool, f: MonologueFilter, v: SqlValue)
    requires Built(acc.0, acc.1)
    requires !f.MonoPublishedOnly? && f.param == |acc.1| + 1 && MonologueFilterTyped(f, acc.1 + [v])
    ensures var acc' := WithFilter(acc, present, f, v);
            && Built(acc'.0, acc'.1)
            && forall id, r :: FiltersHold(acc'.0, acc'.1, id, r) ==
                               (FiltersHold(acc.0, acc.1, id, r) && (present ==> MonologueFilterHolds(f, acc.1 + [v], id, r)))
  {
    if present {
      AppendFilter(acc.0, acc.1, f, v);
    }
  }

  /** A LIMIT or OFFSET placeholder, present only when asked for. */
  function OptionalInt(n: Option<int>, param: nat): (Option<nat>, seq<SqlValue>) {
    if n.Some? then (Some(param), [SqlInt(n.value)]) else (None, [])
  }

  /** The WHERE part of GetMonologues' SELECT: is_published, then each condition that was given. */
  function MonologueFiltersFor(categoryID: Option<Id>, tags: seq<Bytes>, difficulty: Option<Difficulty>)
    : (seq<MonologueFilter>, seq<SqlValue>)
  {
    var d := DifficultyStage(categoryID, difficulty);
    WithFilter(d, |tags| > 0, MonoTagsOverlap(|d.1| + 1), SqlTextArray(tags))
  }

  /** GetMonologues' SELECT: the WHERE part, ORDER BY published_at DESC, then LIMIT and OFFSET when given. */
  function MonologuesQueryFor(limit: Option<int>, offset: Option<int>, categoryID: Option<Id>,
                              tags: seq<Bytes>, difficulty: Option<Difficulty>): (MonologueQuery, seq<SqlValue>)
  {
    var w := MonologueFiltersFor(categoryID, tags, difficulty);
    var l := OptionalInt(limit, |w.1| + 1);
    var o := OptionalInt(offset, |w.1| + |l.1| + 1);
    (MonologueQuery(w.0, PublishedDesc, l.0, o.0), w.1 + l.1 + o.1)
  }

  /** The condition on the newest placeholder tests the row against the argument bound to it. */
  lemma NextFilterHolds(args: seq<SqlValue>, f: MonologueFilter, v: SqlValue, id: Id, r: MonologueRow)
    requires !f.MonoPublishedOnly? && f.param == |args| + 1
    ensures f.MonoCategoryIs? && v.SqlText? ==>
              MonologueFilterHolds(f, args + [v], id, r) == (r.codeCategoryId == Some(v.text))
    ensures f.MonoDifficultyIs? && v.SqlText? ==>
              MonologueFilterHolds(f, args + [v], id, r) == (r.difficulty == Some(v.text))
    ensures f.MonoTagsOverlap? && v.SqlTextArray? ==>
              MonologueFilterHolds(f, args + [v], id, r) == Overlaps(r.tags, v.items)
  {
    assert (args + [v])[f.param - 1] == v;
  }

  function BaseFilters(): (seq<MonologueFilter>, seq<SqlValue>) {
    ([MonologueFilter.MonoPublishedOnly], [])
  }

  function CategoryStage(categoryID: Option<Id>): (seq<MonologueFilter>, seq<SqlValue>) {
    WithFilter(BaseFilters(), categoryID.Some?, MonoCategoryIs(1), SqlText(categoryID.GetOr([])))
  }

  function DifficultyStage(categoryID: Option<Id>, difficulty: Option<Difficulty>): (seq<MonologueFilter>, seq<SqlValue>) {
    var c := CategoryStage(categoryID);
    WithFilter(c, difficulty.Some?, MonoDifficultyIs(|c.1| + 1), SqlText(difficulty.GetOr(Difficulty([])).name))
  }

  lemma MonologueFiltersForUnfold(categoryID: Option<Id>, tags: seq<Bytes>, difficulty: Option<Difficulty>)
    ensures var d := DifficultyStage(categoryID, difficulty);
            MonologueFiltersFor(categoryID, tags, difficulty) ==
            WithFilter(d, |tags| > 0, MonoTagsOverlap(|d.1| + 1), SqlTextArray(tags))
  {
  }

  /** The WHERE part is well formed. */
  lemma MonologueFiltersForBuilt(categoryID: Option<Id>, tags: seq<Bytes>, difficulty: Option<Difficulty>)
    ensures Built(MonologueFiltersFor(categoryID, tags, difficulty).0, MonologueFiltersFor(categoryID, tags, difficulty).1)
  {
    assert MonologueFilterParams(BaseFilters().0) == [] by { assert BaseFilters().0[1..] == []; }
    WithFilterBuilt(BaseFilters(), categoryID.Some?, MonoCategoryIs(1), SqlText(categoryID.GetOr([])));
    var c := CategoryStage(categoryID);
    WithFilterBuilt(c, difficulty.Some?, MonoDifficultyIs(|c.1| + 1), SqlText(difficulty.GetOr(Difficulty([])).name));
    var d := DifficultyStage(categoryID, difficulty);
    WithFilterBuilt(d, |tags| > 0, MonoTagsOverlap(|d.1| + 1), SqlTextArray(tags));
    MonologueFiltersForUnfold(categoryID, tags, difficulty);
  }

  /** The WHERE part keeps exactly the rows the arguments ask for. */
  lemma MonologueFiltersForMeaning(categoryID: Option<Id>, tags: seq<Bytes>, difficulty: Option<Difficulty>,
                                   id: Id, r: MonologueRow)
    ensures var w := MonologueFiltersFor(categoryID, tags, difficulty);
            FiltersHold(w.0, w.1, id, r) == MonologueMatches(r, categoryID, tags, difficulty)
  {
    assert MonologueFilterParams(BaseFilters().0) == [] by { assert BaseFilters().0[1..] == []; }
    assert FiltersHold(BaseFilters().0, BaseFilters().1, id, r) == r.isPublished;
    WithFilterBuilt(BaseFilters(), categoryID.Some?, MonoCategoryIs(1), SqlText(categoryID.GetOr([])));
    NextFilterHolds(BaseFilters().1, MonoCategoryIs(1), SqlText(categoryID.GetOr([])), id, r);
    var c := CategoryStage(categoryID);
    var dv := SqlText(difficulty.GetOr(Difficulty([])).name);
    WithFilterBuilt(c, difficulty.Some?, MonoDifficultyIs(|c.1| + 1), dv);
    NextFilterHolds(c.1, MonoDifficultyIs(|c.1| + 1), dv, id, r);
    var d := DifficultyStage(categoryID, difficulty);
    WithFilterBuilt(d, |tags| > 0, MonoTagsOverlap(|d.1| + 1), SqlTextArray(tags));
    NextFilterHolds(d.1, MonoTagsOverlap(|d.1| + 1), SqlTextArray(tags), id, r);
    MonologueFiltersForUnfold(categoryID, tags, difficulty);
  }

  /** The whole SELECT: consecutive placeholders, well-typed arguments, the WHERE part's rows, the given paging. */
  lemma MonologuesQueryForSpec(limit: Option<int>, offset: Option<int>, categoryID: Option<Id>,
                               tags: seq<Bytes>, difficulty: Option<Difficulty>)
    ensures var (q, args) := MonologuesQueryFor(limit, offset, categoryID, tags, difficulty);
            && Consecutive(MonologueQueryParams(q)) && |args| == |MonologueQueryParams(q)|
            && MonologueQueryError(q, args).None?
            && (forall id, r :: MonologueWhere(q, args)(id, r) == MonologueMatches(r, categoryID, tags, difficulty))
            && q.order == PublishedDesc
            && QueryPaging(q, args) == (limit, offset)
  {
    var w := MonologueFiltersFor(categoryID, tags, difficulty);
    var (q, args) := MonologuesQueryFor(limit, offset, categoryID, tags, difficulty);
    MonologueFiltersForBuilt(categoryID, tags, difficulty);
    var l := OptionalInt(limit, |w.1| + 1);
    var o := OptionalInt(offset, |w.1| + |l.1| + 1);
    assert args == w.1 + (l.1 + o.1);
    FiltersMoreArgs(w.0, w.1, l.1 + o.1);
    ConsecutiveExtend(MonologueFilterParams(w.0), OptionParam(q.limit));
    ConsecutiveExtend(MonologueFilterParams(w.0) + OptionParam(q.limit), OptionParam(q.offset));
    assert MonologueQueryParams(q) == MonologueFilterParams(w.0) + OptionParam(q.limit) + OptionParam(q.offset);
    ConsecutiveParamsMatch(MonologueQueryParams(q));
    assert limit.Some? ==> args[|w.1|] == SqlInt(limit.value);
    assert offset.Some? ==> args[|w.1| + |l.1|] == SqlInt(offset.value);
    forall id, r ensures MonologueWhere(q, args)(id, r) == MonologueMatches(r, categoryID, tags, difficulty) {
      MonologueFiltersForMeaning(categoryID, tags, difficulty, id, r);
      assert MonologueWhere(q, args)(id, r) == FiltersHold(w.0, args, id, r);
    }
  }

  /** The SELECT GetMonologues assembles, appending each given condition and numbering its placeholder. */
  method BuildMonologuesQuery(limit: Option<int>, offset: Option<int>, categoryID: Option<Id>,
                              tags: seq<Bytes>, difficulty: Option<Difficulty>)
    returns (q: MonologueQuery, args: seq<SqlValue>)
    ensures (q, args) == MonologuesQueryFor(limit, offset, categoryID, tags, difficulty)
  {
    var filters := [MonologueFilter.MonoPublishedOnly];
    args := [];
    var argIndex := 1;
    if categoryID.Some? {
      filters := filters + [MonoCategoryIs(argIndex)];
      args := args + [SqlText(categoryID.value)];
      argIndex := argIndex + 1;
    }
    if difficulty.Some? {
      filters := filters + [MonoDifficultyIs(argIndex)];
      args := args + [SqlText(difficulty.value.name)];
      argIndex := argIndex + 1;
    }
    if |tags| > 0 {
      filters := filters + [MonoTagsOverlap(argIndex)];
      args := args + [SqlTextArray(tags)];
      argIndex := argIndex + 1;
    }
    ghost var w := MonologueFiltersFor(categoryID, tags, difficulty);
    assert (filters, args) == w && argIndex == |w.1| + 1;
    ghost var l := OptionalInt(limit, |w.1| + 1);
    ghost var o := OptionalInt(offset, |w.1| + |l.1| + 1);
    var limitParam: Option<nat> := None;
    if limit.Some? {
      limitParam := Some(argIndex);
      args := args + [SqlInt(limit.value)];
      argIndex := argIndex + 1;
    } else {
      assert args == w.1 + l.1;
    }
    var offsetParam: Option<nat> := None;
    if offset.Some? {
      offsetParam := Some(argIndex);
      args := args + [SqlInt(offset.value)];
    } else {
      assert args == w.1 + l.1 + o.1;
    }
    q := MonologueQuery(filters, PublishedDesc, limitParam, offsetParam);
  }

  /** Published monologues passing the given filters, newest publication first, then OFFSET and LIMIT. */
  method GetMonologues(db: DB, limit: Option<int>, offset: Option<int>, categoryID: Option<Id>,
                       tags: seq<Bytes>, difficulty: Option<Difficulty>)
    returns (r: Result<seq<Monologue>>, ghost all: seq<(Id, MonologueRow)>)
    ensures !db.online ==> r == Err(Sql(Unavailable))
    ensures db.online ==>
              && IsSelection(all, db.monologues, (id: Id, m: MonologueRow) => MonologueMatches(m, categoryID, tags, difficulty),
                             MonologueOrder(PublishedDesc))
              && match Page(all, limit, offset)
                 case Err(e) => r == Err(e)
                 case Ok(page) => r == Ok(MonologueEntities(db.State(), page))
  {
    var q, args := BuildMonologuesQuery(limit, offset, categoryID, tags, difficulty);
    MonologuesQueryForSpec(limit, offset, categoryID, tags, difficulty);
    ghost var page;
    r, all, page := QueryMonologues(db, q, args);
    if db.online {
      SelectionSameWhere(all, db.monologues, MonologueWhere(q, args),
                         (id: Id, m: MonologueRow) => MonologueMatches(m, categoryID, tags, difficulty),
                         MonologueOrder(q.order));
    }
  }

  /** A SELECT without LIMIT or OFFSET returns every selected row. */
  lemma PageAll<T>(rows: seq<T>)
    ensures Page(rows, None, None) == Ok(rows)
  {
  }

  /** Every monologue, published or not, newest creation first. */
  method GetAdminMonologues(db: DB) returns (r: Result<seq<Monologue>>, ghost all: seq<(Id, MonologueRow)>)
    ensures !db.online ==> r == Err(Sql(Unavailable))
    ensures db.online ==>
              && IsSelection(all, db.monologues, (id: Id, m: MonologueRow) => true, MonologueOrder(CreatedDesc))
              && r == Ok(MonologueEntities(db.State(), all))
  {
    var q := MonologueQuery([], CreatedDesc, None, None);
    assert MonologueQueryParams(q) == [];
    ghost var page;
    r, all, page := QueryMonologues(db, q, []);
    PageAll(all);
    if db.online {
      SelectionSameWhere(all, db.monologues, MonologueWhere(q, []), (id: Id, m: MonologueRow) => true,
                         MonologueOrder(q.order));
    }
  }

  /** The monologue with this id whatever its publication state; a missing one is (nil, nil). */
  method GetMonologueByID(db: DB, id: Id) returns (r: Result<Option<Monologue>>)
    ensures !db.online ==> r == Err(Sql(Unavailable))
    ensures db.online ==>
              r == Ok(if id in db.monologues then Some(MonologueEntity(db.State(), id, db.monologues[id])) else None)
  {
    var q := MonologueQuery([MonoIdIs(1)], AnyOrder, None, None);
    var args := [SqlText(id)];
    assert MonologueFilterParams(q.filters) == [1] by {
      assert q.filters[1..] == [];
    }
    assert MonologueQueryParams(q) == [1];
    var ms;
    ghost var all, page;
    ms, all, page := QueryMonologues(db, q, args);
    if ms.Err? {
      return Err(ms.error);
    }
    PageAll(all);
    SelectionOfOneId(all, db.monologues, MonologueWhere(q, args), MonologueOrder(q.order), id);
    if |ms.value| == 0 {
      return Ok(None);
    }
    r := Ok(Some(ms.value[0]));
  }

  // ---------------------------------------------------------------------------
  // Profile, skills, experiences and code categories
  // ---------------------------------------------------------------------------

  /** The scan loop shared by the listings: one entity per selected row, in order. */
  method ScanAll<R, E>(rows: seq<(Id, R)>, entity: (Id, R) -> E) returns (es: seq<E>)
    ensures |es| == |rows|
    ensures forall i :: 0 <= i < |rows| ==> es[i] == entity(rows[i].0, rows[i].1)
  {
    es := [];
    for i := 0 to |rows|
      invariant |es| == i
      invariant forall k :: 0 <= k < i ==> es[k] == entity(rows[k].0, rows[k].1)
    {
      es := es + [entity(rows[i].0, rows[i].1)];
    }
  }

  function SkillEntity(id: Id, r: SkillRow): Skill {
    Skill(id, r.name, r.category, r.level, NullStringToPtr(ScanNullString(r.iconUrl)), r.displayOrder,
          r.createdAt, r.updatedAt)
  }

  /** ORDER BY display_order, name. */
  predicate SkillLe(a: SkillRow, b: SkillRow) {
    a.displayOrder < b.displayOrder || (a.displayOrder == b.displayOrder && BytesLe(a.name, b.name))
  }

  lemma SkillOrderTotal()
    ensures TotalPreorder((a: SkillRow, b: SkillRow) => SkillLe(a, b))
  {
    forall a: SkillRow, b: SkillRow ensures SkillLe(a, b) || SkillLe(b, a) {
      BytesLeTotal(a.name, b.name);
    }
    forall a: SkillRow, b: SkillRow, c: SkillRow | SkillLe(a, b) && SkillLe(b, c) ensures SkillLe(a, c) {
      if a.displayOrder == b.displayOrder == c.displayOrder {
        BytesLeTransitive(a.name, b.name, c.name);
      }
    }
  }

  /** Every skill, by display order and then by name. */
  method GetSkills(db: DB) returns (r: Result<seq<Skill>>, ghost rows: seq<(Id, SkillRow)>)
    ensures r.Err? <==> !db.online
    ensures r.Err? ==> r.error == Sql(Unavailable)
    ensures r.Ok? ==> IsSelection(rows, db.skills, (id: Id, s: SkillRow) => true, (a: SkillRow, b: SkillRow) => SkillLe(a, b))
    ensures r.Ok? ==> |r.value| == |rows| && forall i :: 0 <= i < |rows| ==> r.value[i] == SkillEntity(rows[i].0, rows[i].1)
  {
    rows := [];
    if !db.online {
      return Err(Sql(Unavailable)), rows;
    }
    SkillOrderTotal();
    var selected := SortedSelect(db.skills, (id: Id, s: SkillRow) => true, (a: SkillRow, b: SkillRow) => SkillLe(a, b));
    rows := selected;
    var skills := ScanAll(selected, SkillEntity);
    r := Ok(skills);
  }

  function ExperienceEntity(id: Id, r: ExperienceRow): Experience {
    Experience(id, r.company, r.position, NullStringToPtr(ScanNullString(r.description)), r.startDate,
               NullStringToPtr(ScanNullString(r.endDate)), r.isCurrent, r.technologies, r.createdAt, r.updatedAt)
  }

  /** ORDER BY is_current DESC, start_date DESC (true sorts after false, so current positions come first). */
  predicate ExperienceLe(a: ExperienceRow, b: ExperienceRow) {
    (a.isCurrent && !b.isCurrent) || (a.isCurrent == b.isCurrent && BytesLe(b.startDate, a.startDate))
  }

  lemma ExperienceOrderTotal()
    ensures TotalPreorder((a: ExperienceRow, b: ExperienceRow) => ExperienceLe(a, b))
  {
    forall a: ExperienceRow, b: ExperienceRow ensures ExperienceLe(a, b) || ExperienceLe(b, a) {
      BytesLeTotal(a.startDate, b.startDate);
    }
    forall a: ExperienceRow, b: ExperienceRow, c: ExperienceRow | ExperienceLe(a, b) && ExperienceLe(b, c)
      ensures ExperienceLe(a, c)
    {
      if a.isCurrent == b.isCurrent == c.isCurrent {
        BytesLeTransitive(c.startDate, b.startDate, a.startDate);
      }
    }
  }

  /** Every experience: current positions first, each group by start date, latest first. */
  method GetExperiences(db: DB) returns (r: Result<seq<Experience>>, ghost rows: seq<(Id, ExperienceRow)>)
    ensures r.Err? <==> !db.online
    ensures r.Err? ==> r.error == Sql(Unavailable)
    ensures r.Ok? ==> IsSelection(rows, db.experiences, (id: Id, e: ExperienceRow) => true,
                                  (a: ExperienceRow, b: ExperienceRow) => ExperienceLe(a, b))
    ensures r.Ok? ==> |r.value| == |rows| && forall i :: 0 <= i < |rows| ==> r.value[i] == ExperienceEntity(rows[i].0, rows[i].1)
  {
    rows := [];
    if !db.online {
      return Err(Sql(Unavailable)), rows;
    }
    ExperienceOrderTotal();
    var selected := SortedSelect(db.experiences, (id: Id, e: ExperienceRow) => true,
                                 (a: ExperienceRow, b: ExperienceRow) => ExperienceLe(a, b));
    rows := selected;
    var experiences := ScanAll(selected, ExperienceEntity);
    r := Ok(experiences);
  }

  /** An experience listing never puts a past position before a current one. */
  lemma CurrentExperiencesFirst(rows: seq<(Id, ExperienceRow)>, table: map<Id, ExperienceRow>, i: int, j: int)
    requires IsSelection(rows, table, (id: Id, e: ExperienceRow) => true,
                         (a: ExperienceRow, b: ExperienceRow) => ExperienceLe(a, b))
    requires 0 <= i < j < |rows| && rows[j].1.isCurrent
    ensures rows[i].1.isCurrent
  {
    assert ExperienceLe(rows[i].1, rows[j].1);
  }

  /** A code category as GetCodeCategories scans it (its own time stamps, unlike the join). */
  function CategoryEntity(id: Id, c: CategoryRow): CodeCategory {
    CodeCategory(id, c.name, c.slug, NullStringToPtr(ScanNullString(c.description)),
                 NullStringToPtr(ScanNullString(c.parentId)), NullStringToPtr(ScanNullString(c.color)),
                 NullStringToPtr(ScanNullString(c.icon)), c.createdAt, c.updatedAt)
  }

  lemma CategoryOrderTotal()
    ensures TotalPreorder((a: CategoryRow, b: CategoryRow) => BytesLe(a.name, b.name))
  {
    forall a: CategoryRow, b: CategoryRow ensures BytesLe(a.name, b.name) || BytesLe(b.name, a.name) {
      BytesLeTotal(a.name, b.name);
    }
    forall a: CategoryRow, b: CategoryRow, c: CategoryRow | BytesLe(a.name, b.name) && BytesLe(b.name, c.name)
      ensures BytesLe(a.name, c.name)
    {
      BytesLeTransitive(a.name, b.name, c.name);
    }
  }

  /** Every code category, by name. */
  method GetCodeCategories(db: DB) returns (r: Result<seq<CodeCategory>>, ghost rows: seq<(Id, CategoryRow)>)
    ensures r.Err? <==> !db.online
    ensures r.Err? ==> r.error == Sql(Unavailable)
    ensures r.Ok? ==> IsSelection(rows, db.categories, (id: Id, c: CategoryRow) => true,
                                  (a: CategoryRow, b: CategoryRow) => BytesLe(a.name, b.name))
    ensures r.Ok? ==> |r.value| == |rows| && forall i :: 0 <= i < |rows| ==> r.value[i] == CategoryEntity(rows[i].0, rows[i].1)
  {
    rows := [];
    if !db.online {
      return Err(Sql(Unavailable)), rows;
    }
    CategoryOrderTotal();
    var selected := SortedSelect(db.categories, (id: Id, c: CategoryRow) => true,
                                 (a: CategoryRow, b: CategoryRow) => BytesLe(a.name, b.name));
    rows := selected;
    var categories := ScanAll(selected, CategoryEntity);
    r := Ok(categories);
  }

  function LinkEntity(l: SocialLinkRow): SocialLink {
    SocialLink(l.platform, l.url, NullStringToPtr(ScanNullString(l.icon)))
  }

  /** The links of a profile, in storage order (the SELECT has no ORDER BY). */
  function LinksOf(ls: seq<SocialLinkRow>, profileId: Id): seq<SocialLink> {
    if ls == [] then []
    else LinksOf(ls[..|ls| - 1], profileId)
         + (if ls[|ls| - 1].profileId == Some(profileId) then [LinkEntity(ls[|ls| - 1])] else [])
  }

  /** Each link shown belongs to the profile, and each of the profile's links is shown. */
  lemma {:induction false} LinksOfSpec(ls: seq<SocialLinkRow>, profileId: Id)
    ensures forall l :: l in LinksOf(ls, profileId) ==>
              exists i :: 0 <= i < |ls| && ls[i].profileId == Some(profileId) && l == LinkEntity(ls[i])
    ensures forall i :: 0 <= i < |ls| && ls[i].profileId == Some(profileId) ==> LinkEntity(ls[i]) in LinksOf(ls, profileId)
    ensures |LinksOf(ls, profileId)| <= |ls|
  {
    if ls != [] {
      var init := ls[..|ls| - 1];
      LinksOfSpec(init, profileId);
      forall l | l in LinksOf(ls, profileId)
        ensures exists i :: 0 <= i < |ls| && ls[i].profileId == Some(profileId) && l == LinkEntity(ls[i])
      {
        if l in LinksOf(init, profileId) {
          var i :| 0 <= i < |init| && init[i].profileId == Some(profileId) && l == LinkEntity(init[i]);
          assert ls[i] == init[i];
        } else {
          assert ls[|ls| - 1].profileId == Some(profileId) && l == LinkEntity(ls[|ls| - 1]);
        }
      }
      forall i | 0 <= i < |ls| && ls[i].profileId == Some(profileId) ensures LinkEntity(ls[i]) in LinksOf(ls, profileId) {
        if i < |ls| - 1 {
          assert init[i] == ls[i];
        }
      }
    }
  }

  /** SELECT ... FROM social_links WHERE profile_id = $1, scanned row by row. */
  method GetSocialLinks(db: DB, profileId: Id) returns (r: Result<seq<SocialLink>>)
    ensures r == if db.online then Ok(LinksOf(db.socialLinks, profileId)) else Err(Sql(Unavailable))
  {
    if !db.online {
      return Err(Sql(Unavailable));
    }
    var links: seq<SocialLink> := [];
    for i := 0 to |db.socialLinks|
      invariant links == LinksOf(db.socialLinks[..i], profileId)
    {
      assert db.socialLinks[..i + 1][..i] == db.socialLinks[..i];
      if db.socialLinks[i].profileId == Some(profileId) {
        links := links + [LinkEntity(db.socialLinks[i])];
      }
    }
    assert db.socialLinks[..|db.socialLinks|] == db.socialLinks;
    r := Ok(links);
  }

  function ProfileEntity(id: Id, p: ProfileRow, links: seq<SocialLink>): Profile {
    Profile(id, p.name, NullStringToPtr(ScanNullString(p.title)), NullStringToPtr(ScanNullString(p.bio)),
            NullStringToPtr(ScanNullString(p.avatarUrl)), links, p.createdAt, p.updatedAt)
  }

  /** The profile with this id and its links; a missing profile is sql.ErrNoRows, returned as an error. */
  method GetProfile(db: DB, id: Id) returns (r: Result<Profile>)
    ensures !db.online ==> r == Err(Sql(Unavailable))
    ensures db.online && id !in db.profiles ==> r == Err(Sql(NoRows))
    ensures db.online && id in db.profiles ==> r == Ok(ProfileEntity(id, db.profiles[id], LinksOf(db.socialLinks, id)))
  {
    if !db.online {
      return Err(Sql(Unavailable));
    }
    if id !in db.profiles {
      return Err(Sql(NoRows));
    }
    var links := GetSocialLinks(db, id);
    r := match links
      case Err(e) => Err(e)
      case Ok(ls) => Ok(ProfileEntity(id, db.profiles[id], ls));
  }

  /** The earliest created profile (ties broken arbitrarily); none at all is sql.ErrNoRows. */
  method GetDefaultProfile(db: DB) returns (r: Result<Profile>)
    ensures !db.online ==> r == Err(Sql(Unavailable))
    ensures db.online && db.profiles == map[] ==> r == Err(Sql(NoRows))
    ensures r.Ok? ==> r.value.id in db.profiles
                      && r.value == ProfileEntity(r.value.id, db.profiles[r.value.id], LinksOf(db.socialLinks, r.value.id))
                      && forall other :: other in db.profiles ==> db.profiles[r.value.id].createdAt <= db.profiles[other].createdAt
    ensures db.online && db.profiles != map[] ==> r.Ok?
  {
    if !db.online {
      return Err(Sql(Unavailable));
    }
    ghost var le := (a: ProfileRow, b: ProfileRow) => a.createdAt <= b.createdAt;
    var rows := SortedSelect(db.profiles, (id: Id, p: ProfileRow) => true, (a: ProfileRow, b: ProfileRow) => a.createdAt <= b.createdAt);
    if |rows| == 0 {
      assert forall id :: id !in db.profiles;
      return Err(Sql(NoRows));
    }
    var id := rows[0].0;
    forall other | other in db.profiles ensures db.profiles[id].createdAt <= db.profiles[other].createdAt {
      var i :| 0 <= i < |rows| && rows[i].0 == other;
      if i > 0 {
        assert le(rows[0].1, rows[i].1);
      }
    }
    r := GetProfile(db, id);
  }
}
