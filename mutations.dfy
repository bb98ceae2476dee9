/**
 * The write side of the content layer (internal/database/mutations.go):
 * creating, updating, publishing, unpublishing, liking and deleting blog posts
 * and monologues, and the generated URL previews a monologue's url gets.
 *
 * Each mutation is a pure effect function from the store before to the store
 * after and the result the Go method returns; the method of the same name
 * performs it statement by statement through a `DB` and is proved to have that
 * effect. Instants ("now") are parameters: one operation reads the clock once.
 */
module Mutations {
  import opened Base
  import opened Models
  import opened Sql
  import opened Store
  import opened Services

  // ---------------------------------------------------------------------------
  // joinStrings
  // ---------------------------------------------------------------------------

  /** The strings with sep between consecutive ones; "" for none. */
  function Join(strs: seq<Bytes>, sep: Bytes): Bytes
    decreases |strs|
  {
    if strs == [] then []
    else if |strs| == 1 then strs[0]
    else Join(strs[..|strs| - 1], sep) + sep + strs[|strs| - 1]
  }

  method JoinStrings(strs: seq<Bytes>, sep: Bytes) returns (result: Bytes)
    ensures result == Join(strs, sep)
  {
    if |strs| == 0 {
      return [];
    }
    if |strs| == 1 {
      return strs[0];
    }
    result := strs[0];
    for i := 1 to |strs|
      invariant result == Join(strs[..i], sep)
    {
      assert strs[..i + 1][..i] == strs[..i];
      result := result + sep + strs[i];
    }
    assert strs[..|strs|] == strs;
  }

  /** Joining two non-empty lists is joining each and putting one separator between. */
  lemma {:induction false} JoinAppend(a: seq<Bytes>, b: seq<Bytes>, sep: Bytes)
    requires a != [] && b != []
    ensures Join(a + b, sep) == Join(a, sep) + sep + Join(b, sep)
    decreases |b|
  {
    assert (a + b)[..|a + b| - 1] == a + b[..|b| - 1];
    if |b| > 1 {
      JoinAppend(a, b[..|b| - 1], sep);
    } else {
      assert a + b[..|b| - 1] == a;
    }
  }

  /** The joined string begins with the first string and ends with the last. */
  lemma JoinEnds(strs: seq<Bytes>, sep: Bytes)
    requires strs != []
    ensures HasPrefix(Join(strs, sep), strs[0])
    ensures |strs[|strs| - 1]| <= |Join(strs, sep)|
    ensures Join(strs, sep)[|Join(strs, sep)| - |strs[|strs| - 1]|..] == strs[|strs| - 1]
  {
    if |strs| > 1 {
      var init := strs[..|strs| - 1];
      var last := [strs[|strs| - 1]];
      assert strs == init + last;
      JoinAppend([strs[0]], strs[1..], sep);
      assert [strs[0]] + strs[1..] == strs;
    }
  }

  /** The total length of the strings. */
  function TotalLength(strs: seq<Bytes>): nat
    decreases |strs|
  {
    if strs == [] then 0 else TotalLength(strs[..|strs| - 1]) + |strs[|strs| - 1]|
  }

  /** The joined string holds every string and one separator between each consecutive pair. */
  lemma {:induction false} JoinLength(strs: seq<Bytes>, sep: Bytes)
    requires strs != []
    ensures |Join(strs, sep)| == TotalLength(strs) + (|strs| - 1) * |sep|
    decreases |strs|
  {
    if |strs| > 1 {
      JoinLength(strs[..|strs| - 1], sep);
    } else {
      assert strs[..0] == [];
    }
  }

  // ---------------------------------------------------------------------------
  // Building UPDATE statements from optional fields
  // ---------------------------------------------------------------------------

  /**
   * `UPDATE t SET <parts> WHERE id = $<n + 1>` for the n arguments the parts
   * bind, with the id bound last.
   */
  function UpdateFor<C>(parts: (seq<SetClause<C>>, seq<SqlValue>), id: Id): (UpdateStmt<C>, seq<SqlValue>) {
    (UpdateStmt(parts.0, |parts.1| + 1), parts.1 + [SqlText(id)])
  }

  /**
   * Numbered parts make a well-formed statement that binds the id as its
   * WHERE argument and does to a row what the parts do.
   */
  lemma UpdateForSpec<R, C>(parts: (seq<SetClause<C>>, seq<SqlValue>), id: Id, now: Time,
                            read: (R, C) -> SqlValue, assign: (R, C, SqlValue) -> Option<R>, row: R)
    requires Numbered(parts)
    ensures var (stmt, args) := UpdateFor(parts, id);
            && ParamsMatch(StmtParams(stmt), |args|)
            && 1 <= stmt.whereParam <= |args| && args[stmt.whereParam - 1] == SqlText(id)
            && ApplySet(row, stmt.assignments, args, now, read, assign) ==
               ApplySet(row, parts.0, parts.1, now, read, assign)
  {
    var (stmt, args) := UpdateFor(parts, id);
    assert StmtParams(stmt) == ClauseParams(parts.0) + [|parts.1| + 1];
    assert Consecutive(StmtParams(stmt));
    ConsecutiveParamsMatch(StmtParams(stmt));
    ApplySetMoreArgs(row, parts.0, parts.1, [SqlText(id)], now, read, assign);
  }

  /** `updated_at = NOW()`, which both update builders start from. */
  lemma StampSpec<R, C>(updatedAt: C, now: Time, read: (R, C) -> SqlValue, assign: (R, C, SqlValue) -> Option<R>, row: R)
    ensures Numbered(([SetNow(updatedAt)], []))
    ensures ApplySet(row, [SetNow(updatedAt)], [], now, read, assign) ==
            match assign(row, updatedAt, SqlTime(now))
            case None => Err(Sql(TypeMismatch))
            case Some(r) => Ok(r)
  {
    assert [SetNow(updatedAt)][..0] == [];
  }

  /** A literal two-clause SET list, unfolded. */
  lemma TwoClauses<R, C>(base: R, cs: seq<SetClause<C>>, args: seq<SqlValue>, now: Time,
                         read: (R, C) -> SqlValue, assign: (R, C, SqlValue) -> Option<R>)
    requires |cs| == 2
    ensures ClauseParams(cs) == ClauseParams([cs[0]]) + ClauseParams([cs[1]])
    ensures ClauseParams([cs[0]]) == (if cs[0].SetParam? || cs[0].SetParamIfNull? then [cs[0].param] else [])
    ensures ClauseParams([cs[1]]) == (if cs[1].SetParam? || cs[1].SetParamIfNull? then [cs[1].param] else [])
    ensures ApplySet(base, cs, args, now, read, assign) ==
            ApplyClauseTo(ApplyClauseTo(Ok(base), base, cs[0], args, now, read, assign), base, cs[1], args, now, read, assign)
  {
    assert [cs[0]][..0] == [] && [cs[1]][..0] == [] && cs[..1] == [cs[0]];
    ApplySetAppend(base, [], cs[0], args, now, read, assign);
  }

  /** A literal three-clause SET list, unfolded. */
  lemma ThreeClauses<R, C>(base: R, cs: seq<SetClause<C>>, args: seq<SqlValue>, now: Time,
                           read: (R, C) -> SqlValue, assign: (R, C, SqlValue) -> Option<R>)
    requires |cs| == 3
    ensures ClauseParams(cs) == ClauseParams([cs[0]]) + ClauseParams([cs[1]]) + ClauseParams([cs[2]])
    ensures ClauseParams([cs[0]]) == (if cs[0].SetParam? || cs[0].SetParamIfNull? then [cs[0].param] else [])
    ensures ClauseParams([cs[1]]) == (if cs[1].SetParam? || cs[1].SetParamIfNull? then [cs[1].param] else [])
    ensures ClauseParams([cs[2]]) == (if cs[2].SetParam? || cs[2].SetParamIfNull? then [cs[2].param] else [])
    ensures ApplySet(base, cs, args, now, read, assign) ==
            ApplyClauseTo(ApplyClauseTo(ApplyClauseTo(Ok(base), base, cs[0], args, now, read, assign),
                                        base, cs[1], args, now, read, assign), base, cs[2], args, now, read, assign)
  {
    TwoClauses(base, cs[..2], args, now, read, assign);
    assert [cs[2]][..0] == [] && cs[..2] == [cs[0], cs[1]] && cs[..2][0] == cs[0] && cs[..2][1] == cs[1];
  }

  /** One clause acting on the row built so far (as in ApplySet). */
  function ApplyClauseTo<R, C>(acc: Result<R>, base: R, c: SetClause<C>, args: seq<SqlValue>, now: Time,
                               read: (R, C) -> SqlValue, assign: (R, C, SqlValue) -> Option<R>): Result<R>
  {
    match acc
    case Err(e) => Err(e)
    case Ok(r) =>
      match EvalClause(base, c, args, now, read)
      case Err(e) => Err(e)
      case Ok(v) =>
        match assign(r, c.column, v)
        case None => Err(Sql(TypeMismatch))
        case Some(r') => Ok(r')
  }

  // ---------------------------------------------------------------------------
  // Blog posts: the edits an UPDATE statement makes to one row
  // ---------------------------------------------------------------------------

  /** title, slug, excerpt, content and cover_image_url, as UpdateBlogPost appends them. */
  function PostContentParts(acc: (seq<SetClause<PostColumn>>, seq<SqlValue>), input: UpdateBlogPostInput, now: Time)
    : (seq<SetClause<PostColumn>>, seq<SqlValue>)
  {
    var p1 := AddItem(acc, SetItem(input.title.Some?, PostTitle, SqlText(input.title.GetOr([])), false));
    var p2 := AddItem(p1, SetItem(input.slug.Some?, PostSlug, SqlText(input.slug.GetOr([])), false));
    var p3 := AddItem(p2, SetItem(input.excerpt.Some?, PostExcerpt, NullStringArg(PtrToNullString(input.excerpt)), false));
    var p4 := AddItem(p3, SetItem(input.content.Some?, PostContent, SqlText(input.content.GetOr([])), false));
    var p5 := AddItem(p4, SetItem(input.coverImageUrl.Some?, PostCoverImageUrl, NullStringArg(PtrToNullString(input.coverImageUrl)), false));
    p5
  }

  /** tags, status (with the COALESCE of published_at when it is PUBLISHED), seo_title and seo_description. */
  function PostMetaParts(acc: (seq<SetClause<PostColumn>>, seq<SqlValue>), input: UpdateBlogPostInput, now: Time)
    : (seq<SetClause<PostColumn>>, seq<SqlValue>)
  {
    var p1 := AddItem(acc, SetItem(input.tags.Some?, PostTags, SqlTextArray(input.tags.GetOr([])), false));
    var p2 := AddItem(p1, SetItem(input.status.Some?, PostStatus, SqlText(input.status.GetOr(StatusDraft).name), false));
    var p3 := AddItem(p2, SetItem(input.status == Some(StatusPublished), PostPublishedAt, SqlTime(now), true));
    var p4 := AddItem(p3, SetItem(input.seoTitle.Some?, PostSeoTitle, NullStringArg(PtrToNullString(input.seoTitle)), false));
    var p5 := AddItem(p4, SetItem(input.seoDescription.Some?, PostSeoDescription, NullStringArg(PtrToNullString(input.seoDescription)), false));
    p5
  }

  /** The SET list and arguments UpdateBlogPost builds. */
  function PostUpdateParts(input: UpdateBlogPostInput, now: Time): (seq<SetClause<PostColumn>>, seq<SqlValue>) {
    PostMetaParts(PostContentParts(([SetNow(PostUpdatedAt)], []), input, now), input, now)
  }

  /**
   * Partial-update semantics of a blog post: a field named by the input takes
   * its value (a named nullable field is set, never cleared), every other
   * field keeps its value, updated_at becomes now, and setting the status to
   * PUBLISHED dates the post only if it had no publication date.
   */
  function MergedPost(r: PostRow, input: UpdateBlogPostInput, now: Time): PostRow {
    r.(title := input.title.GetOr(r.title),
       slug := input.slug.GetOr(r.slug),
       excerpt := if input.excerpt.Some? then input.excerpt else r.excerpt,
       content := input.content.GetOr(r.content),
       coverImageUrl := if input.coverImageUrl.Some? then input.coverImageUrl else r.coverImageUrl,
       tags := input.tags.GetOr(r.tags),
       status := if input.status.Some? then input.status.value.name else r.status,
       publishedAt := if input.status == Some(StatusPublished) && r.publishedAt.None? then Some(now) else r.publishedAt,
       seoTitle := if input.seoTitle.Some? then input.seoTitle else r.seoTitle,
       seoDescription := if input.seoDescription.Some? then input.seoDescription else r.seoDescription,
       updatedAt := now)
  }

  lemma PostTitleStep(row: PostRow, acc: (seq<SetClause<PostColumn>>, seq<SqlValue>), r: PostRow, input: UpdateBlogPostInput, now: Time)
    requires Numbered(acc) && ApplySet(row, acc.0, acc.1, now, ReadPost, AssignPost) == Ok(r)
    ensures var p := AddItem(acc, SetItem(input.title.Some?, PostTitle, SqlText(input.title.GetOr([])), false));
            Numbered(p) && ApplySet(row, p.0, p.1, now, ReadPost, AssignPost) == Ok(r.(title := input.title.GetOr(r.title)))
  {
    AddItemSpec(row, acc, SetItem(input.title.Some?, PostTitle, SqlText(input.title.GetOr([])), false), now, ReadPost, AssignPost);
  }

  lemma PostSlugStep(row: PostRow, acc: (seq<SetClause<PostColumn>>, seq<SqlValue>), r: PostRow, input: UpdateBlogPostInput, now: Time)
    requires Numbered(acc) && ApplySet(row, acc.0, acc.1, now, ReadPost, AssignPost) == Ok(r)
    ensures var p := AddItem(acc, SetItem(input.slug.Some?, PostSlug, SqlText(input.slug.GetOr([])), false));
            Numbered(p) && ApplySet(row, p.0, p.1, now, ReadPost, AssignPost) == Ok(r.(slug := input.slug.GetOr(r.slug)))
  {
    AddItemSpec(row, acc, SetItem(input.slug.Some?, PostSlug, SqlText(input.slug.GetOr([])), false), now, ReadPost, AssignPost);
  }

  lemma PostExcerptStep(row: PostRow, acc: (seq<SetClause<PostColumn>>, seq<SqlValue>), r: PostRow, input: UpdateBlogPostInput, now: Time)
    requires Numbered(acc) && ApplySet(row, acc.0, acc.1, now, ReadPost, AssignPost) == Ok(r)
    ensures var p := AddItem(acc, SetItem(input.excerpt.Some?, PostExcerpt, NullStringArg(PtrToNullString(input.excerpt)), false));
            Numbered(p) && ApplySet(row, p.0, p.1, now, ReadPost, AssignPost) == Ok(r.(excerpt := if input.excerpt.Some? then input.excerpt else r.excerpt))
  {
    AddItemSpec(row, acc, SetItem(input.excerpt.Some?, PostExcerpt, NullStringArg(PtrToNullString(input.excerpt)), false), now, ReadPost, AssignPost);
  }

  lemma PostContentStep(row: PostRow, acc: (seq<SetClause<PostColumn>>, seq<SqlValue>), r: PostRow, input: UpdateBlogPostInput, now: Time)
    requires Numbered(acc) && ApplySet(row, acc.0, acc.1, now, ReadPost, AssignPost) == Ok(r)
    ensures var p := AddItem(acc, SetItem(input.content.Some?, PostContent, SqlText(input.content.GetOr([])), false));
            Numbered(p) && ApplySet(row, p.0, p.1, now, ReadPost, AssignPost) == Ok(r.(content := input.content.GetOr(r.content)))
  {
    AddItemSpec(row, acc, SetItem(input.content.Some?, PostContent, SqlText(input.content.GetOr([])), false), now, ReadPost, AssignPost);
  }

  lemma PostCoverImageUrlStep(row: PostRow, acc: (seq<SetClause<PostColumn>>, seq<SqlValue>), r: PostRow, input: UpdateBlogPostInput, now: Time)
    requires Numbered(acc) && ApplySet(row, acc.0, acc.1, now, ReadPost, AssignPost) == Ok(r)
    ensures var p := AddItem(acc, SetItem(input.coverImageUrl.Some?, PostCoverImageUrl, NullStringArg(PtrToNullString(input.coverImageUrl)), false));
            Numbered(p) && ApplySet(row, p.0, p.1, now, ReadPost, AssignPost) == Ok(r.(coverImageUrl := if input.coverImageUrl.Some? then input.coverImageUrl else r.coverImageUrl))
  {
    AddItemSpec(row, acc, SetItem(input.coverImageUrl.Some?, PostCoverImageUrl, NullStringArg(PtrToNullString(input.coverImageUrl)), false), now, ReadPost, AssignPost);
  }

  lemma PostTagsStep(row: PostRow, acc: (seq<SetClause<PostColumn>>, seq<SqlValue>), r: PostRow, input: UpdateBlogPostInput, now: Time)
    requires Numbered(acc) && ApplySet(row, acc.0, acc.1, now, ReadPost, AssignPost) == Ok(r)
    ensures var p := AddItem(acc, SetItem(input.tags.Some?, PostTags, SqlTextArray(input.tags.GetOr([])), false));
            Numbered(p) && ApplySet(row, p.0, p.1, now, ReadPost, AssignPost) == Ok(r.(tags := input.tags.GetOr(r.tags)))
  {
    AddItemSpec(row, acc, SetItem(input.tags.Some?, PostTags, SqlTextArray(input.tags.GetOr([])), false), now, ReadPost, AssignPost);
  }

  lemma PostStatusStep(row: PostRow, acc: (seq<SetClause<PostColumn>>, seq<SqlValue>), r: PostRow, input: UpdateBlogPostInput, now: Time)
    requires Numbered(acc) && ApplySet(row, acc.0, acc.1, now, ReadPost, AssignPost) == Ok(r)
    ensures var p := AddItem(acc, SetItem(input.status.Some?, PostStatus, SqlText(input.status.GetOr(StatusDraft).name), false));
            Numbered(p) && ApplySet(row, p.0, p.1, now, ReadPost, AssignPost) == Ok(r.(status := if input.status.Some? then input.status.value.name else r.status))
  {
    AddItemSpec(row, acc, SetItem(input.status.Some?, PostStatus, SqlText(input.status.GetOr(StatusDraft).name), false), now, ReadPost, AssignPost);
  }

  lemma PostPublishedAtStep(row: PostRow, acc: (seq<SetClause<PostColumn>>, seq<SqlValue>), r: PostRow, input: UpdateBlogPostInput, now: Time)
    requires Numbered(acc) && ApplySet(row, acc.0, acc.1, now, ReadPost, AssignPost) == Ok(r)
    ensures var p := AddItem(acc, SetItem(input.status == Some(StatusPublished), PostPublishedAt, SqlTime(now), true));
            Numbered(p) && ApplySet(row, p.0, p.1, now, ReadPost, AssignPost) == Ok(r.(publishedAt := if input.status == Some(StatusPublished) then (if row.publishedAt.Some? then row.publishedAt else Some(now)) else r.publishedAt))
  {
    AddItemSpec(row, acc, SetItem(input.status == Some(StatusPublished), PostPublishedAt, SqlTime(now), true), now, ReadPost, AssignPost);
  }

  lemma PostSeoTitleStep(row: PostRow, acc: (seq<SetClause<PostColumn>>, seq<SqlValue>), r: PostRow, input: UpdateBlogPostInput, now: Time)
    requires Numbered(acc) && ApplySet(row, acc.0, acc.1, now, ReadPost, AssignPost) == Ok(r)
    ensures var p := AddItem(acc, SetItem(input.seoTitle.Some?, PostSeoTitle, NullStringArg(PtrToNullString(input.seoTitle)), false));
            Numbered(p) && ApplySet(row, p.0, p.1, now, ReadPost, AssignPost) == Ok(r.(seoTitle := if input.seoTitle.Some? then input.seoTitle else r.seoTitle))
  {
    AddItemSpec(row, acc, SetItem(input.seoTitle.Some?, PostSeoTitle, NullStringArg(PtrToNullString(input.seoTitle)), false), now, ReadPost, AssignPost);
  }

  lemma PostSeoDescriptionStep(row: PostRow, acc: (seq<SetClause<PostColumn>>, seq<SqlValue>), r: PostRow, input: UpdateBlogPostInput, now: Time)
    requires Numbered(acc) && ApplySet(row, acc.0, acc.1, now, ReadPost, AssignPost) == Ok(r)
    ensures var p := AddItem(acc, SetItem(input.seoDescription.Some?, PostSeoDescription, NullStringArg(PtrToNullString(input.seoDescription)), false));
            Numbered(p) && ApplySet(row, p.0, p.1, now, ReadPost, AssignPost) == Ok(r.(seoDescription := if input.seoDescription.Some? then input.seoDescription else r.seoDescription))
  {
    AddItemSpec(row, acc, SetItem(input.seoDescription.Some?, PostSeoDescription, NullStringArg(PtrToNullString(input.seoDescription)), false), now, ReadPost, AssignPost);
  }

  lemma PostContentPartsDo(row: PostRow, acc: (seq<SetClause<PostColumn>>, seq<SqlValue>), r: PostRow, input: UpdateBlogPostInput, now: Time)
    requires Numbered(acc) && ApplySet(row, acc.0, acc.1, now, ReadPost, AssignPost) == Ok(r)
    ensures var p := PostContentParts(acc, input, now);
            && Numbered(p)
            && ApplySet(row, p.0, p.1, now, ReadPost, AssignPost) ==
               Ok(r.(title := input.title.GetOr(r.title),
                  slug := input.slug.GetOr(r.slug),
                  excerpt := if input.excerpt.Some? then input.excerpt else r.excerpt,
                  content := input.content.GetOr(r.content),
                  coverImageUrl := if input.coverImageUrl.Some? then input.coverImageUrl else r.coverImageUrl))
  {
    PostTitleStep(row, acc, r, input, now);
    var p1, r1 := AddItem(acc, SetItem(input.title.Some?, PostTitle, SqlText(input.title.GetOr([])), false)), r.(title := input.title.GetOr(r.title));
    PostSlugStep(row, p1, r1, input, now);
    var p2, r2 := AddItem(p1, SetItem(input.slug.Some?, PostSlug, SqlText(input.slug.GetOr([])), false)), r1.(slug := input.slug.GetOr(r1.slug));
    PostExcerptStep(row, p2, r2, input, now);
    var p3, r3 := AddItem(p2, SetItem(input.excerpt.Some?, PostExcerpt, NullStringArg(PtrToNullString(input.excerpt)), false)), r2.(excerpt := if input.excerpt.Some? then input.excerpt else r2.excerpt);
    PostContentStep(row, p3, r3, input, now);
    var p4, r4 := AddItem(p3, SetItem(input.content.Some?, PostContent, SqlText(input.content.GetOr([])), false)), r3.(content := input.content.GetOr(r3.content));
    PostCoverImageUrlStep(row, p4, r4, input, now);
    var p5, r5 := AddItem(p4, SetItem(input.coverImageUrl.Some?, PostCoverImageUrl, NullStringArg(PtrToNullString(input.coverImageUrl)), false)), r4.(coverImageUrl := if input.coverImageUrl.Some? then input.coverImageUrl else r4.coverImageUrl);
  }

  lemma PostMetaPartsDo(row: PostRow, acc: (seq<SetClause<PostColumn>>, seq<SqlValue>), r: PostRow, input: UpdateBlogPostInput, now: Time)
    requires Numbered(acc) && ApplySet(row, acc.0, acc.1, now, ReadPost, AssignPost) == Ok(r)
    ensures var p := PostMetaParts(acc, input, now);
            && Numbered(p)
            && ApplySet(row, p.0, p.1, now, ReadPost, AssignPost) ==
               Ok(r.(tags := input.tags.GetOr(r.tags),
                  status := if input.status.Some? then input.status.value.name else r.status,
                  publishedAt := if input.status == Some(StatusPublished) then (if row.publishedAt.Some? then row.publishedAt else Some(now)) else r.publishedAt,
                  seoTitle := if input.seoTitle.Some? then input.seoTitle else r.seoTitle,
                  seoDescription := if input.seoDescription.Some? then input.seoDescription else r.seoDescription))
  {
    PostTagsStep(row, acc, r, input, now);
    var p1, r1 := AddItem(acc, SetItem(input.tags.Some?, PostTags, SqlTextArray(input.tags.GetOr([])), false)), r.(tags := input.tags.GetOr(r.tags));
    PostStatusStep(row, p1, r1, input, now);
    var p2, r2 := AddItem(p1, SetItem(input.status.Some?, PostStatus, SqlText(input.status.GetOr(StatusDraft).name), false)), r1.(status := if input.status.Some? then input.status.value.name else r1.status);
    PostPublishedAtStep(row, p2, r2, input, now);
    var p3, r3 := AddItem(p2, SetItem(input.status == Some(StatusPublished), PostPublishedAt, SqlTime(now), true)), r2.(publishedAt := if input.status == Some(StatusPublished) then (if row.publishedAt.Some? then row.publishedAt else Some(now)) else r2.publishedAt);
    PostSeoTitleStep(row, p3, r3, input, now);
    var p4, r4 := AddItem(p3, SetItem(input.seoTitle.Some?, PostSeoTitle, NullStringArg(PtrToNullString(input.seoTitle)), false)), r3.(seoTitle := if input.seoTitle.Some? then input.seoTitle else r3.seoTitle);
    PostSeoDescriptionStep(row, p4, r4, input, now);
    var p5, r5 := AddItem(p4, SetItem(input.seoDescription.Some?, PostSeoDescription, NullStringArg(PtrToNullString(input.seoDescription)), false)), r4.(seoDescription := if input.seoDescription.Some? then input.seoDescription else r4.seoDescription);
  }

  /** The assignments UpdateBlogPost builds turn a row into MergedPost of it. */
  lemma PostPartsMerge(row: PostRow, input: UpdateBlogPostInput, now: Time)
    ensures Numbered(PostUpdateParts(input, now))
    ensures ApplySet(row, PostUpdateParts(input, now).0, PostUpdateParts(input, now).1, now, ReadPost, AssignPost) ==
            Ok(MergedPost(row, input, now))
  {
    StampSpec(PostUpdatedAt, now, ReadPost, AssignPost, row);
    var r := row.(updatedAt := now);
    PostContentPartsDo(row, ([SetNow(PostUpdatedAt)], []), r, input, now);
    PostMetaPartsDo(row, PostContentParts(([SetNow(PostUpdatedAt)], []), input, now),
                    r.(title := input.title.GetOr(r.title),
                       slug := input.slug.GetOr(r.slug),
                       excerpt := if input.excerpt.Some? then input.excerpt else r.excerpt,
                       content := input.content.GetOr(r.content),
                       coverImageUrl := if input.coverImageUrl.Some? then input.coverImageUrl else r.coverImageUrl),
                    input, now);
  }

  /** What one mutation does to a blog-post row. */
  datatype PostEdit = PostMerge(input: UpdateBlogPostInput) | PostPublish | PostUnpublish | PostLike

  /**
   * The row after the edit: publishing keeps an existing publication date,
   * unpublishing only returns the post to DRAFT, and a like adds one to the
   * count (NULL counting as 0) within the 32-bit range of the column.
   */
  function ApplyPostEdit(e: PostEdit, r: PostRow, now: Time): Result<PostRow> {
    match e
    case PostMerge(input) => Ok(MergedPost(r, input, now))
    case PostPublish =>
      Ok(r.(status := StatusPublished.name,
            publishedAt := if r.publishedAt.Some? then r.publishedAt else Some(now),
            updatedAt := now))
    case PostUnpublish => Ok(r.(status := StatusDraft.name, updatedAt := now))
    case PostLike =>
      var n := r.likeCount.GetOr(0) + 1;
      if n <= MaxInt32 then Ok(r.(likeCount := Some(n), updatedAt := now)) else Err(Sql(IntegerOutOfRange))
  }

  /** The UPDATE statement and arguments each mutation sends for the blog post `id`. */
  function PostStmt(e: PostEdit, id: Id, now: Time): (UpdateStmt<PostColumn>, seq<SqlValue>) {
    match e
    case PostMerge(input) => UpdateFor(PostUpdateParts(input, now), id)
    case PostPublish =>
      (UpdateStmt([SetLiteral(PostStatus, SqlText(StatusPublished.name)), SetParamIfNull(PostPublishedAt, 1),
                   SetNow(PostUpdatedAt)], 2),
       [SqlTime(now), SqlText(id)])
    case PostUnpublish =>
      (UpdateStmt([SetLiteral(PostStatus, SqlText(StatusDraft.name)), SetNow(PostUpdatedAt)], 1), [SqlText(id)])
    case PostLike =>
      (UpdateStmt([IncrementCount(PostLikeCount), SetNow(PostUpdatedAt)], 1), [SqlText(id)])
  }

  /** An edit applied to the blog post `id`: None when there is no such post. */
  function PostWrite(s: DbState, id: Id, e: PostEdit, now: Time): (DbState, Result<Option<PostRow>>) {
    if !s.online then (s, Err(Sql(Unavailable)))
    else if id !in s.posts then (s, Ok(None))
    else
      match ApplyPostEdit(e, s.posts[id], now)
      case Err(err) => (s, Err(err))
      case Ok(row) =>
        if PostRowOk(s, id, row) then (s.(posts := s.posts[id := row]), Ok(Some(row)))
        else (s, Err(Sql(RowError(PostLengthsOk(row)))))
  }

  /** The statement is well formed, binds the id last, and does the edit to any row. */
  ghost predicate PostStmtDoes(e: PostEdit, id: Id, now: Time, row: PostRow) {
    var (stmt, args) := PostStmt(e, id, now);
    && ParamsMatch(StmtParams(stmt), |args|)
    && 1 <= stmt.whereParam <= |args| && args[stmt.whereParam - 1] == SqlText(id)
    && ApplySet(row, stmt.assignments, args, now, ReadPost, AssignPost) == ApplyPostEdit(e, row, now)
  }

  lemma PostMergeShape(input: UpdateBlogPostInput, id: Id, now: Time, row: PostRow)
    ensures PostStmtDoes(PostMerge(input), id, now, row)
  {
    PostPartsMerge(row, input, now);
    UpdateForSpec(PostUpdateParts(input, now), id, now, ReadPost, AssignPost, row);
  }

  lemma PostPublishShape(id: Id, now: Time, row: PostRow)
    ensures PostStmtDoes(PostPublish, id, now, row)
  {
    var (stmt, args) := PostStmt(PostPublish, id, now);
    PostPublishSets(id, now, row);
    ThreeClauses(row, stmt.assignments, args, now, ReadPost, AssignPost);
    assert StmtParams(stmt) == [1, 2];
    ConsecutiveParamsMatch(StmtParams(stmt));
  }

  /** The SET list of publishBlogPost marks the row published and dates it now only when it has no date. */
  lemma PostPublishSets(id: Id, now: Time, row: PostRow)
    ensures ApplySet(row, PostStmt(PostPublish, id, now).0.assignments, PostStmt(PostPublish, id, now).1, now,
                     ReadPost, AssignPost) == ApplyPostEdit(PostPublish, row, now)
  {
    var (stmt, args) := PostStmt(PostPublish, id, now);
    ThreeClauses(row, stmt.assignments, args, now, ReadPost, AssignPost);
    var r1 := row.(status := StatusPublished.name);
    var r2 := r1.(publishedAt := if row.publishedAt.Some? then row.publishedAt else Some(now));
    assert ApplyClauseTo(Ok(row), row, stmt.assignments[0], args, now, ReadPost, AssignPost) == Ok(r1);
    assert ApplyClauseTo(Ok(r1), row, stmt.assignments[1], args, now, ReadPost, AssignPost) == Ok(r2);
  }

  lemma PostUnpublishShape(id: Id, now: Time, row: PostRow)
    ensures PostStmtDoes(PostUnpublish, id, now, row)
  {
    var (stmt, args) := PostStmt(PostUnpublish, id, now);
    PostUnpublishSets(id, now, row);
    TwoClauses(row, stmt.assignments, args, now, ReadPost, AssignPost);
    assert StmtParams(stmt) == [1];
    ConsecutiveParamsMatch(StmtParams(stmt));
  }

  /** The SET list of unpublishBlogPost returns the post to draft, keeping its date. */
  lemma PostUnpublishSets(id: Id, now: Time, row: PostRow)
    ensures ApplySet(row, PostStmt(PostUnpublish, id, now).0.assignments, PostStmt(PostUnpublish, id, now).1, now,
                     ReadPost, AssignPost) == ApplyPostEdit(PostUnpublish, row, now)
  {
    var (stmt, args) := PostStmt(PostUnpublish, id, now);
    TwoClauses(row, stmt.assignments, args, now, ReadPost, AssignPost);
  }

  lemma PostLikeShape(id: Id, now: Time, row: PostRow)
    ensures PostStmtDoes(PostLike, id, now, row)
  {
    var (stmt, args) := PostStmt(PostLike, id, now);
    PostLikeSets(id, now, row);
    TwoClauses(row, stmt.assignments, args, now, ReadPost, AssignPost);
    assert StmtParams(stmt) == [1];
    ConsecutiveParamsMatch(StmtParams(stmt));
  }

  /** The SET list of likeBlogPost adds one like, within the 32-bit range. */
  lemma PostLikeSets(id: Id, now: Time, row: PostRow)
    ensures ApplySet(row, PostStmt(PostLike, id, now).0.assignments, PostStmt(PostLike, id, now).1, now,
                     ReadPost, AssignPost) == ApplyPostEdit(PostLike, row, now)
  {
    var (stmt, args) := PostStmt(PostLike, id, now);
    TwoClauses(row, stmt.assignments, args, now, ReadPost, AssignPost);
    var n := row.likeCount.GetOr(0) + 1;
    if n <= MaxInt32 {
      var r1 := row.(likeCount := Some(n));
      assert ApplyClauseTo(Ok(row), row, stmt.assignments[0], args, now, ReadPost, AssignPost) == Ok(r1);
      assert ApplyClauseTo(Ok(r1), row, stmt.assignments[1], args, now, ReadPost, AssignPost) ==
             Ok(r1.(updatedAt := now));
    } else {
      assert ApplyClauseTo(Ok(row), row, stmt.assignments[0], args, now, ReadPost, AssignPost) ==
             Err(Sql(IntegerOutOfRange));
    }
  }

  lemma PostStmtShape(e: PostEdit, id: Id, now: Time, row: PostRow)
    ensures PostStmtDoes(e, id, now, row)
  {
    match e
    case PostMerge(input) => PostMergeShape(input, id, now, row);
    case PostPublish => PostPublishShape(id, now, row);
    case PostUnpublish => PostUnpublishShape(id, now, row);
    case PostLike => PostLikeShape(id, now, row);
  }

  /** The statement each mutation sends edits exactly the post it names. */
  lemma PostStmtWrites(s: DbState, e: PostEdit, id: Id, now: Time)
    ensures UpdatePosts(s, PostStmt(e, id, now).0, PostStmt(e, id, now).1, now) == PostWrite(s, id, e, now)
  {
    if id in s.posts {
      PostStmtShape(e, id, now, s.posts[id]);
    } else {
      PostStmtShape(e, id, now, PostRow([], [], None, [], None, [], [], None, None, None, None, 0, 0));
    }
  }

  // ---------------------------------------------------------------------------
  // The blog-post SET-list builder
  // ---------------------------------------------------------------------------

  /** The builder's appends for title, slug, excerpt, content and cover_image_url, as UpdateBlogPost appends them. */
  method AppendPostContent(setParts0: seq<SetClause<PostColumn>>, args0: seq<SqlValue>, argIndex0: nat, input: UpdateBlogPostInput, now: Time)
    returns (setParts: seq<SetClause<PostColumn>>, args: seq<SqlValue>, argIndex: nat)
    requires argIndex0 == |args0| + 1
    ensures (setParts, args) == PostContentParts((setParts0, args0), input, now)
    ensures argIndex == |args| + 1
  {
    setParts, args, argIndex := setParts0, args0, argIndex0;
    ghost var parts := (setParts0, args0);
    if input.title.Some? {
      setParts, args, argIndex := setParts + [SetParam(PostTitle, argIndex)], args + [SqlText(input.title.value)], argIndex + 1;
    }
    parts := AddItem(parts, SetItem(input.title.Some?, PostTitle, SqlText(input.title.GetOr([])), false));
    assert (setParts, args) == parts && argIndex == |args| + 1;
    if input.slug.Some? {
      setParts, args, argIndex := setParts + [SetParam(PostSlug, argIndex)], args + [SqlText(input.slug.value)], argIndex + 1;
    }
    parts := AddItem(parts, SetItem(input.slug.Some?, PostSlug, SqlText(input.slug.GetOr([])), false));
    assert (setParts, args) == parts && argIndex == |args| + 1;
    if input.excerpt.Some? {
      setParts, args, argIndex := setParts + [SetParam(PostExcerpt, argIndex)], args + [NullStringArg(PtrToNullString(input.excerpt))], argIndex + 1;
    }
    parts := AddItem(parts, SetItem(input.excerpt.Some?, PostExcerpt, NullStringArg(PtrToNullString(input.excerpt)), false));
    assert (setParts, args) == parts && argIndex == |args| + 1;
    if input.content.Some? {
      setParts, args, argIndex := setParts + [SetParam(PostContent, argIndex)], args + [SqlText(input.content.value)], argIndex + 1;
    }
    parts := AddItem(parts, SetItem(input.content.Some?, PostContent, SqlText(input.content.GetOr([])), false));
    assert (setParts, args) == parts && argIndex == |args| + 1;
    if input.coverImageUrl.Some? {
      setParts, args, argIndex := setParts + [SetParam(PostCoverImageUrl, argIndex)], args + [NullStringArg(PtrToNullString(input.coverImageUrl))], argIndex + 1;
    }
    parts := AddItem(parts, SetItem(input.coverImageUrl.Some?, PostCoverImageUrl, NullStringArg(PtrToNullString(input.coverImageUrl)), false));
    assert (setParts, args) == parts && argIndex == |args| + 1;
  }

  /** The builder's appends for tags, status (with the COALESCE of published_at when it is PUBLISHED), seo_title and seo_description. */
  method AppendPostMeta(setParts0: seq<SetClause<PostColumn>>, args0: seq<SqlValue>, argIndex0: nat, input: UpdateBlogPostInput, now: Time)
    returns (setParts: seq<SetClause<PostColumn>>, args: seq<SqlValue>, argIndex: nat)
    requires argIndex0 == |args0| + 1
    ensures (setParts, args) == PostMetaParts((setParts0, args0), input, now)
    ensures argIndex == |args| + 1
  {
    setParts, args, argIndex := setParts0, args0, argIndex0;
    ghost var parts := (setParts0, args0);
    if input.tags.Some? {
      setParts, args, argIndex := setParts + [SetParam(PostTags, argIndex)], args + [SqlTextArray(input.tags.value)], argIndex + 1;
    }
    parts := AddItem(parts, SetItem(input.tags.Some?, PostTags, SqlTextArray(input.tags.GetOr([])), false));
    assert (setParts, args) == parts && argIndex == |args| + 1;
    if input.status.Some? {
      setParts, args, argIndex := setParts + [SetParam(PostStatus, argIndex)], args + [SqlText(input.status.value.name)], argIndex + 1;
      if input.status.value == StatusPublished {
        setParts, args, argIndex := setParts + [SetParamIfNull(PostPublishedAt, argIndex)], args + [SqlTime(now)], argIndex + 1;
      }
    }
    parts := AddItem(AddItem(parts, SetItem(input.status.Some?, PostStatus, SqlText(input.status.GetOr(StatusDraft).name), false)), SetItem(input.status == Some(StatusPublished), PostPublishedAt, SqlTime(now), true));
    assert (setParts, args) == parts && argIndex == |args| + 1;
    if input.seoTitle.Some? {
      setParts, args, argIndex := setParts + [SetParam(PostSeoTitle, argIndex)], args + [NullStringArg(PtrToNullString(input.seoTitle))], argIndex + 1;
    }
    parts := AddItem(parts, SetItem(input.seoTitle.Some?, PostSeoTitle, NullStringArg(PtrToNullString(input.seoTitle)), false));
    assert (setParts, args) == parts && argIndex == |args| + 1;
    if input.seoDescription.Some? {
      setParts, args, argIndex := setParts + [SetParam(PostSeoDescription, argIndex)], args + [NullStringArg(PtrToNullString(input.seoDescription))], argIndex + 1;
    }
    parts := AddItem(parts, SetItem(input.seoDescription.Some?, PostSeoDescription, NullStringArg(PtrToNullString(input.seoDescription)), false));
    assert (setParts, args) == parts && argIndex == |args| + 1;
  }

  /**
   * UpdateBlogPost's dynamic query builder: updated_at = NOW() first, then one
   * `column = $argIndex` per field the input names, in a fixed order, with the
   * id bound last.
   */
  method BuildPostUpdate(id: Id, input: UpdateBlogPostInput, now: Time)
    returns (stmt: UpdateStmt<PostColumn>, args: seq<SqlValue>)
    ensures (stmt, args) == PostStmt(PostMerge(input), id, now)
  {
    var setParts := [SetNow(PostUpdatedAt)];
    var argIndex := 1;
    setParts, args, argIndex := AppendPostContent(setParts, [], argIndex, input, now);
    setParts, args, argIndex := AppendPostMeta(setParts, args, argIndex, input, now);
    stmt := UpdateStmt(setParts, argIndex);
    args := args + [SqlText(id)];
  }

  // ---------------------------------------------------------------------------
  // Blog-post mutations
  // ---------------------------------------------------------------------------

  /**
   * The re-read that follows UpdateBlogPost, PublishBlogPost and
   * UnpublishBlogPost: a store error is returned unwrapped and an empty result
   * is "blog post not found after <step>".
   */
  function PostReadBack(s: DbState, id: Id, step: Bytes): Result<BlogPost> {
    if !s.online then Err(Sql(Unavailable))
    else if id in s.posts then Ok(PostEntity(id, s.posts[id]))
    else Err(NotFoundAfter(step))
  }

  /** An UPDATE on the post followed by the re-read; an UPDATE error is wrapped with the action. */
  function PostMutation(s: DbState, id: Id, e: PostEdit, now: Time, action: Bytes, step: Bytes)
    : (DbState, Result<BlogPost>)
  {
    var (s', w) := PostWrite(s, id, e, now);
    match w
    case Err(err) => (s', Err(Failed(action, err)))
    case Ok(_) => (s', PostReadBack(s', id, step))
  }

  method ReadBackPost(db: DB, id: Id, step: Bytes) returns (r: Result<BlogPost>)
    ensures r == PostReadBack(db.State(), id, step)
  {
    var posts := QueryPostById(db, id);
    match posts
    case Err(e) =>
      return Err(e);
    case Ok(ps) =>
      if |ps| == 0 {
        return Err(NotFoundAfter(step));
      }
      return Ok(ps[0]);
  }

  method UpdateBlogPost(db: DB, id: Id, input: UpdateBlogPostInput, now: Time) returns (r: Result<BlogPost>)
    modifies db
    ensures (db.State(), r) ==
            PostMutation(old(db.State()), id, PostMerge(input), now, Ascii("update blog post"), Ascii("update"))
  {
    var stmt, args := BuildPostUpdate(id, input, now);
    PostStmtWrites(db.State(), PostMerge(input), id, now);
    var w := db.ExecUpdatePosts(stmt, args, now);
    match w
    case Err(e) =>
      return Err(Failed(Ascii("update blog post"), e));
    case Ok(_) =>
      r := ReadBackPost(db, id, Ascii("update"));
  }

  method PublishBlogPost(db: DB, id: Id, now: Time) returns (r: Result<BlogPost>)
    modifies db
    ensures (db.State(), r) ==
            PostMutation(old(db.State()), id, PostPublish, now, Ascii("publish blog post"), Ascii("publish"))
  {
    var stmt := UpdateStmt([SetLiteral(PostStatus, SqlText(StatusPublished.name)), SetParamIfNull(PostPublishedAt, 1),
                            SetNow(PostUpdatedAt)], 2);
    PostStmtWrites(db.State(), PostPublish, id, now);
    var w := db.ExecUpdatePosts(stmt, [SqlTime(now), SqlText(id)], now);
    match w
    case Err(e) =>
      return Err(Failed(Ascii("publish blog post"), e));
    case Ok(_) =>
      r := ReadBackPost(db, id, Ascii("publish"));
  }

  method UnpublishBlogPost(db: DB, id: Id, now: Time) returns (r: Result<BlogPost>)
    modifies db
    ensures (db.State(), r) ==
            PostMutation(old(db.State()), id, PostUnpublish, now, Ascii("unpublish blog post"), Ascii("unpublish"))
  {
    var stmt := UpdateStmt([SetLiteral(PostStatus, SqlText(StatusDraft.name)), SetNow(PostUpdatedAt)], 1);
    PostStmtWrites(db.State(), PostUnpublish, id, now);
    var w := db.ExecUpdatePosts(stmt, [SqlText(id)], now);
    match w
    case Err(e) =>
      return Err(Failed(Ascii("unpublish blog post"), e));
    case Ok(_) =>
      r := ReadBackPost(db, id, Ascii("unpublish"));
  }

  /**
   * The row CreateBlogPost inserts: the status defaults to DRAFT, a PUBLISHED
   * post is dated now, the count starts at 0 and both time stamps are the
   * insert's NOW().
   */
  function NewPostRow(input: CreateBlogPostInput, now: Time): PostRow {
    var status := input.status.GetOr(StatusDraft);
    PostRow(
      title := input.title,
      slug := input.slug,
      excerpt := input.excerpt,
      content := input.content,
      coverImageUrl := input.coverImageUrl,
      tags := input.tags,
      status := status.name,
      seoTitle := input.seoTitle,
      seoDescription := input.seoDescription,
      publishedAt := if status == StatusPublished then Some(now) else None,
      likeCount := Some(0),
      createdAt := now,
      updatedAt := now)
  }

  /** The post CreateBlogPost returns: built from the input, with the id and time stamps RETURNING gives. */
  function CreatedPost(id: Id, input: CreateBlogPostInput, now: Time): BlogPost {
    var status := input.status.GetOr(StatusDraft);
    BlogPost(
      id := id,
      title := input.title,
      slug := input.slug,
      excerpt := input.excerpt,
      content := input.content,
      coverImageUrl := input.coverImageUrl,
      tags := input.tags,
      status := status,
      seoTitle := input.seoTitle,
      seoDescription := input.seoDescription,
      publishedAt := if status == StatusPublished then Some(now) else None,
      likeCount := Some(0),
      createdAt := now,
      updatedAt := now)
  }

  function CreateBlogPostEffect(s: DbState, freshId: Id, input: CreateBlogPostInput, now: Time)
    : (DbState, Result<BlogPost>)
  {
    var (s', r) := InsertPost(s, freshId, NewPostRow(input, now));
    match r
    case Err(e) => (s', Err(Failed(Ascii("create blog post"), e)))
    case Ok(id) => (s', Ok(CreatedPost(id, input, now)))
  }

  /** `freshId` stands for the id the database generates. */
  method CreateBlogPost(db: DB, input: CreateBlogPostInput, now: Time, freshId: Id) returns (r: Result<BlogPost>)
    modifies db
    ensures (db.State(), r) == CreateBlogPostEffect(old(db.State()), freshId, input, now)
  {
    var status := StatusDraft;
    if input.status.Some? {
      status := input.status.value;
    }
    var publishedAt: Option<Time> := None;
    if status == StatusPublished {
      publishedAt := Some(now);
    }
    var post := BlogPost([], input.title, input.slug, input.excerpt, input.content, input.coverImageUrl, input.tags,
                         status, input.seoTitle, input.seoDescription, publishedAt, Some(0), now, now);
    var row := PostRow(post.title, post.slug, NullStringToPtr(PtrToNullString(post.excerpt)), post.content,
                       NullStringToPtr(PtrToNullString(post.coverImageUrl)), post.tags, post.status.name,
                       NullStringToPtr(PtrToNullString(post.seoTitle)),
                       NullStringToPtr(PtrToNullString(post.seoDescription)), post.publishedAt, post.likeCount,
                       now, now);
    var id := db.ExecInsertPost(freshId, row);
    match id
    case Err(e) =>
      return Err(Failed(Ascii("create blog post"), e));
    case Ok(newId) =>
      return Ok(post.(id := newId, createdAt := now, updatedAt := now));
  }

  /** DeleteBlogPost's answer: whether a row was deleted. */
  function DeleteBlogPostEffect(s: DbState, id: Id): (DbState, Result<bool>) {
    var (s', r) := DeletePostRow(s, id);
    match r
    case Err(e) => (s', Err(Failed(Ascii("delete blog post"), e)))
    case Ok(n) => (s', Ok(n > 0))
  }

  method DeleteBlogPost(db: DB, id: Id) returns (r: Result<bool>)
    modifies db
    ensures (db.State(), r) == DeleteBlogPostEffect(old(db.State()), id)
  {
    var result := db.ExecDeletePost(id);
    match result
    case Err(e) =>
      return Err(Failed(Ascii("delete blog post"), e));
    case Ok(rowsAffected) =>
      return Ok(rowsAffected > 0);
  }

  /** LikeBlogPost accepts the id of a related-content entry: "blog-" is cut off an id longer than the prefix. */
  function StripBlogPrefix(id: Id): (clean: Id)
    ensures HasPrefix(id, Ascii("blog-")) && |id| > 5 ==> id == Ascii("blog-") + clean
    ensures !(HasPrefix(id, Ascii("blog-")) && |id| > 5) ==> clean == id
  {
    if |id| > 5 && id[..5] == Ascii("blog-") then id[5..] else id
  }

  /**
   * The like counter as RETURNING reports it; no row is sql.ErrNoRows, and
   * scanning a NULL count into an int would fail.
   */
  function LikeBlogPostEffect(s: DbState, id: Id, now: Time): (DbState, Result<LikeResponse>) {
    var cleanId := StripBlogPrefix(id);
    var (s', w) := PostWrite(s, cleanId, PostLike, now);
    match w
    case Err(e) => (s', Err(Failed(Ascii("like blog post"), e)))
    case Ok(None) => (s', Err(Failed(Ascii("like blog post"), Sql(NoRows))))
    case Ok(Some(row)) =>
      match row.likeCount
      case None => (s', Err(Failed(Ascii("like blog post"), Sql(TypeMismatch))))
      case Some(n) => (s', Ok(LikeResponse(cleanId, n, true)))
  }

  method LikeBlogPost(db: DB, id: Id, now: Time) returns (r: Result<LikeResponse>)
    modifies db
    ensures (db.State(), r) == LikeBlogPostEffect(old(db.State()), id, now)
  {
    var cleanId := id;
    if |id| > 5 && id[..5] == Ascii("blog-") {
      cleanId := id[5..];
    }
    var stmt := UpdateStmt([IncrementCount(PostLikeCount), SetNow(PostUpdatedAt)], 1);
    PostStmtWrites(db.State(), PostLike, cleanId, now);
    var w := db.ExecUpdatePosts(stmt, [SqlText(cleanId)], now);
    match w
    case Err(e) =>
      return Err(Failed(Ascii("like blog post"), e));
    case Ok(None) =>
      return Err(Failed(Ascii("like blog post"), Sql(NoRows)));
    case Ok(Some(row)) =>
      match row.likeCount
      case None =>
        return Err(Failed(Ascii("like blog post"), Sql(TypeMismatch)));
      case Some(likeCount) =>
        return Ok(LikeResponse(cleanId, likeCount, true));
  }

  // ---------------------------------------------------------------------------
  // UpdateMonologue's SET list
  // ---------------------------------------------------------------------------

  /** content, content_type, code_language, code_snippet and tags, as UpdateMonologue appends them. */
  function MonoContentParts(acc: (seq<SetClause<MonologueColumn>>, seq<SqlValue>), input: UpdateMonologueInput, now: Time)
    : (seq<SetClause<MonologueColumn>>, seq<SqlValue>)
  {
    var p1 := AddItem(acc, SetItem(input.content.Some?, MonoContent, SqlText(input.content.GetOr([])), false));
    var p2 := AddItem(p1, SetItem(input.contentType.Some?, MonoContentType, SqlText(input.contentType.GetOr(ContentPost).name), false));
    var p3 := AddItem(p2, SetItem(input.codeLanguage.Some?, MonoCodeLanguage, NullStringArg(PtrToNullString(input.codeLanguage)), false));
    var p4 := AddItem(p3, SetItem(input.codeSnippet.Some?, MonoCodeSnippet, NullStringArg(PtrToNullString(input.codeSnippet)), false));
    var p5 := AddItem(p4, SetItem(input.tags.Some?, MonoTags, SqlTextArray(input.tags.GetOr([])), false));
    p5
  }

  /** is_published (with the COALESCE of published_at when it is true), url, series and category. */
  function MonoMetaParts(acc: (seq<SetClause<MonologueColumn>>, seq<SqlValue>), input: UpdateMonologueInput, now: Time)
    : (seq<SetClause<MonologueColumn>>, seq<SqlValue>)
  {
    var p1 := AddItem(acc, SetItem(input.isPublished.Some?, MonoIsPublished, SqlBool(input.isPublished.GetOr(false)), false));
    var p2 := AddItem(p1, SetItem(input.isPublished == Some(true), MonoPublishedAt, SqlTime(now), true));
    var p3 := AddItem(p2, SetItem(input.url.Some?, MonoUrl, NullStringArg(PtrToNullString(input.url)), false));
    var p4 := AddItem(p3, SetItem(input.series.Some?, MonoSeries, NullStringArg(PtrToNullString(input.series)), false));
    var p5 := AddItem(p4, SetItem(input.category.Some?, MonoCategory, NullStringArg(PtrToNullString(input.category)), false));
    p5
  }

  /** The SET list and arguments UpdateMonologue builds. */
  function MonoUpdateParts(input: UpdateMonologueInput, now: Time): (seq<SetClause<MonologueColumn>>, seq<SqlValue>) {
    MonoMetaParts(MonoContentParts(([SetNow(MonoUpdatedAt)], []), input, now), input, now)
  }

  /**
   * Partial-update semantics of a monologue: as for blog posts, and setting
   * is_published to true dates the monologue only if it had no publication
   * date, while setting it to false keeps the date.
   */
  function MergedMonologue(r: MonologueRow, input: UpdateMonologueInput, now: Time): MonologueRow {
    r.(content := input.content.GetOr(r.content),
       contentType := if input.contentType.Some? then input.contentType.value.name else r.contentType,
       codeLanguage := if input.codeLanguage.Some? then input.codeLanguage else r.codeLanguage,
       codeSnippet := if input.codeSnippet.Some? then input.codeSnippet else r.codeSnippet,
       tags := input.tags.GetOr(r.tags),
       isPublished := input.isPublished.GetOr(r.isPublished),
       publishedAt := if input.isPublished == Some(true) && r.publishedAt.None? then Some(now) else r.publishedAt,
       url := if input.url.Some? then input.url else r.url,
       series := if input.series.Some? then input.series else r.series,
       category := if input.category.Some? then input.category else r.category,
       updatedAt := now)
  }

  lemma MonoContentStep(row: MonologueRow, acc: (seq<SetClause<MonologueColumn>>, seq<SqlValue>), r: MonologueRow, input: UpdateMonologueInput, now: Time)
    requires Numbered(acc) && ApplySet(row, acc.0, acc.1, now, ReadMonologue, AssignMonologue) == Ok(r)
    ensures var p := AddItem(acc, SetItem(input.content.Some?, MonoContent, SqlText(input.content.GetOr([])), false));
            Numbered(p) && ApplySet(row, p.0, p.1, now, ReadMonologue, AssignMonologue) == Ok(r.(content := input.content.GetOr(r.content)))
  {
    AddItemSpec(row, acc, SetItem(input.content.Some?, MonoContent, SqlText(input.content.GetOr([])), false), now, ReadMonologue, AssignMonologue);
  }

  lemma MonoContentTypeStep(row: MonologueRow, acc: (seq<SetClause<MonologueColumn>>, seq<SqlValue>), r: MonologueRow, input: UpdateMonologueInput, now: Time)
    requires Numbered(acc) && ApplySet(row, acc.0, acc.1, now, ReadMonologue, AssignMonologue) == Ok(r)
    ensures var p := AddItem(acc, SetItem(input.contentType.Some?, MonoContentType, SqlText(input.contentType.GetOr(ContentPost).name), false));
            Numbered(p) && ApplySet(row, p.0, p.1, now, ReadMonologue, AssignMonologue) == Ok(r.(contentType := if input.contentType.Some? then input.contentType.value.name else r.contentType))
  {
    AddItemSpec(row, acc, SetItem(input.contentType.Some?, MonoContentType, SqlText(input.contentType.GetOr(ContentPost).name), false), now, ReadMonologue, AssignMonologue);
  }

  lemma MonoCodeLanguageStep(row: MonologueRow, acc: (seq<SetClause<MonologueColumn>>, seq<SqlValue>), r: MonologueRow, input: UpdateMonologueInput, now: Time)
    requires Numbered(acc) && ApplySet(row, acc.0, acc.1, now, ReadMonologue, AssignMonologue) == Ok(r)
    ensures var p := AddItem(acc, SetItem(input.codeLanguage.Some?, MonoCodeLanguage, NullStringArg(PtrToNullString(input.codeLanguage)), false));
            Numbered(p) && ApplySet(row, p.0, p.1, now, ReadMonologue, AssignMonologue) == Ok(r.(codeLanguage := if input.codeLanguage.Some? then input.codeLanguage else r.codeLanguage))
  {
    AddItemSpec(row, acc, SetItem(input.codeLanguage.Some?, MonoCodeLanguage, NullStringArg(PtrToNullString(input.codeLanguage)), false), now, ReadMonologue, AssignMonologue);
  }

  lemma MonoCodeSnippetStep(row: MonologueRow, acc: (seq<SetClause<MonologueColumn>>, seq<SqlValue>), r: MonologueRow, input: UpdateMonologueInput, now: Time)
    requires Numbered(acc) && ApplySet(row, acc.0, acc.1, now, ReadMonologue, AssignMonologue) == Ok(r)
    ensures var p := AddItem(acc, SetItem(input.codeSnippet.Some?, MonoCodeSnippet, NullStringArg(PtrToNullString(input.codeSnippet)), false));
            Numbered(p) && ApplySet(row, p.0, p.1, now, ReadMonologue, AssignMonologue) == Ok(r.(codeSnippet := if input.codeSnippet.Some? then input.codeSnippet else r.codeSnippet))
  {
    AddItemSpec(row, acc, SetItem(input.codeSnippet.Some?, MonoCodeSnippet, NullStringArg(PtrToNullString(input.codeSnippet)), false), now, ReadMonologue, AssignMonologue);
  }

  lemma MonoTagsStep(row: MonologueRow, acc: (seq<SetClause<MonologueColumn>>, seq<SqlValue>), r: MonologueRow, input: UpdateMonologueInput, now: Time)
    requires Numbered(acc) && ApplySet(row, acc.0, acc.1, now, ReadMonologue, AssignMonologue) == Ok(r)
    ensures var p := AddItem(acc, SetItem(input.tags.Some?, MonoTags, SqlTextArray(input.tags.GetOr([])), false));
            Numbered(p) && ApplySet(row, p.0, p.1, now, ReadMonologue, AssignMonologue) == Ok(r.(tags := input.tags.GetOr(r.tags)))
  {
    AddItemSpec(row, acc, SetItem(input.tags.Some?, MonoTags, SqlTextArray(input.tags.GetOr([])), false), now, ReadMonologue, AssignMonologue);
  }

  lemma MonoIsPublishedStep(row: MonologueRow, acc: (seq<SetClause<MonologueColumn>>, seq<SqlValue>), r: MonologueRow, input: UpdateMonologueInput, now: Time)
    requires Numbered(acc) && ApplySet(row, acc.0, acc.1, now, ReadMonologue, AssignMonologue) == Ok(r)
    ensures var p := AddItem(acc, SetItem(input.isPublished.Some?, MonoIsPublished, SqlBool(input.isPublished.GetOr(false)), false));
            Numbered(p) && ApplySet(row, p.0, p.1, now, ReadMonologue, AssignMonologue) == Ok(r.(isPublished := input.isPublished.GetOr(r.isPublished)))
  {
    AddItemSpec(row, acc, SetItem(input.isPublished.Some?, MonoIsPublished, SqlBool(input.isPublished.GetOr(false)), false), now, ReadMonologue, AssignMonologue);
  }

  lemma MonoPublishedAtStep(row: MonologueRow, acc: (seq<SetClause<MonologueColumn>>, seq<SqlValue>), r: MonologueRow, input: UpdateMonologueInput, now: Time)
    requires Numbered(acc) && ApplySet(row, acc.0, acc.1, now, ReadMonologue, AssignMonologue) == Ok(r)
    ensures var p := AddItem(acc, SetItem(input.isPublished == Some(true), MonoPublishedAt, SqlTime(now), true));
            Numbered(p) && ApplySet(row, p.0, p.1, now, ReadMonologue, AssignMonologue) == Ok(r.(publishedAt := if input.isPublished == Some(true) then (if row.publishedAt.Some? then row.publishedAt else Some(now)) else r.publishedAt))
  {
    AddItemSpec(row, acc, SetItem(input.isPublished == Some(true), MonoPublishedAt, SqlTime(now), true), now, ReadMonologue, AssignMonologue);
  }

  lemma MonoUrlStep(row: MonologueRow, acc: (seq<SetClause<MonologueColumn>>, seq<SqlValue>), r: MonologueRow, input: UpdateMonologueInput, now: Time)
    requires Numbered(acc) && ApplySet(row, acc.0, acc.1, now, ReadMonologue, AssignMonologue) == Ok(r)
    ensures var p := AddItem(acc, SetItem(input.url.Some?, MonoUrl, NullStringArg(PtrToNullString(input.url)), false));
            Numbered(p) && ApplySet(row, p.0, p.1, now, ReadMonologue, AssignMonologue) == Ok(r.(url := if input.url.Some? then input.url else r.url))
  {
    AddItemSpec(row, acc, SetItem(input.url.Some?, MonoUrl, NullStringArg(PtrToNullString(input.url)), false), now, ReadMonologue, AssignMonologue);
  }

  lemma MonoSeriesStep(row: MonologueRow, acc: (seq<SetClause<MonologueColumn>>, seq<SqlValue>), r: MonologueRow, input: UpdateMonologueInput, now: Time)
    requires Numbered(acc) && ApplySet(row, acc.0, acc.1, now, ReadMonologue, AssignMonologue) == Ok(r)
    ensures var p := AddItem(acc, SetItem(input.series.Some?, MonoSeries, NullStringArg(PtrToNullString(input.series)), false));
            Numbered(p) && ApplySet(row, p.0, p.1, now, ReadMonologue, AssignMonologue) == Ok(r.(series := if input.series.Some? then input.series else r.series))
  {
    AddItemSpec(row, acc, SetItem(input.series.Some?, MonoSeries, NullStringArg(PtrToNullString(input.series)), false), now, ReadMonologue, AssignMonologue);
  }

  lemma MonoCategoryStep(row: MonologueRow, acc: (seq<SetClause<MonologueColumn>>, seq<SqlValue>), r: MonologueRow, input: UpdateMonologueInput, now: Time)
    requires Numbered(acc) && ApplySet(row, acc.0, acc.1, now, ReadMonologue, AssignMonologue) == Ok(r)
    ensures var p := AddItem(acc, SetItem(input.category.Some?, MonoCategory, NullStringArg(PtrToNullString(input.category)), false));
            Numbered(p) && ApplySet(row, p.0, p.1, now, ReadMonologue, AssignMonologue) == Ok(r.(category := if input.category.Some? then input.category else r.category))
  {
    AddItemSpec(row, acc, SetItem(input.category.Some?, MonoCategory, NullStringArg(PtrToNullString(input.category)), false), now, ReadMonologue, AssignMonologue);
  }

  lemma MonoContentPartsDo(row: MonologueRow, acc: (seq<SetClause<MonologueColumn>>, seq<SqlValue>), r: MonologueRow, input: UpdateMonologueInput, now: Time)
    requires Numbered(acc) && ApplySet(row, acc.0, acc.1, now, ReadMonologue, AssignMonologue) == Ok(r)
    ensures var p := MonoContentParts(acc, input, now);
            && Numbered(p)
            && ApplySet(row, p.0, p.1, now, ReadMonologue, AssignMonologue) ==
               Ok(r.(content := input.content.GetOr(r.content),
                  contentType := if input.contentType.Some? then input.contentType.value.name else r.contentType,
                  codeLanguage := if input.codeLanguage.Some? then input.codeLanguage else r.codeLanguage,
                  codeSnippet := if input.codeSnippet.Some? then input.codeSnippet else r.codeSnippet,
                  tags := input.tags.GetOr(r.tags)))
  {
    MonoContentStep(row, acc, r, input, now);
    var p1, r1 := AddItem(acc, SetItem(input.content.Some?, MonoContent, SqlText(input.content.GetOr([])), false)), r.(content := input.content.GetOr(r.content));
    MonoContentTypeStep(row, p1, r1, input, now);
    var p2, r2 := AddItem(p1, SetItem(input.contentType.Some?, MonoContentType, SqlText(input.contentType.GetOr(ContentPost).name), false)), r1.(contentType := if input.contentType.Some? then input.contentType.value.name else r1.contentType);
    MonoCodeLanguageStep(row, p2, r2, input, now);
    var p3, r3 := AddItem(p2, SetItem(input.codeLanguage.Some?, MonoCodeLanguage, NullStringArg(PtrToNullString(input.codeLanguage)), false)), r2.(codeLanguage := if input.codeLanguage.Some? then input.codeLanguage else r2.codeLanguage);
    MonoCodeSnippetStep(row, p3, r3, input, now);
    var p4, r4 := AddItem(p3, SetItem(input.codeSnippet.Some?, MonoCodeSnippet, NullStringArg(PtrToNullString(input.codeSnippet)), false)), r3.(codeSnippet := if input.codeSnippet.Some? then input.codeSnippet else r3.codeSnippet);
    MonoTagsStep(row, p4, r4, input, now);
    var p5, r5 := AddItem(p4, SetItem(input.tags.Some?, MonoTags, SqlTextArray(input.tags.GetOr([])), false)), r4.(tags := input.tags.GetOr(r4.tags));
  }

  lemma MonoMetaPartsDo(row: MonologueRow, acc: (seq<SetClause<MonologueColumn>>, seq<SqlValue>), r: MonologueRow, input: UpdateMonologueInput, now: Time)
    requires Numbered(acc) && ApplySet(row, acc.0, acc.1, now, ReadMonologue, AssignMonologue) == Ok(r)
    ensures var p := MonoMetaParts(acc, input, now);
            && Numbered(p)
            && ApplySet(row, p.0, p.1, now, ReadMonologue, AssignMonologue) ==
               Ok(r.(isPublished := input.isPublished.GetOr(r.isPublished),
                  publishedAt := if input.isPublished == Some(true) then (if row.publishedAt.Some? then row.publishedAt else Some(now)) else r.publishedAt,
                  url := if input.url.Some? then input.url else r.url,
                  series := if input.series.Some? then input.series else r.series,
                  category := if input.category.Some? then input.category else r.category))
  {
    MonoIsPublishedStep(row, acc, r, input, now);
    var p1, r1 := AddItem(acc, SetItem(input.isPublished.Some?, MonoIsPublished, SqlBool(input.isPublished.GetOr(false)), false)), r.(isPublished := input.isPublished.GetOr(r.isPublished));
    MonoPublishedAtStep(row, p1, r1, input, now);
    var p2, r2 := AddItem(p1, SetItem(input.isPublished == Some(true), MonoPublishedAt, SqlTime(now), true)), r1.(publishedAt := if input.isPublished == Some(true) then (if row.publishedAt.Some? then row.publishedAt else Some(now)) else r1.publishedAt);
    MonoUrlStep(row, p2, r2, input, now);
    var p3, r3 := AddItem(p2, SetItem(input.url.Some?, MonoUrl, NullStringArg(PtrToNullString(input.url)), false)), r2.(url := if input.url.Some? then input.url else r2.url);
    MonoSeriesStep(row, p3, r3, input, now);
    var p4, r4 := AddItem(p3, SetItem(input.series.Some?, MonoSeries, NullStringArg(PtrToNullString(input.series)), false)), r3.(series := if input.series.Some? then input.series else r3.series);
    MonoCategoryStep(row, p4, r4, input, now);
    var p5, r5 := AddItem(p4, SetItem(input.category.Some?, MonoCategory, NullStringArg(PtrToNullString(input.category)), false)), r4.(category := if input.category.Some? then input.category else r4.category);
  }

  /** The assignments UpdateMonologue builds turn a row into MergedMonologue of it. */
  lemma MonoPartsMerge(row: MonologueRow, input: UpdateMonologueInput, now: Time)
    ensures Numbered(MonoUpdateParts(input, now))
    ensures ApplySet(row, MonoUpdateParts(input, now).0, MonoUpdateParts(input, now).1, now,
                     ReadMonologue, AssignMonologue) ==
            Ok(MergedMonologue(row, input, now))
  {
    StampSpec(MonoUpdatedAt, now, ReadMonologue, AssignMonologue, row);
    var r := row.(updatedAt := now);
    MonoContentPartsDo(row, ([SetNow(MonoUpdatedAt)], []), r, input, now);
    MonoMetaPartsDo(row, MonoContentParts(([SetNow(MonoUpdatedAt)], []), input, now),
                    r.(content := input.content.GetOr(r.content),
                       contentType := if input.contentType.Some? then input.contentType.value.name else r.contentType,
                       codeLanguage := if input.codeLanguage.Some? then input.codeLanguage else r.codeLanguage,
                       codeSnippet := if input.codeSnippet.Some? then input.codeSnippet else r.codeSnippet,
                       tags := input.tags.GetOr(r.tags)),
                    input, now);
  }

  // ---------------------------------------------------------------------------
  // Monologue UPDATE statements
  // ---------------------------------------------------------------------------

  /** What one mutation does to a monologue row. */
  datatype MonologueEdit = MonoMerge(input: UpdateMonologueInput) | MonoPublish | MonoUnpublish | MonoLike

  /**
   * The row after the edit: unlike a blog post, publishing a monologue always
   * dates it now and unpublishing clears the date.
   */
  function ApplyMonologueEdit(e: MonologueEdit, r: MonologueRow, now: Time): Result<MonologueRow> {
    match e
    case MonoMerge(input) => Ok(MergedMonologue(r, input, now))
    case MonoPublish => Ok(r.(isPublished := true, publishedAt := Some(now), updatedAt := now))
    case MonoUnpublish => Ok(r.(isPublished := false, publishedAt := None, updatedAt := now))
    case MonoLike =>
      var n := r.likeCount.GetOr(0) + 1;
      if n <= MaxInt32 then Ok(r.(likeCount := Some(n), updatedAt := now)) else Err(Sql(IntegerOutOfRange))
  }

  /** The UPDATE statement and arguments each mutation sends for the monologue `id`. */
  function MonologueStmt(e: MonologueEdit, id: Id, now: Time): (UpdateStmt<MonologueColumn>, seq<SqlValue>) {
    match e
    case MonoMerge(input) => UpdateFor(MonoUpdateParts(input, now), id)
    case MonoPublish =>
      (UpdateStmt([SetLiteral(MonoIsPublished, SqlBool(true)), SetParam(MonoPublishedAt, 1), SetNow(MonoUpdatedAt)], 2),
       [SqlTime(now), SqlText(id)])
    case MonoUnpublish =>
      (UpdateStmt([SetLiteral(MonoIsPublished, SqlBool(false)), SetLiteral(MonoPublishedAt, SqlNull),
                   SetNow(MonoUpdatedAt)], 1),
       [SqlText(id)])
    case MonoLike =>
      (UpdateStmt([IncrementCount(MonoLikeCount), SetNow(MonoUpdatedAt)], 1), [SqlText(id)])
  }

  /** An edit applied to the monologue `id`: None when there is no such monologue. */
  function MonologueWrite(s: DbState, id: Id, e: MonologueEdit, now: Time)
    : (DbState, Result<Option<MonologueRow>>)
  {
    if !s.online then (s, Err(Sql(Unavailable)))
    else if id !in s.monologues then (s, Ok(None))
    else
      match ApplyMonologueEdit(e, s.monologues[id], now)
      case Err(err) => (s, Err(err))
      case Ok(row) =>
        if MonologueRowOk(s, row) then (s.(monologues := s.monologues[id := row]), Ok(Some(row)))
        else (s, Err(Sql(RowError(MonologueLengthsOk(row)))))
  }

  ghost predicate MonologueStmtDoes(e: MonologueEdit, id: Id, now: Time, row: MonologueRow) {
    var (stmt, args) := MonologueStmt(e, id, now);
    && ParamsMatch(StmtParams(stmt), |args|)
    && 1 <= stmt.whereParam <= |args| && args[stmt.whereParam - 1] == SqlText(id)
    && ApplySet(row, stmt.assignments, args, now, ReadMonologue, AssignMonologue) == ApplyMonologueEdit(e, row, now)
  }

  lemma MonoMergeShape(input: UpdateMonologueInput, id: Id, now: Time, row: MonologueRow)
    ensures MonologueStmtDoes(MonoMerge(input), id, now, row)
  {
    MonoPartsMerge(row, input, now);
    UpdateForSpec(MonoUpdateParts(input, now), id, now, ReadMonologue, AssignMonologue, row);
  }

  lemma MonoPublishShape(id: Id, now: Time, row: MonologueRow)
    ensures MonologueStmtDoes(MonoPublish, id, now, row)
  {
    var (stmt, args) := MonologueStmt(MonoPublish, id, now);
    MonoPublishSets(id, now, row);
    ThreeClauses(row, stmt.assignments, args, now, ReadMonologue, AssignMonologue);
    assert StmtParams(stmt) == [1, 2];
    ConsecutiveParamsMatch(StmtParams(stmt));
  }

  /** The SET list of publishMonologue marks the row published, dated now. */
  lemma MonoPublishSets(id: Id, now: Time, row: MonologueRow)
    ensures ApplySet(row, MonologueStmt(MonoPublish, id, now).0.assignments, MonologueStmt(MonoPublish, id, now).1, now,
                     ReadMonologue, AssignMonologue) == ApplyMonologueEdit(MonoPublish, row, now)
  {
    var (stmt, args) := MonologueStmt(MonoPublish, id, now);
    ThreeClauses(row, stmt.assignments, args, now, ReadMonologue, AssignMonologue);
    var r1 := row.(isPublished := true);
    var r2 := r1.(publishedAt := Some(now));
    assert ApplyClauseTo(Ok(row), row, stmt.assignments[0], args, now, ReadMonologue, AssignMonologue) == Ok(r1);
    assert ApplyClauseTo(Ok(r1), row, stmt.assignments[1], args, now, ReadMonologue, AssignMonologue) == Ok(r2);
    assert ApplyClauseTo(Ok(r2), row, stmt.assignments[2], args, now, ReadMonologue, AssignMonologue) ==
           Ok(r2.(updatedAt := now));
  }

  lemma MonoUnpublishShape(id: Id, now: Time, row: MonologueRow)
    ensures MonologueStmtDoes(MonoUnpublish, id, now, row)
  {
    var (stmt, args) := MonologueStmt(MonoUnpublish, id, now);
    MonoUnpublishSets(id, now, row);
    ThreeClauses(row, stmt.assignments, args, now, ReadMonologue, AssignMonologue);
    assert StmtParams(stmt) == [1];
    ConsecutiveParamsMatch(StmtParams(stmt));
  }

  /** The SET list of unpublishMonologue unpublishes the monologue and clears its date. */
  lemma MonoUnpublishSets(id: Id, now: Time, row: MonologueRow)
    ensures ApplySet(row, MonologueStmt(MonoUnpublish, id, now).0.assignments, MonologueStmt(MonoUnpublish, id, now).1, now,
                     ReadMonologue, AssignMonologue) == ApplyMonologueEdit(MonoUnpublish, row, now)
  {
    var (stmt, args) := MonologueStmt(MonoUnpublish, id, now);
    ThreeClauses(row, stmt.assignments, args, now, ReadMonologue, AssignMonologue);
    var r1 := row.(isPublished := false);
    var r2 := r1.(publishedAt := None);
    assert ApplyClauseTo(Ok(row), row, stmt.assignments[0], args, now, ReadMonologue, AssignMonologue) == Ok(r1);
    assert ApplyClauseTo(Ok(r1), row, stmt.assignments[1], args, now, ReadMonologue, AssignMonologue) == Ok(r2);
    assert ApplyClauseTo(Ok(r2), row, stmt.assignments[2], args, now, ReadMonologue, AssignMonologue) ==
           Ok(r2.(updatedAt := now));
  }

  lemma MonoLikeShape(id: Id, now: Time, row: MonologueRow)
    ensures MonologueStmtDoes(MonoLike, id, now, row)
  {
    var (stmt, args) := MonologueStmt(MonoLike, id, now);
    MonoLikeSets(id, now, row);
    TwoClauses(row, stmt.assignments, args, now, ReadMonologue, AssignMonologue);
    assert StmtParams(stmt) == [1];
    ConsecutiveParamsMatch(StmtParams(stmt));
  }

  /** The SET list of likeMonologue adds one like, within the 32-bit range. */
  lemma MonoLikeSets(id: Id, now: Time, row: MonologueRow)
    ensures ApplySet(row, MonologueStmt(MonoLike, id, now).0.assignments, MonologueStmt(MonoLike, id, now).1, now,
                     ReadMonologue, AssignMonologue) == ApplyMonologueEdit(MonoLike, row, now)
  {
    var (stmt, args) := MonologueStmt(MonoLike, id, now);
    TwoClauses(row, stmt.assignments, args, now, ReadMonologue, AssignMonologue);
  }

  /** The statement each mutation sends edits exactly the monologue it names. */
  lemma MonologueStmtWrites(s: DbState, e: MonologueEdit, id: Id, now: Time)
    ensures UpdateMonologues(s, MonologueStmt(e, id, now).0, MonologueStmt(e, id, now).1, now) ==
            MonologueWrite(s, id, e, now)
  {
    var row := if id in s.monologues then s.monologues[id]
               else MonologueRow([], [], None, None, [], false, None, None, None, None, None, None, None, 0, 0);
    match e
    case MonoMerge(input) => MonoMergeShape(input, id, now, row);
    case MonoPublish => MonoPublishShape(id, now, row);
    case MonoUnpublish => MonoUnpublishShape(id, now, row);
    case MonoLike => MonoLikeShape(id, now, row);
  }

  /** The builder's appends for content, content_type, code_language, code_snippet and tags, as UpdateMonologue appends them. */
  method AppendMonoContent(setParts0: seq<SetClause<MonologueColumn>>, args0: seq<SqlValue>, argIndex0: nat, input: UpdateMonologueInput, now: Time)
    returns (setParts: seq<SetClause<MonologueColumn>>, args: seq<SqlValue>, argIndex: nat)
    requires argIndex0 == |args0| + 1
    ensures (setParts, args) == MonoContentParts((setParts0, args0), input, now)
    ensures argIndex == |args| + 1
  {
    setParts, args, argIndex := setParts0, args0, argIndex0;
    ghost var parts := (setParts0, args0);
    if input.content.Some? {
      setParts, args, argIndex := setParts + [SetParam(MonoContent, argIndex)], args + [SqlText(input.content.value)], argIndex + 1;
    }
    parts := AddItem(parts, SetItem(input.content.Some?, MonoContent, SqlText(input.content.GetOr([])), false));
    assert (setParts, args) == parts && argIndex == |args| + 1;
    if input.contentType.Some? {
      setParts, args, argIndex := setParts + [SetParam(MonoContentType, argIndex)], args + [SqlText(input.contentType.value.name)], argIndex + 1;
    }
    parts := AddItem(parts, SetItem(input.contentType.Some?, MonoContentType, SqlText(input.contentType.GetOr(ContentPost).name), false));
    assert (setParts, args) == parts && argIndex == |args| + 1;
    if input.codeLanguage.Some? {
      setParts, args, argIndex := setParts + [SetParam(MonoCodeLanguage, argIndex)], args + [NullStringArg(PtrToNullString(input.codeLanguage))], argIndex + 1;
    }
    parts := AddItem(parts, SetItem(input.codeLanguage.Some?, MonoCodeLanguage, NullStringArg(PtrToNullString(input.codeLanguage)), false));
    assert (setParts, args) == parts && argIndex == |args| + 1;
    if input.codeSnippet.Some? {
      setParts, args, argIndex := setParts + [SetParam(MonoCodeSnippet, argIndex)], args + [NullStringArg(PtrToNullString(input.codeSnippet))], argIndex + 1;
    }
    parts := AddItem(parts, SetItem(input.codeSnippet.Some?, MonoCodeSnippet, NullStringArg(PtrToNullString(input.codeSnippet)), false));
    assert (setParts, args) == parts && argIndex == |args| + 1;
    if input.tags.Some? {
      setParts, args, argIndex := setParts + [SetParam(MonoTags, argIndex)], args + [SqlTextArray(input.tags.value)], argIndex + 1;
    }
    parts := AddItem(parts, SetItem(input.tags.Some?, MonoTags, SqlTextArray(input.tags.GetOr([])), false));
    assert (setParts, args) == parts && argIndex == |args| + 1;
  }

  /** The builder's appends for is_published (with the COALESCE of published_at when it is true), url, series and category. */
  method AppendMonoMeta(setParts0: seq<SetClause<MonologueColumn>>, args0: seq<SqlValue>, argIndex0: nat, input: UpdateMonologueInput, now: Time)
    returns (setParts: seq<SetClause<MonologueColumn>>, args: seq<SqlValue>, argIndex: nat)
    requires argIndex0 == |args0| + 1
    ensures (setParts, args) == MonoMetaParts((setParts0, args0), input, now)
    ensures argIndex == |args| + 1
  {
    setParts, args, argIndex := setParts0, args0, argIndex0;
    ghost var parts := (setParts0, args0);
    if input.isPublished.Some? {
      setParts, args, argIndex := setParts + [SetParam(MonoIsPublished, argIndex)], args + [SqlBool(input.isPublished.value)], argIndex + 1;
      if input.isPublished.value {
        setParts, args, argIndex := setParts + [SetParamIfNull(MonoPublishedAt, argIndex)], args + [SqlTime(now)], argIndex + 1;
      }
    }
    parts := AddItem(AddItem(parts, SetItem(input.isPublished.Some?, MonoIsPublished, SqlBool(input.isPublished.GetOr(false)), false)), SetItem(input.isPublished == Some(true), MonoPublishedAt, SqlTime(now), true));
    assert (setParts, args) == parts && argIndex == |args| + 1;
    if input.url.Some? {
      setParts, args, argIndex := setParts + [SetParam(MonoUrl, argIndex)], args + [NullStringArg(PtrToNullString(input.url))], argIndex + 1;
    }
    parts := AddItem(parts, SetItem(input.url.Some?, MonoUrl, NullStringArg(PtrToNullString(input.url)), false));
    assert (setParts, args) == parts && argIndex == |args| + 1;
    if input.series.Some? {
      setParts, args, argIndex := setParts + [SetParam(MonoSeries, argIndex)], args + [NullStringArg(PtrToNullString(input.series))], argIndex + 1;
    }
    parts := AddItem(parts, SetItem(input.series.Some?, MonoSeries, NullStringArg(PtrToNullString(input.series)), false));
    assert (setParts, args) == parts && argIndex == |args| + 1;
    if input.category.Some? {
      setParts, args, argIndex := setParts + [SetParam(MonoCategory, argIndex)], args + [NullStringArg(PtrToNullString(input.category))], argIndex + 1;
    }
    parts := AddItem(parts, SetItem(input.category.Some?, MonoCategory, NullStringArg(PtrToNullString(input.category)), false));
    assert (setParts, args) == parts && argIndex == |args| + 1;
  }

  /**
   * UpdateMonologue's dynamic query builder, built like UpdateBlogPost's.
   */
  method BuildMonoUpdate(id: Id, input: UpdateMonologueInput, now: Time)
    returns (stmt: UpdateStmt<MonologueColumn>, args: seq<SqlValue>)
    ensures (stmt, args) == MonologueStmt(MonoMerge(input), id, now)
  {
    var setParts := [SetNow(MonoUpdatedAt)];
    var argIndex := 1;
    setParts, args, argIndex := AppendMonoContent(setParts, [], argIndex, input, now);
    setParts, args, argIndex := AppendMonoMeta(setParts, args, argIndex, input, now);
    stmt := UpdateStmt(setParts, argIndex);
    args := args + [SqlText(id)];
  }

  // ---------------------------------------------------------------------------
  // URL previews
  // ---------------------------------------------------------------------------

  /** The mock preview CreateURLPreview makes for a url; no page is fetched. */
  function GeneratedPreview(url: Bytes, now: Time): URLPreview {
    URLPreview(
      title := Ascii("Generated Preview"),
      description := Some(Ascii("This is a generated preview for ") + url),
      imageUrl := Some(Ascii("https://via.placeholder.com/400x200")),
      siteName := Some(Ascii("Example Site")),
      url := url,
      favicon := Some(Ascii("https://via.placeholder.com/32x32")),
      createdAt := now)
  }

  /** The url_previews row stored for it, owned by the monologue. */
  function GeneratedPreviewRow(monologueId: Id, url: Bytes, now: Time): PreviewRow {
    PreviewRow(
      monologueId := Some(monologueId),
      title := Ascii("Generated Preview"),
      description := Some(Ascii("This is a generated preview for ") + url),
      imageUrl := Some(Ascii("https://via.placeholder.com/400x200")),
      siteName := Some(Ascii("Example Site")),
      url := url,
      favicon := Some(Ascii("https://via.placeholder.com/32x32")),
      createdAt := now)
  }

  /** The generated preview fits url_previews whenever its url fits the url column. */
  lemma GeneratedPreviewFits(monologueId: Id, url: Bytes, now: Time)
    requires FitsVarchar(url, 2048)
    ensures PreviewLengthsOk(GeneratedPreviewRow(monologueId, url, now))
  {
    CharLengthBounds(Ascii("Generated Preview"));
    CharLengthBounds(Ascii("https://via.placeholder.com/400x200"));
    CharLengthBounds(Ascii("Example Site"));
    CharLengthBounds(Ascii("https://via.placeholder.com/32x32"));
  }

  function CreateURLPreviewEffect(s: DbState, monologueId: Id, url: Bytes, now: Time): (DbState, Result<URLPreview>) {
    var (s', r) := InsertPreview(s, GeneratedPreviewRow(monologueId, url, now));
    match r
    case Err(e) => (s', Err(Failed(Ascii("create URL preview"), e)))
    case Ok(_) => (s', Ok(GeneratedPreview(url, now)))
  }

  method CreateURLPreview(db: DB, monologueId: Id, url: Bytes, now: Time) returns (r: Result<URLPreview>)
    modifies db
    ensures (db.State(), r) == CreateURLPreviewEffect(old(db.State()), monologueId, url, now)
  {
    var preview := URLPreview(
      Ascii("Generated Preview"), Some(Ascii("This is a generated preview for ") + url),
      Some(Ascii("https://via.placeholder.com/400x200")), Some(Ascii("Example Site")), url,
      Some(Ascii("https://via.placeholder.com/32x32")), now);
    var row := PreviewRow(
      Some(monologueId), preview.title, NullStringToPtr(PtrToNullString(preview.description)),
      NullStringToPtr(PtrToNullString(preview.imageUrl)), NullStringToPtr(PtrToNullString(preview.siteName)),
      preview.url, NullStringToPtr(PtrToNullString(preview.favicon)), now);
    var result := db.ExecInsertPreview(row);
    match result
    case Err(e) =>
      return Err(Failed(Ascii("create URL preview"), e));
    case Ok(_) =>
      return Ok(preview);
  }

  method DeleteURLPreviewByMonologueID(db: DB, monologueId: Id) returns (r: Result<()>)
    modifies db
    ensures (db.State(), r) == DeletePreviewsOf(old(db.State()), monologueId)
  {
    r := db.ExecDeletePreviewsOf(monologueId);
  }

  // ---------------------------------------------------------------------------
  // Monologue mutations
  // ---------------------------------------------------------------------------

  /** GetMonologueByID's answer in a state: a missing monologue is no monologue and no error. */
  function MonologueById(s: DbState, id: Id): Result<Option<Monologue>> {
    if !s.online then Err(Sql(Unavailable))
    else Ok(if id in s.monologues then Some(MonologueEntity(s, id, s.monologues[id])) else None)
  }

  /** An UPDATE on the monologue followed by GetMonologueByID; an UPDATE error is wrapped with the action. */
  function MonologueMutation(s: DbState, id: Id, e: MonologueEdit, now: Time, action: Bytes)
    : (DbState, Result<Option<Monologue>>)
  {
    var (s', w) := MonologueWrite(s, id, e, now);
    match w
    case Err(err) => (s', Err(Failed(action, err)))
    case Ok(_) => (s', MonologueById(s', id))
  }

  /**
   * UpdateMonologue's preview handling when the input names a url: the
   * monologue's previews are deleted and, unless the url is empty, a new one
   * is generated; the errors of both are ignored.
   */
  function RegeneratePreview(s: DbState, id: Id, url: Option<Bytes>, now: Time): DbState {
    match url
    case None => s
    case Some(u) =>
      var s' := DeletePreviewsOf(s, id).0;
      if u != [] then CreateURLPreviewEffect(s', id, u, now).0 else s'
  }

  function UpdateMonologueEffect(s: DbState, id: Id, input: UpdateMonologueInput, now: Time)
    : (DbState, Result<Option<Monologue>>)
  {
    var (s1, w) := MonologueWrite(s, id, MonoMerge(input), now);
    match w
    case Err(e) => (s1, Err(Failed(Ascii("update monologue"), e)))
    case Ok(_) =>
      var s2 := RegeneratePreview(s1, id, input.url, now);
      (s2, MonologueById(s2, id))
  }

  method UpdateMonologue(db: DB, id: Id, input: UpdateMonologueInput, now: Time) returns (r: Result<Option<Monologue>>)
    modifies db
    ensures (db.State(), r) == UpdateMonologueEffect(old(db.State()), id, input, now)
  {
    var stmt, args := BuildMonoUpdate(id, input, now);
    var urlChanged := input.url.Some?;
    MonologueStmtWrites(db.State(), MonoMerge(input), id, now);
    var w := db.ExecUpdateMonologues(stmt, args, now);
    match w
    case Err(e) =>
      return Err(Failed(Ascii("update monologue"), e));
    case Ok(_) =>
      if urlChanged && input.url.Some? {
        var deleted := DeleteURLPreviewByMonologueID(db, id);
        if input.url.value != [] {
          var created := CreateURLPreview(db, id, input.url.value, now);
        }
      }
      r := GetMonologueByID(db, id);
  }

  method PublishMonologue(db: DB, id: Id, now: Time) returns (r: Result<Option<Monologue>>)
    modifies db
    ensures (db.State(), r) == MonologueMutation(old(db.State()), id, MonoPublish, now, Ascii("publish monologue"))
  {
    var stmt := UpdateStmt([SetLiteral(MonoIsPublished, SqlBool(true)), SetParam(MonoPublishedAt, 1),
                            SetNow(MonoUpdatedAt)], 2);
    MonologueStmtWrites(db.State(), MonoPublish, id, now);
    var w := db.ExecUpdateMonologues(stmt, [SqlTime(now), SqlText(id)], now);
    match w
    case Err(e) =>
      return Err(Failed(Ascii("publish monologue"), e));
    case Ok(_) =>
      r := GetMonologueByID(db, id);
  }

  method UnpublishMonologue(db: DB, id: Id, now: Time) returns (r: Result<Option<Monologue>>)
    modifies db
    ensures (db.State(), r) == MonologueMutation(old(db.State()), id, MonoUnpublish, now, Ascii("unpublish monologue"))
  {
    var stmt := UpdateStmt([SetLiteral(MonoIsPublished, SqlBool(false)), SetLiteral(MonoPublishedAt, SqlNull),
                            SetNow(MonoUpdatedAt)], 1);
    MonologueStmtWrites(db.State(), MonoUnpublish, id, now);
    var w := db.ExecUpdateMonologues(stmt, [SqlText(id)], now);
    match w
    case Err(e) =>
      return Err(Failed(Ascii("unpublish monologue"), e));
    case Ok(_) =>
      r := GetMonologueByID(db, id);
  }

  function LikeMonologueEffect(s: DbState, id: Id, now: Time): (DbState, Result<LikeResponse>) {
    var (s', w) := MonologueWrite(s, id, MonoLike, now);
    match w
    case Err(e) => (s', Err(Failed(Ascii("like monologue"), e)))
    case Ok(None) => (s', Err(Failed(Ascii("like monologue"), Sql(NoRows))))
    case Ok(Some(row)) =>
      match row.likeCount
      case None => (s', Err(Failed(Ascii("like monologue"), Sql(TypeMismatch))))
      case Some(n) => (s', Ok(LikeResponse(id, n, true)))
  }

  method LikeMonologue(db: DB, id: Id, now: Time) returns (r: Result<LikeResponse>)
    modifies db
    ensures (db.State(), r) == LikeMonologueEffect(old(db.State()), id, now)
  {
    var stmt := UpdateStmt([IncrementCount(MonoLikeCount), SetNow(MonoUpdatedAt)], 1);
    MonologueStmtWrites(db.State(), MonoLike, id, now);
    var w := db.ExecUpdateMonologues(stmt, [SqlText(id)], now);
    match w
    case Err(e) =>
      return Err(Failed(Ascii("like monologue"), e));
    case Ok(None) =>
      return Err(Failed(Ascii("like monologue"), Sql(NoRows)));
    case Ok(Some(row)) =>
      match row.likeCount
      case None =>
        return Err(Failed(Ascii("like monologue"), Sql(TypeMismatch)));
      case Some(likeCount) =>
        return Ok(LikeResponse(id, likeCount, true));
  }

  /**
   * The row CreateMonologue inserts: unpublished unless the input says
   * otherwise, dated now when published, no code category or difficulty, and
   * like_count at its column default 0.
   */
  function NewMonologueRow(input: CreateMonologueInput, now: Time): MonologueRow {
    var isPublished := input.isPublished.GetOr(false);
    MonologueRow(
      content := input.content,
      contentType := input.contentType.name,
      codeLanguage := input.codeLanguage,
      codeSnippet := input.codeSnippet,
      tags := input.tags,
      isPublished := isPublished,
      publishedAt := if isPublished then Some(now) else None,
      url := input.url,
      series := input.series,
      category := input.category,
      codeCategoryId := None,
      difficulty := None,
      likeCount := Some(0),
      createdAt := now,
      updatedAt := now)
  }

  /** The monologue CreateMonologue returns, with the preview it managed to generate, if any. */
  function CreatedMonologue(id: Id, input: CreateMonologueInput, now: Time, preview: Option<URLPreview>): Monologue {
    var isPublished := input.isPublished.GetOr(false);
    Monologue(
      id := id,
      content := input.content,
      contentType := input.contentType,
      codeLanguage := input.codeLanguage,
      codeSnippet := input.codeSnippet,
      tags := input.tags,
      isPublished := isPublished,
      publishedAt := if isPublished then Some(now) else None,
      createdAt := now,
      updatedAt := now,
      url := input.url,
      urlPreview := preview,
      series := input.series,
      category := input.category,
      likeCount := Some(0),
      codeCategory := None,
      difficulty := None)
  }

  /** A url, even an empty one, gets a generated preview; the preview's failure is ignored. */
  function CreateMonologueEffect(s: DbState, freshId: Id, input: CreateMonologueInput, now: Time)
    : (DbState, Result<Monologue>)
  {
    var (s1, r) := InsertMonologue(s, freshId, NewMonologueRow(input, now));
    match r
    case Err(e) => (s1, Err(Failed(Ascii("create monologue"), e)))
    case Ok(id) =>
      match input.url
      case None => (s1, Ok(CreatedMonologue(id, input, now, None)))
      case Some(u) =>
        var (s2, p) := CreateURLPreviewEffect(s1, id, u, now);
        (s2, Ok(CreatedMonologue(id, input, now, match p case Ok(preview) => Some(preview) case Err(_) => None)))
  }

  method CreateMonologue(db: DB, input: CreateMonologueInput, now: Time, freshId: Id) returns (r: Result<Monologue>)
    modifies db
    ensures (db.State(), r) == CreateMonologueEffect(old(db.State()), freshId, input, now)
  {
    var isPublished := false;
    if input.isPublished.Some? {
      isPublished := input.isPublished.value;
    }
    var publishedAt: Option<Time> := None;
    if isPublished {
      publishedAt := Some(now);
    }
    var mono := Monologue([], input.content, input.contentType, input.codeLanguage, input.codeSnippet, input.tags,
                          isPublished, publishedAt, now, now, input.url, None, input.series, input.category,
                          Some(0), None, None);
    var row := MonologueRow(mono.content, mono.contentType.name, NullStringToPtr(PtrToNullString(mono.codeLanguage)),
                            NullStringToPtr(PtrToNullString(mono.codeSnippet)), mono.tags, mono.isPublished,
                            mono.publishedAt, NullStringToPtr(PtrToNullString(mono.url)),
                            NullStringToPtr(PtrToNullString(mono.series)),
                            NullStringToPtr(PtrToNullString(mono.category)), None, None, Some(0), now, now);
    var id := db.ExecInsertMonologue(freshId, row);
    match id
    case Err(e) =>
      return Err(Failed(Ascii("create monologue"), e));
    case Ok(newId) =>
      mono := mono.(id := newId, createdAt := now, updatedAt := now);
      if mono.url.Some? {
        var preview := CreateURLPreview(db, newId, mono.url.value, now);
        match preview
        case Ok(p) =>
          mono := mono.(urlPreview := Some(p));
        case Err(_) =>
      }
      return Ok(mono);
  }

  /** The previews go first (their failure ignored); the monologue's row is then deleted. */
  function DeleteMonologueEffect(s: DbState, id: Id): (DbState, Result<bool>) {
    var s1 := DeletePreviewsOf(s, id).0;
    var (s2, r) := DeleteMonologueRow(s1, id);
    match r
    case Err(e) => (s2, Err(Failed(Ascii("delete monologue"), e)))
    case Ok(n) => (s2, Ok(n > 0))
  }

  method DeleteMonologue(db: DB, id: Id) returns (r: Result<bool>)
    modifies db
    ensures (db.State(), r) == DeleteMonologueEffect(old(db.State()), id)
  {
    var ignored := DeleteURLPreviewByMonologueID(db, id);
    var result := db.ExecDeleteMonologue(id);
    match result
    case Err(e) =>
      return Err(Failed(Ascii("delete monologue"), e));
    case Ok(rowsAffected) =>
      return Ok(rowsAffected > 0);
  }

}
