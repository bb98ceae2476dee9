/**
 * What the mutations of internal/database/mutations.go guarantee about blog
 * posts: partial updates, publication dates that never move, the like
 * counter, creation defaults and read-back, deletion, and the absence policy.
 */
module PostProperties {
  import opened Base
  import opened Models
  import opened Sql
  import opened Store
  import opened Services
  import opened Mutations

  // ---------------------------------------------------------------------------
  // Partial updates
  // ---------------------------------------------------------------------------

  /** An update that names no field only moves updated_at. */
  lemma EmptyPostUpdateStampsOnly(r: PostRow, now: Time)
    ensures MergedPost(r, EmptyPostUpdate, now) == r.(updatedAt := now)
  {
  }

  /** Sending the same update twice (at the same instant) changes nothing the first did not. */
  lemma MergedPostIdempotent(r: PostRow, input: UpdateBlogPostInput, now: Time)
    ensures MergedPost(MergedPost(r, input, now), input, now) == MergedPost(r, input, now)
  {
  }

  /** A nullable field named by the update is set, never cleared: nil means "leave it". */
  lemma MergedPostNeverClears(r: PostRow, input: UpdateBlogPostInput, now: Time)
    ensures r.excerpt.Some? ==> MergedPost(r, input, now).excerpt.Some?
    ensures r.coverImageUrl.Some? ==> MergedPost(r, input, now).coverImageUrl.Some?
    ensures r.seoTitle.Some? ==> MergedPost(r, input, now).seoTitle.Some?
    ensures r.seoDescription.Some? ==> MergedPost(r, input, now).seoDescription.Some?
  {
  }

  /** A present empty string is stored as "", not NULL, and a present empty tag list empties the tags. */
  lemma MergedPostStoresEmptyValues(r: PostRow, now: Time)
    ensures MergedPost(r, EmptyPostUpdate.(excerpt := Some([])), now).excerpt == Some([])
    ensures MergedPost(r, EmptyPostUpdate.(title := Some([])), now).title == []
    ensures MergedPost(r, EmptyPostUpdate.(tags := Some([])), now).tags == []
  {
  }

  // ---------------------------------------------------------------------------
  // Publication dates
  // ---------------------------------------------------------------------------

  /** A published post carries a date. */
  predicate PostDated(r: PostRow) {
    r.status == StatusPublished.name ==> r.publishedAt.Some?
  }

  ghost predicate PostsDated(s: DbState) {
    forall id :: id in s.posts ==> PostDated(s.posts[id])
  }

  /** Once a post has a publication date, no mutation moves it: republishing keeps the first date. */
  lemma PostDateSticky(e: PostEdit, r: PostRow, now: Time)
    requires r.publishedAt.Some?
    ensures ApplyPostEdit(e, r, now).Ok? ==> ApplyPostEdit(e, r, now).value.publishedAt == r.publishedAt
  {
  }

  /** Publishing, by PublishBlogPost or by an update to PUBLISHED, dates an undated post now. */
  lemma PostPublishDates(r: PostRow, input: UpdateBlogPostInput, now: Time)
    requires r.publishedAt.None?
    ensures ApplyPostEdit(PostPublish, r, now).value.publishedAt == Some(now)
    ensures input.status == Some(StatusPublished) ==> MergedPost(r, input, now).publishedAt == Some(now)
    ensures input.status != Some(StatusPublished) ==> MergedPost(r, input, now).publishedAt.None?
  {
  }

  /** Every mutation keeps published posts dated. */
  lemma PostEditKeepsDated(e: PostEdit, r: PostRow, now: Time)
    requires PostDated(r)
    ensures ApplyPostEdit(e, r, now).Ok? ==> PostDated(ApplyPostEdit(e, r, now).value)
  {
  }

  /** A sequence of edits, each at its own instant. */
  function ApplyPostEdits(es: seq<(PostEdit, Time)>, r: PostRow): Result<PostRow>
    decreases |es|
  {
    if es == [] then Ok(r)
    else
      match ApplyPostEdit(es[0].0, r, es[0].1)
      case Err(e) => Err(e)
      case Ok(r') => ApplyPostEdits(es[1..], r')
  }

  /**
   * Over any history of edits that succeeds, a post that had a date keeps it,
   * and a dated post stays dated: publish, unpublish, publish again gives the
   * first date back.
   */
  lemma {:induction false} PostHistoryKeepsDate(es: seq<(PostEdit, Time)>, r: PostRow)
    requires PostDated(r)
    ensures ApplyPostEdits(es, r).Ok? ==> PostDated(ApplyPostEdits(es, r).value)
    ensures ApplyPostEdits(es, r).Ok? && r.publishedAt.Some? ==>
              ApplyPostEdits(es, r).value.publishedAt == r.publishedAt
    decreases |es|
  {
    if es != [] {
      var (e, now) := es[0];
      PostEditKeepsDated(e, r, now);
      match ApplyPostEdit(e, r, now)
      case Err(_) =>
      case Ok(r') =>
        if r.publishedAt.Some? {
          PostDateSticky(e, r, now);
        }
        PostHistoryKeepsDate(es[1..], r');
    }
  }

  /** Republishing after an unpublish: the post is live again with its original date. */
  lemma RepublishKeepsFirstDate(r: PostRow, t1: Time, t2: Time, t3: Time)
    ensures ApplyPostEdits([(PostPublish, t1), (PostUnpublish, t2), (PostPublish, t3)], r) ==
            Ok(r.(status := StatusPublished.name,
                  publishedAt := if r.publishedAt.Some? then r.publishedAt else Some(t1),
                  updatedAt := t3))
  {
    var es: seq<(PostEdit, Time)> := [(PostPublish, t1), (PostUnpublish, t2), (PostPublish, t3)];
    var r1 := r.(status := StatusPublished.name, publishedAt := if r.publishedAt.Some? then r.publishedAt else Some(t1),
                 updatedAt := t1);
    var r2 := r1.(status := StatusDraft.name, updatedAt := t2);
    assert es[1..] == [(PostUnpublish, t2), (PostPublish, t3)];
    assert es[1..][1..] == [(PostPublish, t3)];
    assert |es[1..][1..][1..]| == 0;
    assert ApplyPostEdits(es[1..][1..], r2) == ApplyPostEdit(PostPublish, r2, t3);
    assert ApplyPostEdits(es[1..], r1) == ApplyPostEdits(es[1..][1..], r2);
  }

  /** Every blog-post mutation keeps every published post of the store dated. */
  lemma PostWriteKeepsDated(s: DbState, id: Id, e: PostEdit, now: Time)
    requires PostsDated(s)
    ensures PostsDated(PostWrite(s, id, e, now).0)
  {
    if s.online && id in s.posts {
      PostEditKeepsDated(e, s.posts[id], now);
    }
  }

  lemma CreatePostKeepsDated(s: DbState, freshId: Id, input: CreateBlogPostInput, now: Time)
    requires PostsDated(s)
    ensures PostsDated(CreateBlogPostEffect(s, freshId, input, now).0)
  {
  }

  // ---------------------------------------------------------------------------
  // Update, publish and unpublish as the client sees them
  // ---------------------------------------------------------------------------

  /**
   * The outcome of an edit of an existing post on a reachable store: the
   * edited post as re-read, or the wrapped error with nothing changed.
   */
  lemma PostMutationOutcome(s: DbState, id: Id, e: PostEdit, now: Time, action: Bytes, step: Bytes)
    requires s.online && id in s.posts
    ensures var (s', r) := PostMutation(s, id, e, now, action, step);
            match ApplyPostEdit(e, s.posts[id], now)
            case Err(err) => s' == s && r == Err(Failed(action, err))
            case Ok(row) =>
              if PostRowOk(s, id, row) then s' == s.(posts := s.posts[id := row]) && r == Ok(PostEntity(id, row))
              else s' == s && r == Err(Failed(action, Sql(RowError(PostLengthsOk(row)))))
  {
  }

  /** A post that does not exist is "not found after <step>", and nothing changes. */
  lemma PostMutationNotFound(s: DbState, id: Id, e: PostEdit, now: Time, action: Bytes, step: Bytes)
    requires s.online && id !in s.posts
    ensures PostMutation(s, id, e, now, action, step) == (s, Err(NotFoundAfter(step)))
  {
  }

  /**
   * Every error is the wrapped UPDATE error or "not found after". The store's
   * reachability is fixed for the whole operation, so the model has no error
   * of the re-read alone.
   */
  lemma PostMutationErrors(s: DbState, id: Id, e: PostEdit, now: Time, action: Bytes, step: Bytes)
    ensures var r := PostMutation(s, id, e, now, action, step).1;
            r.Err? ==> (r.error.Failed? && r.error.action == action) || r.error == NotFoundAfter(step)
  {
  }

  /** Publishing or unpublishing a post of a consistent store always succeeds. */
  lemma PublishUnpublishSucceed(s: DbState, id: Id, now: Time)
    requires Consistent(s) && s.online && id in s.posts
    ensures PostMutation(s, id, PostPublish, now, Ascii("publish blog post"), Ascii("publish")).1.Ok?
    ensures PostMutation(s, id, PostPublish, now, Ascii("publish blog post"), Ascii("publish")).1.value.status ==
            StatusPublished
    ensures PostMutation(s, id, PostUnpublish, now, Ascii("unpublish blog post"), Ascii("unpublish")).1.Ok?
    ensures PostMutation(s, id, PostUnpublish, now, Ascii("unpublish blog post"), Ascii("unpublish")).1.value.status ==
            StatusDraft
  {
    var before := s.posts[id];
    PostStatusWrite(s, id, PostPublish, now);
    PostStatusWrite(s, id, PostUnpublish, now);
    var published := ApplyPostEdit(PostPublish, before, now).value;
    var drafted := ApplyPostEdit(PostUnpublish, before, now).value;
    assert PostMutation(s, id, PostPublish, now, Ascii("publish blog post"), Ascii("publish")).1 ==
           Ok(PostEntity(id, published));
    assert PostMutation(s, id, PostUnpublish, now, Ascii("unpublish blog post"), Ascii("unpublish")).1 ==
           Ok(PostEntity(id, drafted));
  }

  /** Publishing or unpublishing one post of a consistent store: the row passes its constraints and is written. */
  lemma PostStatusWrite(s: DbState, id: Id, e: PostEdit, now: Time)
    requires Consistent(s) && s.online && id in s.posts && (e.PostPublish? || e.PostUnpublish?)
    ensures ApplyPostEdit(e, s.posts[id], now).Ok?
    ensures var row := ApplyPostEdit(e, s.posts[id], now).value;
            && row.status == (if e.PostPublish? then StatusPublished.name else StatusDraft.name)
            && PostWrite(s, id, e, now) == (s.(posts := s.posts[id := row]), Ok(Some(row)))
  {
    StatusNamesFit();
    var before := s.posts[id];
    assert PostRowOk(s, id, before);
    var row := ApplyPostEdit(e, before, now).value;
    assert PostLengthsOk(row);
    assert PostRowOk(s, id, row);
  }

  /**
   * Taking the slug of another post is refused by the UNIQUE constraint, or
   * as a value too long if another field of the update is over-long; nothing
   * changes.
   */
  lemma UpdateToTakenSlugFails(s: DbState, id: Id, other: Id, input: UpdateBlogPostInput, now: Time)
    requires s.online && id in s.posts && other in s.posts && other != id
    requires input.slug == Some(s.posts[other].slug)
    ensures PostMutation(s, id, PostMerge(input), now, Ascii("update blog post"), Ascii("update")) ==
            (s, Err(Failed(Ascii("update blog post"), Sql(RowError(PostLengthsOk(MergedPost(s.posts[id], input, now)))))))
  {
  }

  /** A title longer than VARCHAR(500) is refused; nothing changes. */
  lemma UpdateToLongTitleFails(s: DbState, id: Id, input: UpdateBlogPostInput, now: Time)
    requires s.online && id in s.posts
    requires input.title.Some? && !FitsVarchar(input.title.value, 500)
    ensures PostMutation(s, id, PostMerge(input), now, Ascii("update blog post"), Ascii("update")) ==
            (s, Err(Failed(Ascii("update blog post"), Sql(ValueTooLong))))
  {
  }

  // ---------------------------------------------------------------------------
  // Likes
  // ---------------------------------------------------------------------------

  lemma StripBlogPrefixExamples()
    ensures StripBlogPrefix(Ascii("blog-abc")) == Ascii("abc")
    ensures StripBlogPrefix(Ascii("blog-")) == Ascii("blog-")
    ensures StripBlogPrefix(Ascii("blog-blog-x")) == Ascii("blog-x")
    ensures StripBlogPrefix(Ascii("abc")) == Ascii("abc")
  {
    assert Ascii("blog-abc")[..5] == Ascii("blog-");
    assert Ascii("blog-abc")[5..] == Ascii("abc");
    assert Ascii("blog-blog-x")[..5] == Ascii("blog-");
    assert Ascii("blog-blog-x")[5..] == Ascii("blog-x");
  }

  /** The like statement on one post row: +1 (NULL counting as 0) within the INTEGER range. */
  lemma PostLikeWrite(s: DbState, id: Id, now: Time)
    requires s.online && (id in s.posts ==> PostRowOk(s, id, s.posts[id]))
    ensures PostWrite(s, id, PostLike, now) ==
            if id !in s.posts then (s, Ok(None))
            else
              var n := s.posts[id].likeCount.GetOr(0) + 1;
              var row := s.posts[id].(likeCount := Some(n), updatedAt := now);
              if n <= MaxInt32 then (s.(posts := s.posts[id := row]), Ok(Some(row)))
              else (s, Err(Sql(IntegerOutOfRange)))
  {
    if id in s.posts {
      var before := s.posts[id];
      var n := before.likeCount.GetOr(0) + 1;
      var row := before.(likeCount := Some(n), updatedAt := now);
      if n <= MaxInt32 {
        assert ApplyPostEdit(PostLike, before, now) == Ok(row);
        LikedPostRowOk(s, id, before, n, now);
      } else {
        assert ApplyPostEdit(PostLike, before, now) == Err(Sql(IntegerOutOfRange));
      }
    }
  }

  /**
   * A like on a reachable store: a missing post is sql.ErrNoRows; otherwise
   * the count goes up by one (NULL counting as 0) and is reported, unless it
   * would leave the 32-bit range, which fails and changes nothing.
   */
  lemma LikeBlogPostOutcome(s: DbState, id: Id, now: Time)
    requires Consistent(s) && s.online
    ensures var clean := StripBlogPrefix(id);
            var (s', r) := LikeBlogPostEffect(s, id, now);
            if clean !in s.posts then s' == s && r == Err(Failed(Ascii("like blog post"), Sql(NoRows)))
            else
              var n := s.posts[clean].likeCount.GetOr(0) + 1;
              if n <= MaxInt32 then
                && r == Ok(LikeResponse(clean, n, true))
                && s' == s.(posts := s.posts[clean := s.posts[clean].(likeCount := Some(n), updatedAt := now)])
              else s' == s && r == Err(Failed(Ascii("like blog post"), Sql(IntegerOutOfRange)))
  {
    var clean := StripBlogPrefix(id);
    var like := Ascii("like blog post");
    if clean !in s.posts {
      PostLikeWrite(s, clean, now);
      assert LikeBlogPostEffect(s, id, now) == (s, Err(Failed(like, Sql(NoRows))));
    } else {
      assert PostRowOk(s, clean, s.posts[clean]);
      PostLikeWrite(s, clean, now);
      var n := s.posts[clean].likeCount.GetOr(0) + 1;
      if n <= MaxInt32 {
        var s' := s.(posts := s.posts[clean := s.posts[clean].(likeCount := Some(n), updatedAt := now)]);
        assert LikeBlogPostEffect(s, id, now) == (s', Ok(LikeResponse(clean, n, true)));
      } else {
        assert LikeBlogPostEffect(s, id, now) == (s, Err(Failed(like, Sql(IntegerOutOfRange))));
      }
    }
  }

  // ---------------------------------------------------------------------------
  // Creation
  // ---------------------------------------------------------------------------

  /**
   * On a reachable store and a fresh id, creation fails exactly when the
   * status is not a member of the CHECK list, the slug is taken, or a value
   * is longer than its VARCHAR column admits.
   */
  lemma CreateBlogPostFails(s: DbState, freshId: Id, input: CreateBlogPostInput, now: Time)
    requires s.online && freshId !in s.posts
    ensures var (s', r) := CreateBlogPostEffect(s, freshId, input, now);
            && (r.Err? <==> || input.status.GetOr(StatusDraft).name !in PostStatusNames
                            || (exists other :: other in s.posts && s.posts[other].slug == input.slug)
                            || !FitsVarchar(input.title, 500)
                            || !FitsVarchar(input.slug, 500)
                            || !FitsNullable(input.coverImageUrl, 2048)
                            || !FitsNullable(input.seoTitle, 500))
            && (r.Err? ==> s' == s && r.error == Failed(Ascii("create blog post"),
                                                        Sql(RowError(PostLengthsOk(NewPostRow(input, now))))))
  {
  }

  /**
   * The post CreateBlogPost returns is the post a later read returns: a
   * DRAFT by default, dated iff PUBLISHED, with no likes.
   */
  lemma CreatedPostReadsBack(s: DbState, freshId: Id, input: CreateBlogPostInput, now: Time)
    requires CreateBlogPostEffect(s, freshId, input, now).1.Ok?
    ensures var (s', r) := CreateBlogPostEffect(s, freshId, input, now);
            && freshId in s'.posts
            && r.value == PostEntity(freshId, s'.posts[freshId])
            && r.value.status == input.status.GetOr(StatusDraft)
            && (r.value.publishedAt.Some? <==> r.value.status == StatusPublished)
            && r.value.likeCount == Some(0)
  {
    NullStringRoundTrip(input.excerpt);
    NullStringRoundTrip(input.coverImageUrl);
    NullStringRoundTrip(input.seoTitle);
    NullStringRoundTrip(input.seoDescription);
  }

  // ---------------------------------------------------------------------------
  // Deletion
  // ---------------------------------------------------------------------------

  /** Deleting reports whether the post existed; afterwards it does not, and the other posts are as they were. */
  lemma DeleteBlogPostOutcome(s: DbState, id: Id)
    requires s.online
    ensures var (s', r) := DeleteBlogPostEffect(s, id);
            && r == Ok(id in s.posts)
            && id !in s'.posts
            && (forall other :: other != id ==> (other in s'.posts <==> other in s.posts))
            && (forall other :: other != id && other in s.posts ==> s'.posts[other] == s.posts[other])
  {
  }

  // ---------------------------------------------------------------------------
  // Consistency
  // ---------------------------------------------------------------------------

  /** Every blog-post mutation leaves a consistent store consistent. */
  lemma PostMutationsKeepConsistent(s: DbState, id: Id, e: PostEdit, now: Time, freshId: Id,
                                    input: CreateBlogPostInput)
    requires Consistent(s)
    ensures Consistent(PostWrite(s, id, e, now).0)
    ensures Consistent(CreateBlogPostEffect(s, freshId, input, now).0)
    ensures Consistent(DeleteBlogPostEffect(s, id).0)
  {
    PostStmtWrites(s, e, id, now);
    UpdatePostsConsistent(s, PostStmt(e, id, now).0, PostStmt(e, id, now).1, now);
    InsertPostConsistent(s, freshId, NewPostRow(input, now));
    DeletePostConsistent(s, id);
  }
}
