/**
 * What the mutations of internal/database/mutations.go guarantee about
 * monologues and their generated URL previews: which previews a monologue
 * owns after each mutation, the publication-date policy (which differs from
 * blog posts), creation read-back, the absence policy and deletion.
 */
module MonologueProperties {
  import opened Base
  import opened Models
  import opened Sql
  import opened Store
  import opened Services
  import opened Mutations
  import PostProperties

  // ---------------------------------------------------------------------------
  // The previews a monologue owns
  // ---------------------------------------------------------------------------

  /** The url_previews rows of one monologue, in storage order. */
  function PreviewsOf(ps: seq<PreviewRow>, id: Id): (r: seq<PreviewRow>)
    ensures |r| <= |ps|
    decreases |ps|
  {
    if ps == [] then []
    else if ps[0].monologueId == Some(id) then [ps[0]] + PreviewsOf(ps[1..], id)
    else PreviewsOf(ps[1..], id)
  }

  lemma {:induction false} PreviewsOfAppend(ps: seq<PreviewRow>, p: PreviewRow, id: Id)
    ensures PreviewsOf(ps + [p], id) == PreviewsOf(ps, id) + (if p.monologueId == Some(id) then [p] else [])
    decreases |ps|
  {
    if ps == [] {
      assert [p][1..] == [];
      assert ps + [p] == [p];
    } else {
      assert (ps + [p])[0] == ps[0];
      assert (ps + [p])[1..] == ps[1..] + [p];
      PreviewsOfAppend(ps[1..], p, id);
    }
  }

  /** Deleting a monologue's previews leaves it none and every other monologue its own. */
  lemma {:induction false} PreviewsOfNotOf(ps: seq<PreviewRow>, id: Id, other: Id)
    ensures PreviewsOf(PreviewsNotOf(ps, id), other) == if other == id then [] else PreviewsOf(ps, other)
    decreases |ps|
  {
    if ps != [] {
      PreviewsOfNotOf(ps[1..], id, other);
      if ps[0].monologueId != Some(id) {
        assert ([ps[0]] + PreviewsNotOf(ps[1..], id))[0] == ps[0];
        assert ([ps[0]] + PreviewsNotOf(ps[1..], id))[1..] == PreviewsNotOf(ps[1..], id);
      }
    }
  }

  /** The preview a monologue is read with is the first of its previews. */
  lemma {:induction false} FirstPreviewIsHead(ps: seq<PreviewRow>, id: Id)
    ensures FirstPreviewOf(ps, id) == if PreviewsOf(ps, id) == [] then None else Some(PreviewsOf(ps, id)[0])
    decreases |ps|
  {
    if ps != [] && ps[0].monologueId != Some(id) {
      FirstPreviewIsHead(ps[1..], id);
    }
  }

  /** A monologue no preview references owns none, and deleting its previews deletes nothing. */
  lemma {:induction false} UnreferencedPreviews(ps: seq<PreviewRow>, id: Id)
    requires forall i :: 0 <= i < |ps| ==> ps[i].monologueId != Some(id)
    ensures PreviewsOf(ps, id) == []
    ensures PreviewsNotOf(ps, id) == ps
    decreases |ps|
  {
    if ps != [] {
      assert ps[0].monologueId != Some(id);
      assert forall i :: 0 <= i < |ps[1..]| ==> ps[1..][i] == ps[i + 1];
      UnreferencedPreviews(ps[1..], id);
      assert ps == [ps[0]] + ps[1..];
    }
  }

  /** In a consistent store, a monologue id that is not in the table owns no preview. */
  lemma AbsentMonologueHasNoPreviews(s: DbState, id: Id)
    requires Consistent(s) && id !in s.monologues
    ensures PreviewsOf(s.previews, id) == []
    ensures PreviewsNotOf(s.previews, id) == s.previews
  {
    forall i | 0 <= i < |s.previews| ensures s.previews[i].monologueId != Some(id) {
      assert PreviewRowOk(s, s.previews[i]);
    }
    UnreferencedPreviews(s.previews, id);
  }

  /** The generated row reads back as the preview CreateURLPreview returns. */
  lemma GeneratedPreviewReadsBack(id: Id, url: Bytes, now: Time)
    ensures PreviewEntity(GeneratedPreviewRow(id, url, now)) == GeneratedPreview(url, now)
    ensures GeneratedPreview(url, now).url == url
    ensures GeneratedPreview(url, now).description == Some(Ascii("This is a generated preview for ") + url)
  {
  }

  /** The API keeps at most one preview per monologue. */
  ghost predicate AtMostOnePreview(s: DbState) {
    forall id :: |PreviewsOf(s.previews, id)| <= 1
  }

  // ---------------------------------------------------------------------------
  // UpdateMonologue
  // ---------------------------------------------------------------------------

  /**
   * An update fails exactly when the merged row breaks a constraint (content_type
   * BLOG or another value a CHECK refuses, a missing category, a value longer
   * than its VARCHAR column), and then nothing changes.
   */
  lemma UpdateMonologueFails(s: DbState, id: Id, input: UpdateMonologueInput, now: Time)
    requires s.online && id in s.monologues
    ensures var (s', r) := UpdateMonologueEffect(s, id, input, now);
            && (r.Err? <==> !MonologueRowOk(s, MergedMonologue(s.monologues[id], input, now)))
            && (r.Err? ==> s' == s && r.error == Failed(Ascii("update monologue"),
                                                        Sql(RowError(MonologueLengthsOk(MergedMonologue(s.monologues[id], input, now))))))
  {
  }

  /** The previews RegeneratePreview leaves for a url: the others, then the generated one if it fits. */
  lemma RegeneratedPreviews(s: DbState, id: Id, u: Bytes, now: Time)
    requires s.online && id in s.monologues
    ensures RegeneratePreview(s, id, Some(u), now) ==
            s.(previews := PreviewsNotOf(s.previews, id) +
                           if u != [] && FitsVarchar(u, 2048) then [GeneratedPreviewRow(id, u, now)] else [])
  {
    if u != [] {
      if FitsVarchar(u, 2048) {
        GeneratedPreviewFits(id, u, now);
      } else {
        assert !PreviewLengthsOk(GeneratedPreviewRow(id, u, now));
      }
    } else {
      assert PreviewsNotOf(s.previews, id) + [] == PreviewsNotOf(s.previews, id);
    }
  }

  /** A code_language longer than VARCHAR(50) is refused; nothing changes. */
  lemma UpdateToLongCodeLanguageFails(s: DbState, id: Id, input: UpdateMonologueInput, now: Time)
    requires s.online && id in s.monologues
    requires input.codeLanguage.Some? && !FitsVarchar(input.codeLanguage.value, 50)
    ensures UpdateMonologueEffect(s, id, input, now) ==
            (s, Err(Failed(Ascii("update monologue"), Sql(ValueTooLong))))
  {
  }

  /**
   * UpdateMonologue's preview step on an existing monologue: with a url the
   * monologue's previews become the single generated one (none for "", and
   * none when the url is too long for url_previews.url, because the failed
   * insert is ignored), without a url nothing changes; other monologues keep
   * their previews.
   */
  lemma RegeneratePreviewOwnership(s: DbState, id: Id, url: Option<Bytes>, now: Time)
    requires s.online && id in s.monologues
    ensures var s' := RegeneratePreview(s, id, url, now);
            && s' == s.(previews := s'.previews)
            && (url.None? ==> s' == s)
            && (url.Some? ==>
                  PreviewsOf(s'.previews, id) ==
                  if url.value != [] && FitsVarchar(url.value, 2048) then [GeneratedPreviewRow(id, url.value, now)]
                  else [])
            && (url.Some? ==>
                  FirstPreviewOf(s'.previews, id) ==
                  if url.value != [] && FitsVarchar(url.value, 2048) then Some(GeneratedPreviewRow(id, url.value, now))
                  else None)
            && forall other :: other != id ==> PreviewsOf(s'.previews, other) == PreviewsOf(s.previews, other)
  {
    if url.Some? {
      var u := url.value;
      var kept := PreviewsNotOf(s.previews, id);
      RegeneratedPreviews(s, id, u, now);
      forall other ensures PreviewsOf(kept, other) == if other == id then [] else PreviewsOf(s.previews, other) {
        PreviewsOfNotOf(s.previews, id, other);
      }
      if u != [] && FitsVarchar(u, 2048) {
        var row := GeneratedPreviewRow(id, u, now);
        forall other ensures PreviewsOf(kept + [row], other) ==
                             PreviewsOf(kept, other) + (if other == id then [row] else []) {
          PreviewsOfAppend(kept, row, other);
        }
        FirstPreviewIsHead(kept + [row], id);
      } else {
        FirstPreviewIsHead(kept, id);
      }
    }
  }

  /**
   * A successful UpdateMonologue that names a url replaces the monologue's
   * previews: exactly one generated preview for a non-empty url, none for "";
   * without a url the previews are untouched. Other monologues keep theirs,
   * and the result is the monologue as re-read.
   */
  lemma UpdateMonologuePreviews(s: DbState, id: Id, input: UpdateMonologueInput, now: Time)
    requires s.online && id in s.monologues
    requires MonologueRowOk(s, MergedMonologue(s.monologues[id], input, now))
    ensures var (s', r) := UpdateMonologueEffect(s, id, input, now);
            && id in s'.monologues
            && s'.monologues == s.monologues[id := MergedMonologue(s.monologues[id], input, now)]
            && r == Ok(Some(MonologueEntity(s', id, s'.monologues[id])))
            && (input.url.None? ==> s'.previews == s.previews)
            && (input.url.Some? ==>
                  PreviewsOf(s'.previews, id) ==
                  if input.url.value != [] then [GeneratedPreviewRow(id, input.url.value, now)] else [])
            && (input.url.Some? ==>
                  r.value.value.urlPreview ==
                  if input.url.value != [] then Some(GeneratedPreview(input.url.value, now)) else None)
            && forall other :: other != id ==> PreviewsOf(s'.previews, other) == PreviewsOf(s.previews, other)
  {
    var s1 := MonologueWrite(s, id, MonoMerge(input), now).0;
    assert s1 == s.(monologues := s.monologues[id := MergedMonologue(s.monologues[id], input, now)]);
    RegeneratePreviewOwnership(s1, id, input.url, now);
    if input.url.Some? && input.url.value != [] {
      assert MergedMonologue(s.monologues[id], input, now).url == input.url;
      GeneratedPreviewReadsBack(id, input.url.value, now);
    }
  }

  /** Updating a monologue that does not exist answers (nil, nil) and changes nothing. */
  lemma UpdateMissingMonologue(s: DbState, id: Id, input: UpdateMonologueInput, now: Time)
    requires Consistent(s) && s.online && id !in s.monologues
    ensures UpdateMonologueEffect(s, id, input, now) == (s, Ok(None))
  {
    AbsentMonologueHasNoPreviews(s, id);
    assert DeletePreviewsOf(s, id).0 == s;
  }

  // ---------------------------------------------------------------------------
  // Publication dates: monologues differ from blog posts
  // ---------------------------------------------------------------------------

  predicate MonologueDated(r: MonologueRow) {
    r.isPublished ==> r.publishedAt.Some?
  }

  /** Every monologue edit keeps a published monologue dated. */
  lemma MonologueEditKeepsDated(e: MonologueEdit, r: MonologueRow, now: Time)
    requires MonologueDated(r)
    ensures ApplyMonologueEdit(e, r, now).Ok? ==> MonologueDated(ApplyMonologueEdit(e, r, now).value)
  {
  }

  /** A monologue created published is dated with the creation time, and one created unpublished is undated. */
  lemma NewMonologueDated(input: CreateMonologueInput, now: Time)
    ensures MonologueDated(NewMonologueRow(input, now))
    ensures NewMonologueRow(input, now).publishedAt == if input.isPublished == Some(true) then Some(now) else None
  {
  }

  /** Every published monologue of the store carries a publication date. */
  ghost predicate MonologuesDated(s: DbState) {
    forall id :: id in s.monologues ==> MonologueDated(s.monologues[id])
  }

  lemma MonologueWriteKeepsDated(s: DbState, id: Id, e: MonologueEdit, now: Time)
    requires MonologuesDated(s)
    ensures MonologuesDated(MonologueWrite(s, id, e, now).0)
  {
    if s.online && id in s.monologues {
      MonologueEditKeepsDated(e, s.monologues[id], now);
    }
  }

  /** The preview step touches previews only. */
  lemma RegeneratePreviewKeepsRows(s: DbState, id: Id, url: Option<Bytes>, now: Time)
    ensures RegeneratePreview(s, id, url, now) == s.(previews := RegeneratePreview(s, id, url, now).previews)
  {
  }

  lemma UpdateMonologueKeepsDated(s: DbState, id: Id, input: UpdateMonologueInput, now: Time)
    requires MonologuesDated(s)
    ensures MonologuesDated(UpdateMonologueEffect(s, id, input, now).0)
  {
    MonologueWriteKeepsDated(s, id, MonoMerge(input), now);
    RegeneratePreviewKeepsRows(MonologueWrite(s, id, MonoMerge(input), now).0, id, input.url, now);
  }

  lemma CreateMonologueKeepsDated(s: DbState, freshId: Id, create: CreateMonologueInput, now: Time)
    requires MonologuesDated(s)
    ensures MonologuesDated(CreateMonologueEffect(s, freshId, create, now).0)
  {
    CreateMonologueState(s, freshId, create, now);
    NewMonologueDated(create, now);
  }

  /** Every monologue mutation keeps the published monologues of the store dated. */
  lemma MonologueMutationsKeepDated(s: DbState, id: Id, e: MonologueEdit, input: UpdateMonologueInput,
                                    create: CreateMonologueInput, freshId: Id, now: Time)
    requires MonologuesDated(s)
    ensures MonologuesDated(MonologueWrite(s, id, e, now).0)
    ensures MonologuesDated(UpdateMonologueEffect(s, id, input, now).0)
    ensures MonologuesDated(CreateMonologueEffect(s, freshId, create, now).0)
    ensures MonologuesDated(DeleteMonologueEffect(s, id).0)
  {
    MonologueWriteKeepsDated(s, id, e, now);
    UpdateMonologueKeepsDated(s, id, input, now);
    CreateMonologueKeepsDated(s, freshId, create, now);
  }

  /**
   * The blog-post mutations keep the published monologues dated, since they
   * leave the monologues as they were, and deleting a post keeps the
   * remaining posts dated.
   */
  lemma PostMutationsKeepBothDated(s: DbState, id: Id, e: PostEdit, create: CreateBlogPostInput, freshId: Id,
                                   now: Time)
    requires PostProperties.PostsDated(s) && MonologuesDated(s)
    ensures PostProperties.PostsDated(DeleteBlogPostEffect(s, id).0)
    ensures MonologuesDated(PostWrite(s, id, e, now).0)
    ensures MonologuesDated(CreateBlogPostEffect(s, freshId, create, now).0)
    ensures MonologuesDated(DeleteBlogPostEffect(s, id).0)
  {
  }

  /** The monologue mutations leave the blog_posts table as it was. */
  lemma MonologueWriteKeepsPosts(s: DbState, id: Id, e: MonologueEdit, now: Time)
    ensures MonologueWrite(s, id, e, now).0.posts == s.posts
  {
  }

  lemma UpdateMonologueKeepsPosts(s: DbState, id: Id, input: UpdateMonologueInput, now: Time)
    ensures UpdateMonologueEffect(s, id, input, now).0.posts == s.posts
  {
    var (s1, w) := MonologueWrite(s, id, MonoMerge(input), now);
    MonologueWriteKeepsPosts(s, id, MonoMerge(input), now);
    RegeneratePreviewKeepsRows(s1, id, input.url, now);
  }

  lemma CreateMonologueKeepsPosts(s: DbState, freshId: Id, create: CreateMonologueInput, now: Time)
    ensures CreateMonologueEffect(s, freshId, create, now).0.posts == s.posts
  {
    CreateMonologueState(s, freshId, create, now);
    var (s1, r) := InsertMonologue(s, freshId, NewMonologueRow(create, now));
    assert s1.posts == s.posts;
    if r.Ok? && create.url.Some? {
      assert InsertPreview(s1, GeneratedPreviewRow(r.value, create.url.value, now)).0.posts == s1.posts;
    }
  }

  lemma DeleteMonologueKeepsPosts(s: DbState, id: Id)
    ensures DeleteMonologueEffect(s, id).0.posts == s.posts
  {
  }

  /** The monologue mutations keep the published posts dated: they leave the posts as they were. */
  lemma MonologueMutationsKeepPostsDated(s: DbState, id: Id, e: MonologueEdit, input: UpdateMonologueInput,
                                         create: CreateMonologueInput, freshId: Id, now: Time)
    requires PostProperties.PostsDated(s)
    ensures PostProperties.PostsDated(MonologueWrite(s, id, e, now).0)
    ensures PostProperties.PostsDated(UpdateMonologueEffect(s, id, input, now).0)
    ensures PostProperties.PostsDated(CreateMonologueEffect(s, freshId, create, now).0)
    ensures PostProperties.PostsDated(DeleteMonologueEffect(s, id).0)
  {
    MonologueWriteKeepsPosts(s, id, e, now);
    UpdateMonologueKeepsPosts(s, id, input, now);
    CreateMonologueKeepsPosts(s, freshId, create, now);
    DeleteMonologueKeepsPosts(s, id);
  }

  /** An update that names no field only moves updated_at. */
  lemma EmptyMonologueUpdateStampsOnly(r: MonologueRow, now: Time)
    ensures MergedMonologue(r, EmptyMonologueUpdate, now) == r.(updatedAt := now)
  {
  }

  /** Sending the same update twice (at the same instant) changes nothing the first did not. */
  lemma MergedMonologueIdempotent(r: MonologueRow, input: UpdateMonologueInput, now: Time)
    ensures MergedMonologue(MergedMonologue(r, input, now), input, now) == MergedMonologue(r, input, now)
  {
  }

  /** A present empty string is stored as "", not NULL, and a present empty tag list empties the tags. */
  lemma MergedMonologueStoresEmptyValues(r: MonologueRow, now: Time)
    ensures MergedMonologue(r, EmptyMonologueUpdate.(url := Some([])), now).url == Some([])
    ensures MergedMonologue(r, EmptyMonologueUpdate.(codeSnippet := Some([])), now).codeSnippet == Some([])
    ensures MergedMonologue(r, EmptyMonologueUpdate.(tags := Some([])), now).tags == []
  {
  }

  /**
   * PublishMonologue always re-dates (a republished monologue gets a new date)
   * and UnpublishMonologue clears the date, while UpdateMonologue's
   * is_published keeps an existing date either way.
   */
  lemma MonologuePublishAsymmetry(r: MonologueRow, t: Time, now: Time)
    requires r.publishedAt == Some(t) && t != now
    ensures ApplyMonologueEdit(MonoPublish, r, now).value.publishedAt == Some(now)
    ensures ApplyMonologueEdit(MonoUnpublish, r, now).value.publishedAt.None?
    ensures MergedMonologue(r, EmptyMonologueUpdate.(isPublished := Some(true)), now).publishedAt == Some(t)
    ensures MergedMonologue(r, EmptyMonologueUpdate.(isPublished := Some(false)), now).publishedAt == Some(t)
  {
  }

  /** A missing monologue is (nil, nil) after publish or unpublish, not an error as for blog posts. */
  lemma MonologueMutationNotFound(s: DbState, id: Id, e: MonologueEdit, now: Time, action: Bytes)
    requires s.online && id !in s.monologues
    ensures MonologueMutation(s, id, e, now, action) == (s, Ok(None))
  {
  }

  /** Publishing and unpublishing an existing monologue of a consistent store succeed. */
  lemma MonologuePublishSucceeds(s: DbState, id: Id, now: Time)
    requires Consistent(s) && s.online && id in s.monologues
    ensures var (s', r) := MonologueMutation(s, id, MonoPublish, now, Ascii("publish monologue"));
            r == Ok(Some(MonologueEntity(s', id, s'.monologues[id]))) &&
            r.value.value.isPublished && r.value.value.publishedAt == Some(now)
    ensures var (s', r) := MonologueMutation(s, id, MonoUnpublish, now, Ascii("unpublish monologue"));
            r == Ok(Some(MonologueEntity(s', id, s'.monologues[id]))) &&
            !r.value.value.isPublished && r.value.value.publishedAt.None?
  {
    var before := s.monologues[id];
    assert MonologueRowOk(s, before);
    assert MonologueLengthsOk(before);
    var published := before.(isPublished := true, publishedAt := Some(now), updatedAt := now);
    var unpublished := before.(isPublished := false, publishedAt := None, updatedAt := now);
    assert MonologueRowOk(s, published);
    assert MonologueRowOk(s, unpublished);
    assert MonologueWrite(s, id, MonoPublish, now) == (s.(monologues := s.monologues[id := published]), Ok(Some(published)));
    assert MonologueWrite(s, id, MonoUnpublish, now) ==
           (s.(monologues := s.monologues[id := unpublished]), Ok(Some(unpublished)));
  }

  // ---------------------------------------------------------------------------
  // Likes
  // ---------------------------------------------------------------------------

  /** The like statement on one monologue row: +1 (NULL counting as 0) within the INTEGER range. */
  lemma MonologueLikeWrite(s: DbState, id: Id, now: Time)
    requires s.online && (id in s.monologues ==> MonologueRowOk(s, s.monologues[id]))
    ensures MonologueWrite(s, id, MonoLike, now) ==
            if id !in s.monologues then (s, Ok(None))
            else
              var n := s.monologues[id].likeCount.GetOr(0) + 1;
              var row := s.monologues[id].(likeCount := Some(n), updatedAt := now);
              if n <= MaxInt32 then (s.(monologues := s.monologues[id := row]), Ok(Some(row)))
              else (s, Err(Sql(IntegerOutOfRange)))
  {
    if id in s.monologues {
      var before := s.monologues[id];
      var n := before.likeCount.GetOr(0) + 1;
      var row := before.(likeCount := Some(n), updatedAt := now);
      if n <= MaxInt32 {
        assert ApplyMonologueEdit(MonoLike, before, now) == Ok(row);
        LikedMonologueRowOk(s, before, n, now);
      } else {
        assert ApplyMonologueEdit(MonoLike, before, now) == Err(Sql(IntegerOutOfRange));
      }
    }
  }

  lemma LikeMonologueOutcome(s: DbState, id: Id, now: Time)
    requires Consistent(s) && s.online
    ensures var (s', r) := LikeMonologueEffect(s, id, now);
            if id !in s.monologues then s' == s && r == Err(Failed(Ascii("like monologue"), Sql(NoRows)))
            else
              var n := s.monologues[id].likeCount.GetOr(0) + 1;
              if n <= MaxInt32 then
                && r == Ok(LikeResponse(id, n, true))
                && s' == s.(monologues := s.monologues[id := s.monologues[id].(likeCount := Some(n), updatedAt := now)])
              else s' == s && r == Err(Failed(Ascii("like monologue"), Sql(IntegerOutOfRange)))
  {
    var like := Ascii("like monologue");
    if id !in s.monologues {
      MonologueLikeWrite(s, id, now);
      assert LikeMonologueEffect(s, id, now) == (s, Err(Failed(like, Sql(NoRows))));
    } else {
      assert MonologueRowOk(s, s.monologues[id]);
      MonologueLikeWrite(s, id, now);
      var n := s.monologues[id].likeCount.GetOr(0) + 1;
      if n <= MaxInt32 {
        var s' := s.(monologues := s.monologues[id := s.monologues[id].(likeCount := Some(n), updatedAt := now)]);
        assert LikeMonologueEffect(s, id, now) == (s', Ok(LikeResponse(id, n, true)));
      } else {
        assert LikeMonologueEffect(s, id, now) == (s, Err(Failed(like, Sql(IntegerOutOfRange))));
      }
    }
  }

  // ---------------------------------------------------------------------------
  // CreateMonologue
  // ---------------------------------------------------------------------------

  lemma BlogIsNotAStoredContentType()
    ensures ContentBlog.name !in MonologueContentTypeNames
  {
    assert ContentBlog.name[0] as int == 'B' as int;
    assert ContentPost.name[0] as int == 'P' as int;
    assert ContentCode.name[0] as int == 'C' as int;
    assert ContentImage.name[0] as int == 'I' as int;
    assert ContentUrlPreview.name[0] as int == 'U' as int;
  }

  /** BLOG is a ContentType of the API but the monologues table refuses it. */
  lemma CreateBlogMonologueFails(s: DbState, freshId: Id, input: CreateMonologueInput, now: Time)
    requires s.online && input.contentType == ContentBlog
    ensures CreateMonologueEffect(s, freshId, input, now) ==
            (s, Err(Failed(Ascii("create monologue"), Sql(RowError(MonologueLengthsOk(NewMonologueRow(input, now)))))))
  {
    BlogIsNotAStoredContentType();
  }

  /**
   * The monologue CreateMonologue returns is the monologue a later read
   * returns: unpublished by default, dated iff published, no likes, and a
   * generated preview exactly when a url (even "") was given.
   */
  lemma CreatedMonologueReadsBack(s: DbState, freshId: Id, input: CreateMonologueInput, now: Time)
    requires Consistent(s)
    requires CreateMonologueEffect(s, freshId, input, now).1.Ok?
    ensures var (s', r) := CreateMonologueEffect(s, freshId, input, now);
            && freshId in s'.monologues
            && r.value == MonologueEntity(s', freshId, s'.monologues[freshId])
            && r.value.isPublished == input.isPublished.GetOr(false)
            && (r.value.publishedAt.Some? <==> r.value.isPublished)
            && r.value.likeCount == Some(0)
            && PreviewsOf(s'.previews, freshId) ==
               (if input.url.Some? then [GeneratedPreviewRow(freshId, input.url.value, now)] else [])
            && (r.value.urlPreview.Some? <==> input.url.Some?)
  {
    var s1 := InsertMonologue(s, freshId, NewMonologueRow(input, now)).0;
    AbsentMonologueHasNoPreviews(s, freshId);
    NullStringRoundTrip(input.codeLanguage);
    NullStringRoundTrip(input.codeSnippet);
    NullStringRoundTrip(input.url);
    NullStringRoundTrip(input.series);
    NullStringRoundTrip(input.category);
    if input.url.Some? {
      var row := GeneratedPreviewRow(freshId, input.url.value, now);
      assert NewMonologueRow(input, now).url == input.url;
      GeneratedPreviewFits(freshId, input.url.value, now);
      PreviewsOfAppend(s1.previews, row, freshId);
      FirstPreviewIsHead(s1.previews + [row], freshId);
      GeneratedPreviewReadsBack(freshId, input.url.value, now);
    } else {
      FirstPreviewIsHead(s1.previews, freshId);
    }
  }

  // ---------------------------------------------------------------------------
  // DeleteMonologue
  // ---------------------------------------------------------------------------

  /**
   * The previews go first, so the FOREIGN KEY never blocks the deletion:
   * the answer is whether the monologue existed, and afterwards neither it
   * nor a preview of it is left, while other monologues keep theirs.
   */
  lemma DeleteMonologueOutcome(s: DbState, id: Id)
    requires s.online
    ensures var (s', r) := DeleteMonologueEffect(s, id);
            && r == Ok(id in s.monologues)
            && id !in s'.monologues
            && PreviewsOf(s'.previews, id) == []
            && (forall other :: other != id ==> PreviewsOf(s'.previews, other) == PreviewsOf(s.previews, other))
            && (forall other :: other != id && other in s.monologues ==>
                  other in s'.monologues && s'.monologues[other] == s.monologues[other])
  {
    PreviewsNotOfSpec(s.previews, id);
    forall other ensures PreviewsOf(PreviewsNotOf(s.previews, id), other) ==
                         if other == id then [] else PreviewsOf(s.previews, other) {
      PreviewsOfNotOf(s.previews, id, other);
    }
  }

  // ---------------------------------------------------------------------------
  // Invariants over every monologue mutation
  // ---------------------------------------------------------------------------

  lemma MonologueWriteConsistent(s: DbState, id: Id, e: MonologueEdit, now: Time)
    requires Consistent(s)
    ensures Consistent(MonologueWrite(s, id, e, now).0)
  {
    MonologueStmtWrites(s, e, id, now);
    UpdateMonologuesConsistent(s, MonologueStmt(e, id, now).0, MonologueStmt(e, id, now).1, now);
  }

  lemma RegeneratePreviewConsistent(s: DbState, id: Id, url: Option<Bytes>, now: Time)
    requires Consistent(s)
    ensures Consistent(RegeneratePreview(s, id, url, now))
  {
    DeletePreviewsConsistent(s, id);
    if url.Some? {
      InsertPreviewConsistent(DeletePreviewsOf(s, id).0, GeneratedPreviewRow(id, url.value, now));
    }
  }

  lemma UpdateMonologueConsistent(s: DbState, id: Id, input: UpdateMonologueInput, now: Time)
    requires Consistent(s)
    ensures Consistent(UpdateMonologueEffect(s, id, input, now).0)
  {
    MonologueWriteConsistent(s, id, MonoMerge(input), now);
    RegeneratePreviewConsistent(MonologueWrite(s, id, MonoMerge(input), now).0, id, input.url, now);
  }

  /** The store CreateMonologue leaves: the new row, then the generated preview if a url was given. */
  lemma CreateMonologueState(s: DbState, freshId: Id, create: CreateMonologueInput, now: Time)
    ensures var (s1, r) := InsertMonologue(s, freshId, NewMonologueRow(create, now));
            CreateMonologueEffect(s, freshId, create, now).0 ==
            if r.Ok? && create.url.Some? then InsertPreview(s1, GeneratedPreviewRow(r.value, create.url.value, now)).0
            else s1
  {
  }

  lemma CreateMonologueConsistent(s: DbState, freshId: Id, create: CreateMonologueInput, now: Time)
    requires Consistent(s)
    ensures Consistent(CreateMonologueEffect(s, freshId, create, now).0)
  {
    CreateMonologueState(s, freshId, create, now);
    var (s1, r) := InsertMonologue(s, freshId, NewMonologueRow(create, now));
    InsertMonologueConsistent(s, freshId, NewMonologueRow(create, now));
    if r.Ok? && create.url.Some? {
      InsertPreviewConsistent(s1, GeneratedPreviewRow(r.value, create.url.value, now));
    }
  }

  lemma DeleteMonologueEffectConsistent(s: DbState, id: Id)
    requires Consistent(s)
    ensures Consistent(DeleteMonologueEffect(s, id).0)
  {
    DeletePreviewsConsistent(s, id);
    DeleteMonologueConsistent(DeletePreviewsOf(s, id).0, id);
  }

  /** Every monologue mutation leaves a consistent store consistent. */
  lemma MonologueMutationsKeepConsistent(s: DbState, id: Id, e: MonologueEdit, input: UpdateMonologueInput,
                                         create: CreateMonologueInput, freshId: Id, now: Time)
    requires Consistent(s)
    ensures Consistent(MonologueWrite(s, id, e, now).0)
    ensures Consistent(UpdateMonologueEffect(s, id, input, now).0)
    ensures Consistent(CreateMonologueEffect(s, freshId, create, now).0)
    ensures Consistent(DeleteMonologueEffect(s, id).0)
  {
    MonologueWriteConsistent(s, id, e, now);
    UpdateMonologueConsistent(s, id, input, now);
    CreateMonologueConsistent(s, freshId, create, now);
    DeleteMonologueEffectConsistent(s, id);
  }

  /** UpdateMonologue, CreateMonologue and DeleteMonologue keep at most one preview per monologue. */
  lemma MonologueMutationsKeepOnePreview(s: DbState, id: Id, input: UpdateMonologueInput,
                                         create: CreateMonologueInput, freshId: Id, now: Time)
    requires Consistent(s) && AtMostOnePreview(s)
    ensures AtMostOnePreview(UpdateMonologueEffect(s, id, input, now).0)
    ensures AtMostOnePreview(CreateMonologueEffect(s, freshId, create, now).0)
    ensures AtMostOnePreview(DeleteMonologueEffect(s, id).0)
  {
    UpdateKeepsOnePreview(s, id, input, now);
    CreateKeepsOnePreview(s, freshId, create, now);
    DeleteKeepsOnePreview(s, id);
  }

  lemma UpdateKeepsOnePreview(s: DbState, id: Id, input: UpdateMonologueInput, now: Time)
    requires Consistent(s) && AtMostOnePreview(s)
    ensures AtMostOnePreview(UpdateMonologueEffect(s, id, input, now).0)
  {
    var (s1, w) := MonologueWrite(s, id, MonoMerge(input), now);
    if !s.online || w.Err? {
    } else if id !in s.monologues {
      UpdateMissingMonologue(s, id, input, now);
    } else {
      UpdateMonologuePreviews(s, id, input, now);
      var s' := UpdateMonologueEffect(s, id, input, now).0;
      forall other ensures |PreviewsOf(s'.previews, other)| <= 1 {
        if other != id {
          assert |PreviewsOf(s.previews, other)| <= 1;
        }
      }
    }
  }

  lemma CreateKeepsOnePreview(s: DbState, freshId: Id, create: CreateMonologueInput, now: Time)
    requires Consistent(s) && AtMostOnePreview(s)
    ensures AtMostOnePreview(CreateMonologueEffect(s, freshId, create, now).0)
  {
    var (c1, r) := InsertMonologue(s, freshId, NewMonologueRow(create, now));
    if r.Ok? && create.url.Some? {
      AbsentMonologueHasNoPreviews(s, freshId);
      var row := GeneratedPreviewRow(freshId, create.url.value, now);
      var c' := CreateMonologueEffect(s, freshId, create, now).0;
      forall other ensures |PreviewsOf(c'.previews, other)| <= 1 {
        if c'.previews != c1.previews {
          PreviewsOfAppend(c1.previews, row, other);
        }
        assert |PreviewsOf(s.previews, other)| <= 1;
      }
    }
  }

  lemma DeleteKeepsOnePreview(s: DbState, id: Id)
    requires AtMostOnePreview(s)
    ensures AtMostOnePreview(DeleteMonologueEffect(s, id).0)
  {
    if s.online {
      var s' := DeleteMonologueEffect(s, id).0;
      forall other ensures |PreviewsOf(s'.previews, other)| <= 1 {
        PreviewsOfNotOf(s.previews, id, other);
        assert |PreviewsOf(s.previews, other)| <= 1;
      }
    }
  }
}
