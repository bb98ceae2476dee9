/**
 * The relational store as the Go code sees it: one map per table from row id
 * to row (url_previews and social_links, whose ids are never read, are
 * sequences in storage order), the schema's CHECK, UNIQUE and FOREIGN KEY
 * constraints and the VARCHAR limits of the tables the content layer writes,
 * and the effect of each kind of statement the content layer issues. `DB` is the handle every database operation goes through.
 */
module Store {
  import opened Base
  import opened Models
  import opened Sql

  // ---------------------------------------------------------------------------
  // Rows. A nullable column is an Option; a NULL TEXT[] is identified with the
  // empty array.
  // ---------------------------------------------------------------------------

  datatype PostRow = PostRow(
    title: Bytes,
    slug: Bytes,
    excerpt: Option<Bytes>,
    content: Bytes,
    coverImageUrl: Option<Bytes>,
    tags: seq<Bytes>,
    status: Bytes,
    seoTitle: Option<Bytes>,
    seoDescription: Option<Bytes>,
    publishedAt: Option<Time>,
    likeCount: Option<int>,
    createdAt: Time,
    updatedAt: Time)

  datatype MonologueRow = MonologueRow(
    content: Bytes,
    contentType: Bytes,
    codeLanguage: Option<Bytes>,
    codeSnippet: Option<Bytes>,
    tags: seq<Bytes>,
    isPublished: bool,
    publishedAt: Option<Time>,
    url: Option<Bytes>,
    series: Option<Bytes>,
    category: Option<Bytes>,
    codeCategoryId: Option<Id>,
    difficulty: Option<Bytes>,
    likeCount: Option<int>,
    createdAt: Time,
    updatedAt: Time)

  datatype PreviewRow = PreviewRow(
    monologueId: Option<Id>,
    title: Bytes,
    description: Option<Bytes>,
    imageUrl: Option<Bytes>,
    siteName: Option<Bytes>,
    url: Bytes,
    favicon: Option<Bytes>,
    createdAt: Time)

  datatype CategoryRow = CategoryRow(
    name: Bytes,
    slug: Bytes,
    description: Option<Bytes>,
    parentId: Option<Id>,
    color: Option<Bytes>,
    icon: Option<Bytes>,
    createdAt: Time,
    updatedAt: Time)

  datatype SkillRow = SkillRow(
    name: Bytes,
    category: Bytes,
    level: int,
    iconUrl: Option<Bytes>,
    displayOrder: int,
    createdAt: Time,
    updatedAt: Time)

  datatype ExperienceRow = ExperienceRow(
    company: Bytes,
    position: Bytes,
    description: Option<Bytes>,
    startDate: Bytes,
    endDate: Option<Bytes>,
    isCurrent: bool,
    technologies: seq<Bytes>,
    createdAt: Time,
    updatedAt: Time)

  datatype ProfileRow = ProfileRow(
    name: Bytes,
    title: Option<Bytes>,
    bio: Option<Bytes>,
    avatarUrl: Option<Bytes>,
    createdAt: Time,
    updatedAt: Time)

  datatype SocialLinkRow = SocialLinkRow(profileId: Option<Id>, platform: Bytes, url: Bytes, icon: Option<Bytes>)

  /** The whole store; `online` is false when the server cannot be reached (every statement fails). */
  datatype DbState = DbState(
    online: bool,
    posts: map<Id, PostRow>,
    monologues: map<Id, MonologueRow>,
    previews: seq<PreviewRow>,
    categories: map<Id, CategoryRow>,
    skills: map<Id, SkillRow>,
    experiences: map<Id, ExperienceRow>,
    profiles: map<Id, ProfileRow>,
    socialLinks: seq<SocialLinkRow>)

  // ---------------------------------------------------------------------------
  // Schema constraints
  // ---------------------------------------------------------------------------

  /** blog_posts.status CHECK. */
  const PostStatusNames: set<Bytes> := {StatusDraft.name, StatusPublished.name, StatusArchived.name}

  /** monologues.content_type CHECK: BLOG is a ContentType but not an admitted column value. */
  const MonologueContentTypeNames: set<Bytes> :=
    {ContentPost.name, ContentCode.name, ContentImage.name, ContentUrlPreview.name}

  /** monologues.difficulty CHECK. */
  const DifficultyNames: set<Bytes> := {Beginner.name, Intermediate.name, Advanced.name}

  /** A text of ASCII length at most n fits a VARCHAR(n) column. */
  lemma ShortFits(b: Bytes, n: nat)
    requires |b| <= n
    ensures FitsVarchar(b, n)
  {
    CharLengthBounds(b);
  }

  /**
   * Every status the CHECK admits fits the VARCHAR(20) column, so only a
   * value outside the CHECK list can be too long.
   */
  lemma StatusNamesFit()
    ensures forall n :: n in PostStatusNames ==> FitsVarchar(n, 20)
  {
    ShortFits(StatusDraft.name, 20);
    ShortFits(StatusPublished.name, 20);
    ShortFits(StatusArchived.name, 20);
  }

  /** An INTEGER column holds a 32-bit signed value. */
  predicate Int32Ok(v: Option<int>) {
    v.Some? ==> -MaxInt32 - 1 <= v.value <= MaxInt32
  }

  /** A VARCHAR(n) column holds at most n characters. */
  predicate FitsVarchar(b: Bytes, n: nat) {
    CharLength(b) <= n
  }

  /** A nullable VARCHAR(n) column: NULL always fits. */
  predicate FitsNullable(o: Option<Bytes>, n: nat) {
    o.Some? ==> FitsVarchar(o.value, n)
  }

  /**
   * The VARCHAR limits of blog_posts. status is a VARCHAR(20) too: its length
   * is checked when the value is converted, before its CHECK runs.
   */
  predicate PostLengthsOk(r: PostRow) {
    && FitsVarchar(r.title, 500)
    && FitsVarchar(r.slug, 500)
    && FitsVarchar(r.status, 20)
    && FitsNullable(r.coverImageUrl, 2048)
    && FitsNullable(r.seoTitle, 500)
  }

  /**
   * The VARCHAR limits of monologues. content_type and difficulty are
   * VARCHAR(20) too: their lengths are checked before their CHECKs run.
   */
  predicate MonologueLengthsOk(r: MonologueRow) {
    && FitsVarchar(r.contentType, 20)
    && FitsNullable(r.difficulty, 20)
    && FitsNullable(r.codeLanguage, 50)
    && FitsNullable(r.url, 2048)
    && FitsNullable(r.series, 255)
    && FitsNullable(r.category, 255)
  }

  /** The VARCHAR limits of url_previews. */
  predicate PreviewLengthsOk(p: PreviewRow) {
    && FitsVarchar(p.title, 500)
    && FitsNullable(p.imageUrl, 2048)
    && FitsNullable(p.siteName, 200)
    && FitsVarchar(p.url, 2048)
    && FitsNullable(p.favicon, 2048)
  }

  /**
   * The error of a row the schema refuses. The length of each value is
   * checked when the row is formed, before any constraint, so an over-long
   * value is reported as such even when a constraint is broken too.
   */
  function RowError(fits: bool): SqlError {
    if fits then ConstraintViolation else ValueTooLong
  }

  predicate PostRowOk(s: DbState, id: Id, r: PostRow) {
    && r.status in PostStatusNames
    && PostLengthsOk(r)
    && Int32Ok(r.likeCount)
    && (forall other :: other in s.posts && other != id ==> s.posts[other].slug != r.slug)
  }

  predicate MonologueRowOk(s: DbState, r: MonologueRow) {
    && r.contentType in MonologueContentTypeNames
    && (r.difficulty.Some? ==> r.difficulty.value in DifficultyNames)
    && (r.codeCategoryId.Some? ==> r.codeCategoryId.value in s.categories)
    && Int32Ok(r.likeCount)
    && MonologueLengthsOk(r)
  }

  predicate PreviewRowOk(s: DbState, p: PreviewRow) {
    && (p.monologueId.Some? ==> p.monologueId.value in s.monologues)
    && PreviewLengthsOk(p)
  }

  predicate CategoryRowOk(s: DbState, id: Id, c: CategoryRow) {
    && (c.parentId.Some? ==> c.parentId.value in s.categories)
    && (forall other :: other in s.categories && other != id ==> s.categories[other].slug != c.slug)
  }

  /** Every row satisfies the schema's constraints. */
  predicate Consistent(s: DbState) {
    && (forall id :: id in s.posts ==> PostRowOk(s, id, s.posts[id]))
    && (forall id :: id in s.monologues ==> MonologueRowOk(s, s.monologues[id]))
    && (forall i :: 0 <= i < |s.previews| ==> PreviewRowOk(s, s.previews[i]))
    && (forall id :: id in s.categories ==> CategoryRowOk(s, id, s.categories[id]))
    && (forall id :: id in s.skills ==> 1 <= s.skills[id].level <= 10)
    && (forall i :: 0 <= i < |s.socialLinks| ==>
          s.socialLinks[i].profileId.Some? ==> s.socialLinks[i].profileId.value in s.profiles)
  }

  // ---------------------------------------------------------------------------
  // Reading and writing columns as SQL values
  // ---------------------------------------------------------------------------

  function NullableText(o: Option<Bytes>): SqlValue {
    if o.Some? then SqlText(o.value) else SqlNull
  }

  function NullableTime(o: Option<Time>): SqlValue {
    if o.Some? then SqlTime(o.value) else SqlNull
  }

  function NullableInt(o: Option<int>): SqlValue {
    if o.Some? then SqlInt(o.value) else SqlNull
  }

  /** A value stored into a nullable text column; None when it has another type. */
  function AsNullableText(v: SqlValue): Option<Option<Bytes>> {
    match v
    case SqlNull => Some(None)
    case SqlText(t) => Some(Some(t))
    case _ => None
  }

  function AsNullableTime(v: SqlValue): Option<Option<Time>> {
    match v
    case SqlNull => Some(None)
    case SqlTime(t) => Some(Some(t))
    case _ => None
  }

  function AsNullableInt(v: SqlValue): Option<Option<int>> {
    match v
    case SqlNull => Some(None)
    case SqlInt(i) => Some(Some(i))
    case _ => None
  }

  function AsTextArray(v: SqlValue): Option<seq<Bytes>> {
    match v
    case SqlNull => Some([])
    case SqlTextArray(items) => Some(items)
    case _ => None
  }

  datatype PostColumn =
    | PostTitle | PostSlug | PostExcerpt | PostContent | PostCoverImageUrl | PostTags | PostStatus
    | PostSeoTitle | PostSeoDescription | PostPublishedAt | PostLikeCount | PostUpdatedAt

  function ReadPost(r: PostRow, c: PostColumn): SqlValue {
    match c
    case PostTitle => SqlText(r.title)
    case PostSlug => SqlText(r.slug)
    case PostExcerpt => NullableText(r.excerpt)
    case PostContent => SqlText(r.content)
    case PostCoverImageUrl => NullableText(r.coverImageUrl)
    case PostTags => SqlTextArray(r.tags)
    case PostStatus => SqlText(r.status)
    case PostSeoTitle => NullableText(r.seoTitle)
    case PostSeoDescription => NullableText(r.seoDescription)
    case PostPublishedAt => NullableTime(r.publishedAt)
    case PostLikeCount => NullableInt(r.likeCount)
    case PostUpdatedAt => SqlTime(r.updatedAt)
  }

  /** Stores v into column c; None when v does not fit the column (a type error or a NULL into NOT NULL). */
  function AssignPost(r: PostRow, c: PostColumn, v: SqlValue): Option<PostRow> {
    match c
    case PostTitle => if v.SqlText? then Some(r.(title := v.text)) else None
    case PostSlug => if v.SqlText? then Some(r.(slug := v.text)) else None
    case PostExcerpt => (match AsNullableText(v) case Some(t) => Some(r.(excerpt := t)) case None => None)
    case PostContent => if v.SqlText? then Some(r.(content := v.text)) else None
    case PostCoverImageUrl => (match AsNullableText(v) case Some(t) => Some(r.(coverImageUrl := t)) case None => None)
    case PostTags => (match AsTextArray(v) case Some(t) => Some(r.(tags := t)) case None => None)
    case PostStatus => if v.SqlText? then Some(r.(status := v.text)) else None
    case PostSeoTitle => (match AsNullableText(v) case Some(t) => Some(r.(seoTitle := t)) case None => None)
    case PostSeoDescription => (match AsNullableText(v) case Some(t) => Some(r.(seoDescription := t)) case None => None)
    case PostPublishedAt => (match AsNullableTime(v) case Some(t) => Some(r.(publishedAt := t)) case None => None)
    case PostLikeCount => (match AsNullableInt(v) case Some(n) => Some(r.(likeCount := n)) case None => None)
    case PostUpdatedAt => if v.SqlTime? then Some(r.(updatedAt := v.t)) else None
  }

  datatype MonologueColumn =
    | MonoContent | MonoContentType | MonoCodeLanguage | MonoCodeSnippet | MonoTags | MonoIsPublished
    | MonoPublishedAt | MonoUrl | MonoSeries | MonoCategory | MonoLikeCount | MonoUpdatedAt

  function ReadMonologue(r: MonologueRow, c: MonologueColumn): SqlValue {
    match c
    case MonoContent => SqlText(r.content)
    case MonoContentType => SqlText(r.contentType)
    case MonoCodeLanguage => NullableText(r.codeLanguage)
    case MonoCodeSnippet => NullableText(r.codeSnippet)
    case MonoTags => SqlTextArray(r.tags)
    case MonoIsPublished => SqlBool(r.isPublished)
    case MonoPublishedAt => NullableTime(r.publishedAt)
    case MonoUrl => NullableText(r.url)
    case MonoSeries => NullableText(r.series)
    case MonoCategory => NullableText(r.category)
    case MonoLikeCount => NullableInt(r.likeCount)
    case MonoUpdatedAt => SqlTime(r.updatedAt)
  }

  function AssignMonologue(r: MonologueRow, c: MonologueColumn, v: SqlValue): Option<MonologueRow> {
    match c
    case MonoContent => if v.SqlText? then Some(r.(content := v.text)) else None
    case MonoContentType => if v.SqlText? then Some(r.(contentType := v.text)) else None
    case MonoCodeLanguage => (match AsNullableText(v) case Some(t) => Some(r.(codeLanguage := t)) case None => None)
    case MonoCodeSnippet => (match AsNullableText(v) case Some(t) => Some(r.(codeSnippet := t)) case None => None)
    case MonoTags => (match AsTextArray(v) case Some(t) => Some(r.(tags := t)) case None => None)
    case MonoIsPublished => if v.SqlBool? then Some(r.(isPublished := v.b)) else None
    case MonoPublishedAt => (match AsNullableTime(v) case Some(t) => Some(r.(publishedAt := t)) case None => None)
    case MonoUrl => (match AsNullableText(v) case Some(t) => Some(r.(url := t)) case None => None)
    case MonoSeries => (match AsNullableText(v) case Some(t) => Some(r.(series := t)) case None => None)
    case MonoCategory => (match AsNullableText(v) case Some(t) => Some(r.(category := t)) case None => None)
    case MonoLikeCount => (match AsNullableInt(v) case Some(n) => Some(r.(likeCount := n)) case None => None)
    case MonoUpdatedAt => if v.SqlTime? then Some(r.(updatedAt := v.t)) else None
  }

  // ---------------------------------------------------------------------------
  // Statements. Each returns the state afterwards and its result; a statement
  // that fails leaves the state as it was.
  // ---------------------------------------------------------------------------

  /**
   * UPDATE ... WHERE id = $k on one table: the row it changed (None when no
   * row has that id, which is not an error), before the table's constraints
   * are checked.
   */
  function UpdateRow<R, C>(table: map<Id, R>, stmt: UpdateStmt<C>, args: seq<SqlValue>, now: Time,
                           read: (R, C) -> SqlValue, assign: (R, C, SqlValue) -> Option<R>): Result<Option<(Id, R)>>
  {
    if !ParamsMatch(StmtParams(stmt), |args|) then Err(Sql(BadParameters))
    else
      assert StmtParams(stmt)[|StmtParams(stmt)| - 1] == stmt.whereParam;
      if !args[stmt.whereParam - 1].SqlText? then Err(Sql(TypeMismatch))
    else
      var id := args[stmt.whereParam - 1].text;
      if id !in table then Ok(None)
      else
        match ApplySet(table[id], stmt.assignments, args, now, read, assign)
        case Err(e) => Err(e)
        case Ok(row) => Ok(Some((id, row)))
  }

  /** UPDATE blog_posts ...; the changed row is also what RETURNING reads. */
  function UpdatePosts(s: DbState, stmt: UpdateStmt<PostColumn>, args: seq<SqlValue>, now: Time)
    : (DbState, Result<Option<PostRow>>)
  {
    if !s.online then (s, Err(Sql(Unavailable)))
    else
      match UpdateRow(s.posts, stmt, args, now, ReadPost, AssignPost)
      case Err(e) => (s, Err(e))
      case Ok(None) => (s, Ok(None))
      case Ok(Some((id, row))) =>
        if PostRowOk(s, id, row) then (s.(posts := s.posts[id := row]), Ok(Some(row)))
        else (s, Err(Sql(RowError(PostLengthsOk(row)))))
  }

  /** UPDATE monologues ...; the changed row is also what RETURNING reads. */
  function UpdateMonologues(s: DbState, stmt: UpdateStmt<MonologueColumn>, args: seq<SqlValue>, now: Time)
    : (DbState, Result<Option<MonologueRow>>)
  {
    if !s.online then (s, Err(Sql(Unavailable)))
    else
      match UpdateRow(s.monologues, stmt, args, now, ReadMonologue, AssignMonologue)
      case Err(e) => (s, Err(e))
      case Ok(None) => (s, Ok(None))
      case Ok(Some((id, row))) =>
        if MonologueRowOk(s, row) then (s.(monologues := s.monologues[id := row]), Ok(Some(row)))
        else (s, Err(Sql(RowError(MonologueLengthsOk(row)))))
  }

  /** INSERT INTO blog_posts; `freshId` is the id gen_random_uuid() draws. */
  function InsertPost(s: DbState, freshId: Id, row: PostRow): (DbState, Result<Id>) {
    if !s.online then (s, Err(Sql(Unavailable)))
    else if freshId in s.posts || !PostRowOk(s, freshId, row) then (s, Err(Sql(RowError(PostLengthsOk(row)))))
    else (s.(posts := s.posts[freshId := row]), Ok(freshId))
  }

  function InsertMonologue(s: DbState, freshId: Id, row: MonologueRow): (DbState, Result<Id>) {
    if !s.online then (s, Err(Sql(Unavailable)))
    else if freshId in s.monologues || !MonologueRowOk(s, row) then (s, Err(Sql(RowError(MonologueLengthsOk(row)))))
    else (s.(monologues := s.monologues[freshId := row]), Ok(freshId))
  }

  function InsertPreview(s: DbState, row: PreviewRow): (DbState, Result<()>) {
    if !s.online then (s, Err(Sql(Unavailable)))
    else if !PreviewRowOk(s, row) then (s, Err(Sql(RowError(PreviewLengthsOk(row)))))
    else (s.(previews := s.previews + [row]), Ok(()))
  }

  /** The previews left after DELETE FROM url_previews WHERE monologue_id = id. */
  function PreviewsNotOf(ps: seq<PreviewRow>, id: Id): (r: seq<PreviewRow>)
    ensures |r| <= |ps|
    decreases |ps|
  {
    if ps == [] then []
    else if ps[0].monologueId == Some(id) then PreviewsNotOf(ps[1..], id)
    else [ps[0]] + PreviewsNotOf(ps[1..], id)
  }

  function DeletePreviewsOf(s: DbState, id: Id): (DbState, Result<()>) {
    if !s.online then (s, Err(Sql(Unavailable)))
    else (s.(previews := PreviewsNotOf(s.previews, id)), Ok(()))
  }

  /** DELETE FROM blog_posts WHERE id = $1; the result is the number of rows affected. */
  function DeletePostRow(s: DbState, id: Id): (DbState, Result<nat>) {
    if !s.online then (s, Err(Sql(Unavailable)))
    else if id in s.posts then (s.(posts := s.posts - {id}), Ok(1))
    else (s, Ok(0))
  }

  /** A preview that still references the monologue makes its deletion a FOREIGN KEY violation. */
  predicate ReferencedByPreview(ps: seq<PreviewRow>, id: Id) {
    exists i :: 0 <= i < |ps| && ps[i].monologueId == Some(id)
  }

  function DeleteMonologueRow(s: DbState, id: Id): (DbState, Result<nat>) {
    if !s.online then (s, Err(Sql(Unavailable)))
    else if id !in s.monologues then (s, Ok(0))
    else if ReferencedByPreview(s.previews, id) then (s, Err(Sql(ConstraintViolation)))
    else (s.(monologues := s.monologues - {id}), Ok(1))
  }

  lemma {:induction false} PreviewsNotOfSpec(ps: seq<PreviewRow>, id: Id)
    ensures !ReferencedByPreview(PreviewsNotOf(ps, id), id)
    ensures forall p :: p in PreviewsNotOf(ps, id) <==> p in ps && p.monologueId != Some(id)
    decreases |ps|
  {
    if ps != [] {
      PreviewsNotOfSpec(ps[1..], id);
      assert ps == [ps[0]] + ps[1..];
    }
  }

  /** A like keeps a post row within the constraints when the new count stays in range. */
  lemma LikedPostRowOk(s: DbState, id: Id, r: PostRow, n: int, now: Time)
    requires PostRowOk(s, id, r) && r.likeCount.GetOr(0) < n <= MaxInt32
    ensures PostRowOk(s, id, r.(likeCount := Some(n), updatedAt := now))
  {
    assert PostLengthsOk(r);
  }

  /** A like keeps a monologue row within the constraints when the new count stays in range. */
  lemma LikedMonologueRowOk(s: DbState, r: MonologueRow, n: int, now: Time)
    requires MonologueRowOk(s, r) && r.likeCount.GetOr(0) < n <= MaxInt32
    ensures MonologueRowOk(s, r.(likeCount := Some(n), updatedAt := now))
  {
    assert MonologueLengthsOk(r);
  }

  /** A blog post row other than the replaced one keeps passing its constraints. */
  lemma OtherPostRowOk(s: DbState, id: Id, row: PostRow, other: Id)
    requires id in s.posts && other in s.posts && other != id
    requires PostRowOk(s, id, row) && PostRowOk(s, other, s.posts[other])
    ensures PostRowOk(s.(posts := s.posts[id := row]), other, s.posts[other])
  {
    var t := s.(posts := s.posts[id := row]);
    var r := s.posts[other];
    forall o | o in t.posts && o != other ensures t.posts[o].slug != r.slug {
      if o != id {
        assert s.posts[o].slug != r.slug;
      }
    }
  }

  /** The constraints outside blog_posts do not read blog_posts: a store whose posts pass their constraints
      and whose other tables are those of a consistent store is consistent. */
  lemma SameOtherTablesConsistent(s: DbState, t: DbState)
    requires Consistent(s)
    requires t.monologues == s.monologues && t.previews == s.previews && t.categories == s.categories
    requires t.skills == s.skills && t.socialLinks == s.socialLinks && t.profiles == s.profiles
    requires forall id :: id in t.posts ==> PostRowOk(t, id, t.posts[id])
    ensures Consistent(t)
  {
    forall id | id in t.monologues ensures MonologueRowOk(t, t.monologues[id]) {
      assert MonologueRowOk(s, s.monologues[id]);
    }
    forall i | 0 <= i < |t.previews| ensures PreviewRowOk(t, t.previews[i]) {
      assert PreviewRowOk(s, s.previews[i]);
    }
    forall id | id in t.categories ensures CategoryRowOk(t, id, t.categories[id]) {
      assert CategoryRowOk(s, id, s.categories[id]);
    }
  }

  /** After one blog post is replaced by a row that passes its constraints, every post row passes them. */
  lemma ReplacedPostRowsOk(s: DbState, id: Id, row: PostRow)
    requires id in s.posts && PostRowOk(s, id, row)
    requires forall other :: other in s.posts ==> PostRowOk(s, other, s.posts[other])
    ensures var t := s.(posts := s.posts[id := row]);
            forall other :: other in t.posts ==> PostRowOk(t, other, t.posts[other])
  {
    var t := s.(posts := s.posts[id := row]);
    forall other | other in t.posts ensures PostRowOk(t, other, t.posts[other]) {
      if other != id {
        OtherPostRowOk(s, id, row, other);
      }
    }
  }

  /** Replacing one blog post by a row that passes its constraints keeps the store consistent. */
  lemma ReplacePostConsistent(s: DbState, id: Id, row: PostRow)
    requires Consistent(s) && id in s.posts && PostRowOk(s, id, row)
    ensures Consistent(s.(posts := s.posts[id := row]))
  {
    var t := s.(posts := s.posts[id := row]);
    ReplacedPostRowsOk(s, id, row);
    SameOtherTablesConsistent(s, t);
  }

  /** Every statement leaves a consistent store consistent. */
  lemma UpdatePostsConsistent(s: DbState, stmt: UpdateStmt<PostColumn>, args: seq<SqlValue>, now: Time)
    requires Consistent(s)
    ensures Consistent(UpdatePosts(s, stmt, args, now).0)
  {
    if s.online {
      match UpdateRow(s.posts, stmt, args, now, ReadPost, AssignPost)
      case Ok(Some((id, row))) =>
        if PostRowOk(s, id, row) {
          assert id in s.posts;
          ReplacePostConsistent(s, id, row);
          assert UpdatePosts(s, stmt, args, now).0 == s.(posts := s.posts[id := row]);
        }
      case _ =>
    }
  }

  lemma UpdateMonologuesConsistent(s: DbState, stmt: UpdateStmt<MonologueColumn>, args: seq<SqlValue>, now: Time)
    requires Consistent(s)
    ensures Consistent(UpdateMonologues(s, stmt, args, now).0)
  {
  }

  lemma InsertPostConsistent(s: DbState, freshId: Id, row: PostRow)
    requires Consistent(s)
    ensures Consistent(InsertPost(s, freshId, row).0)
  {
    var t := InsertPost(s, freshId, row).0;
    if t != s {
      forall id | id in t.posts ensures PostRowOk(t, id, t.posts[id]) {
        if id != freshId {
          assert PostRowOk(s, id, s.posts[id]);
        }
      }
    }
  }

  lemma InsertMonologueConsistent(s: DbState, freshId: Id, row: MonologueRow)
    requires Consistent(s)
    ensures Consistent(InsertMonologue(s, freshId, row).0)
  {
    var t := InsertMonologue(s, freshId, row).0;
    if t != s {
      forall i | 0 <= i < |t.previews| ensures PreviewRowOk(t, t.previews[i]) {
        assert PreviewRowOk(s, s.previews[i]);
      }
    }
  }

  lemma InsertPreviewConsistent(s: DbState, row: PreviewRow)
    requires Consistent(s)
    ensures Consistent(InsertPreview(s, row).0)
  {
    var t := InsertPreview(s, row).0;
    if t != s {
      forall i | 0 <= i < |t.previews| ensures PreviewRowOk(t, t.previews[i]) {
        if i < |s.previews| {
          assert t.previews[i] == s.previews[i];
        }
      }
    }
  }

  lemma DeletePreviewsConsistent(s: DbState, id: Id)
    requires Consistent(s)
    ensures Consistent(DeletePreviewsOf(s, id).0)
  {
    PreviewsNotOfSpec(s.previews, id);
    var t := DeletePreviewsOf(s, id).0;
    forall i | 0 <= i < |t.previews| ensures PreviewRowOk(t, t.previews[i]) {
      assert t.previews[i] in s.previews;
    }
  }

  lemma DeletePostConsistent(s: DbState, id: Id)
    requires Consistent(s)
    ensures Consistent(DeletePostRow(s, id).0)
  {
    var t := DeletePostRow(s, id).0;
    forall id' | id' in t.posts ensures PostRowOk(t, id', t.posts[id']) {
      assert PostRowOk(s, id', s.posts[id']);
    }
  }

  lemma DeleteMonologueConsistent(s: DbState, id: Id)
    requires Consistent(s)
    ensures Consistent(DeleteMonologueRow(s, id).0)
  {
    var t := DeleteMonologueRow(s, id).0;
    if t != s {
      forall i | 0 <= i < |t.previews| ensures PreviewRowOk(t, t.previews[i]) {
        assert PreviewRowOk(s, s.previews[i]);
      }
    }
  }

  // ---------------------------------------------------------------------------
  // SELECT statements of the content layer: a conjunction of WHERE conditions
  // (some comparing a column with a placeholder), an ORDER BY and, for
  // monologues, LIMIT / OFFSET placeholders.
  // ---------------------------------------------------------------------------

  datatype RowOrder = AnyOrder | PublishedDesc | CreatedDesc

  /** ORDER BY published_at DESC: NULLs sort first, as Postgres does for DESC. */
  predicate PublishedDescLe(a: Option<Time>, b: Option<Time>) {
    a.None? || (b.Some? && a.value >= b.value)
  }

  datatype PostFilter =
    | PostIdIs(param: nat)     // id = $param
    | PostSlugIs(param: nat)   // slug = $param
    | PostIsPublished          // status = 'PUBLISHED'

  datatype PostQuery = PostQuery(filters: seq<PostFilter>, order: RowOrder)

  datatype MonologueFilter =
    | MonoIdIs(param: nat)           // m.id = $param
    | MonoPublishedOnly                // m.is_published = true
    | MonoCategoryIs(param: nat)     // m.code_category_id = $param
    | MonoDifficultyIs(param: nat)   // m.difficulty = $param
    | MonoTagsOverlap(param: nat)    // m.tags && $param

  datatype MonologueQuery = MonologueQuery(
    filters: seq<MonologueFilter>,
    order: RowOrder,
    limit: Option<nat>,    // LIMIT $limit
    offset: Option<nat>)   // OFFSET $offset

  function PostFilterParams(fs: seq<PostFilter>): seq<nat>
    decreases |fs|
  {
    if fs == [] then []
    else (if fs[0].PostIsPublished? then [] else [fs[0].param]) + PostFilterParams(fs[1..])
  }

  function MonologueFilterParams(fs: seq<MonologueFilter>): seq<nat>
    decreases |fs|
  {
    if fs == [] then []
    else (if fs[0].MonoPublishedOnly? then [] else [fs[0].param]) + MonologueFilterParams(fs[1..])
  }

  function OptionParam(p: Option<nat>): seq<nat> {
    if p.Some? then [p.value] else []
  }

  /** The placeholders of a monologue SELECT, in textual order. */
  function MonologueQueryParams(q: MonologueQuery): seq<nat> {
    MonologueFilterParams(q.filters) + OptionParam(q.limit) + OptionParam(q.offset)
  }

  predicate PostFilterTyped(f: PostFilter, args: seq<SqlValue>) {
    !f.PostIsPublished? ==> 1 <= f.param <= |args| && args[f.param - 1].SqlText?
  }

  predicate MonologueFilterTyped(f: MonologueFilter, args: seq<SqlValue>) {
    match f
    case MonoPublishedOnly => true
    case MonoTagsOverlap(k) => 1 <= k <= |args| && args[k - 1].SqlTextArray?
    case _ => 1 <= f.param <= |args| && args[f.param - 1].SqlText?
  }

  predicate IntParam(p: Option<nat>, args: seq<SqlValue>) {
    p.Some? ==> 1 <= p.value <= |args| && args[p.value - 1].SqlInt?
  }

  /** Why the store rejects a SELECT before reading any row, if it does. */
  function PostQueryError(q: PostQuery, args: seq<SqlValue>): Option<SqlError> {
    if !ParamsMatch(PostFilterParams(q.filters), |args|) then Some(BadParameters)
    else if exists i :: 0 <= i < |q.filters| && !PostFilterTyped(q.filters[i], args) then Some(TypeMismatch)
    else None
  }

  function MonologueQueryError(q: MonologueQuery, args: seq<SqlValue>): Option<SqlError> {
    if !ParamsMatch(MonologueQueryParams(q), |args|) then Some(BadParameters)
    else if (exists i :: 0 <= i < |q.filters| && !MonologueFilterTyped(q.filters[i], args))
         || !IntParam(q.limit, args) || !IntParam(q.offset, args) then Some(TypeMismatch)
    else None
  }

  predicate PostFilterHolds(f: PostFilter, args: seq<SqlValue>, id: Id, r: PostRow) {
    match f
    case PostIdIs(k) => 1 <= k <= |args| && args[k - 1] == SqlText(id)
    case PostSlugIs(k) => 1 <= k <= |args| && args[k - 1] == SqlText(r.slug)
    case PostIsPublished => r.status == StatusPublished.name
  }

  /** A NULL column never equals a parameter, and a NULL array overlaps nothing. */
  predicate MonologueFilterHolds(f: MonologueFilter, args: seq<SqlValue>, id: Id, r: MonologueRow) {
    match f
    case MonoIdIs(k) => 1 <= k <= |args| && args[k - 1] == SqlText(id)
    case MonoPublishedOnly => r.isPublished
    case MonoCategoryIs(k) =>
      1 <= k <= |args| && r.codeCategoryId.Some? && args[k - 1] == SqlText(r.codeCategoryId.value)
    case MonoDifficultyIs(k) =>
      1 <= k <= |args| && r.difficulty.Some? && args[k - 1] == SqlText(r.difficulty.value)
    case MonoTagsOverlap(k) =>
      1 <= k <= |args| && args[k - 1].SqlTextArray? && Overlaps(r.tags, args[k - 1].items)
  }

  /** The WHERE clause as a row predicate. */
  function PostWhere(q: PostQuery, args: seq<SqlValue>): (Id, PostRow) -> bool {
    (id: Id, r: PostRow) => forall i :: 0 <= i < |q.filters| ==> PostFilterHolds(q.filters[i], args, id, r)
  }

  function MonologueWhere(q: MonologueQuery, args: seq<SqlValue>): (Id, MonologueRow) -> bool {
    (id: Id, r: MonologueRow) => forall i :: 0 <= i < |q.filters| ==> MonologueFilterHolds(q.filters[i], args, id, r)
  }

  function PostOrder(o: RowOrder): (PostRow, PostRow) -> bool {
    match o
    case AnyOrder => (a: PostRow, b: PostRow) => true
    case PublishedDesc => (a: PostRow, b: PostRow) => PublishedDescLe(a.publishedAt, b.publishedAt)
    case CreatedDesc => (a: PostRow, b: PostRow) => a.createdAt >= b.createdAt
  }

  function MonologueOrder(o: RowOrder): (MonologueRow, MonologueRow) -> bool {
    match o
    case AnyOrder => (a: MonologueRow, b: MonologueRow) => true
    case PublishedDesc => (a: MonologueRow, b: MonologueRow) => PublishedDescLe(a.publishedAt, b.publishedAt)
    case CreatedDesc => (a: MonologueRow, b: MonologueRow) => a.createdAt >= b.createdAt
  }

  lemma PublishedDescTotal(a: Option<Time>, b: Option<Time>, c: Option<Time>)
    ensures PublishedDescLe(a, b) || PublishedDescLe(b, a)
    ensures PublishedDescLe(a, b) && PublishedDescLe(b, c) ==> PublishedDescLe(a, c)
  {
  }

  lemma PostOrderTotal(o: RowOrder)
    ensures TotalPreorder(PostOrder(o))
  {
    if o == PublishedDesc {
      forall a: PostRow, b: PostRow, c: PostRow {
        PublishedDescTotal(a.publishedAt, b.publishedAt, c.publishedAt);
      }
    }
  }

  lemma MonologueOrderTotal(o: RowOrder)
    ensures TotalPreorder(MonologueOrder(o))
  {
    if o == PublishedDesc {
      forall a: MonologueRow, b: MonologueRow, c: MonologueRow {
        PublishedDescTotal(a.publishedAt, b.publishedAt, c.publishedAt);
      }
    }
  }

  /** The LIMIT or OFFSET value bound to a placeholder (type-checked beforehand). */
  function IntArg(p: Option<nat>, args: seq<SqlValue>): Option<int>
    requires IntParam(p, args)
  {
    if p.Some? then Some(args[p.value - 1].i) else None
  }

  // ---------------------------------------------------------------------------
  // The store handle
  // ---------------------------------------------------------------------------

  class DB {
    var online: bool
    var posts: map<Id, PostRow>
    var monologues: map<Id, MonologueRow>
    var previews: seq<PreviewRow>
    var categories: map<Id, CategoryRow>
    var skills: map<Id, SkillRow>
    var experiences: map<Id, ExperienceRow>
    var profiles: map<Id, ProfileRow>
    var socialLinks: seq<SocialLinkRow>

    function State(): DbState
      reads this
    {
      DbState(online, posts, monologues, previews, categories, skills, experiences, profiles, socialLinks)
    }

    constructor (s: DbState)
      ensures State() == s
    {
      online, posts, monologues, previews := s.online, s.posts, s.monologues, s.previews;
      categories, skills, experiences := s.categories, s.skills, s.experiences;
      profiles, socialLinks := s.profiles, s.socialLinks;
    }

    /** Db.Exec of an UPDATE on blog_posts (QueryRow when it has RETURNING). */
    method ExecUpdatePosts(stmt: UpdateStmt<PostColumn>, args: seq<SqlValue>, now: Time)
      returns (r: Result<Option<PostRow>>)
      modifies this
      ensures (State(), r) == UpdatePosts(old(State()), stmt, args, now)
    {
      var after;
      after, r := UpdatePosts(State(), stmt, args, now).0, UpdatePosts(State(), stmt, args, now).1;
      posts := after.posts;
    }

    method ExecUpdateMonologues(stmt: UpdateStmt<MonologueColumn>, args: seq<SqlValue>, now: Time)
      returns (r: Result<Option<MonologueRow>>)
      modifies this
      ensures (State(), r) == UpdateMonologues(old(State()), stmt, args, now)
    {
      var after;
      after, r := UpdateMonologues(State(), stmt, args, now).0, UpdateMonologues(State(), stmt, args, now).1;
      monologues := after.monologues;
    }

    method ExecInsertPost(freshId: Id, row: PostRow) returns (r: Result<Id>)
      modifies this
      ensures (State(), r) == InsertPost(old(State()), freshId, row)
    {
      r := InsertPost(State(), freshId, row).1;
      if r.Ok? {
        posts := posts[freshId := row];
      }
    }

    method ExecInsertMonologue(freshId: Id, row: MonologueRow) returns (r: Result<Id>)
      modifies this
      ensures (State(), r) == InsertMonologue(old(State()), freshId, row)
    {
      r := InsertMonologue(State(), freshId, row).1;
      if r.Ok? {
        monologues := monologues[freshId := row];
      }
    }

    method ExecInsertPreview(row: PreviewRow) returns (r: Result<()>)
      modifies this
      ensures (State(), r) == InsertPreview(old(State()), row)
    {
      r := InsertPreview(State(), row).1;
      if r.Ok? {
        previews := previews + [row];
      }
    }

    method ExecDeletePreviewsOf(id: Id) returns (r: Result<()>)
      modifies this
      ensures (State(), r) == DeletePreviewsOf(old(State()), id)
    {
      r := DeletePreviewsOf(State(), id).1;
      if r.Ok? {
        previews := PreviewsNotOf(previews, id);
      }
    }

    method ExecDeletePost(id: Id) returns (r: Result<nat>)
      modifies this
      ensures (State(), r) == DeletePostRow(old(State()), id)
    {
      r := DeletePostRow(State(), id).1;
      if r == Ok(1) {
        posts := posts - {id};
      }
    }

    method ExecDeleteMonologue(id: Id) returns (r: Result<nat>)
      modifies this
      ensures (State(), r) == DeleteMonologueRow(old(State()), id)
    {
      r := DeleteMonologueRow(State(), id).1;
      if r == Ok(1) {
        monologues := monologues - {id};
      }
    }
  }
}
