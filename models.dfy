/**
 * The records and enumerations of the GraphQL layer (internal/models/models.go):
 * entities as returned to clients, the create and update inputs (every update
 * field optional), and the string-backed enumerations with their GraphQL
 * marshalling.
 */
module Models {
  import opened Base

  // ---------------------------------------------------------------------------
  // Enumerations. Each is a Go `string` type with named constants, so a value
  // may hold any string; the constants are the intended members.
  // ---------------------------------------------------------------------------

  datatype BlogStatus = BlogStatus(name: Bytes)

  const StatusDraft: BlogStatus := BlogStatus(Ascii("DRAFT"))
  const StatusPublished: BlogStatus := BlogStatus(Ascii("PUBLISHED"))
  const StatusArchived: BlogStatus := BlogStatus(Ascii("ARCHIVED"))

  /** The declared members of BlogStatus. */
  const BlogStatuses: set<BlogStatus> := {StatusDraft, StatusPublished, StatusArchived}

  datatype ContentType = ContentType(name: Bytes)

  const ContentPost: ContentType := ContentType(Ascii("POST"))
  const ContentCode: ContentType := ContentType(Ascii("CODE"))
  const ContentImage: ContentType := ContentType(Ascii("IMAGE"))
  const ContentUrlPreview: ContentType := ContentType(Ascii("URL_PREVIEW"))
  const ContentBlog: ContentType := ContentType(Ascii("BLOG"))

  /** The declared members of ContentType. */
  const ContentTypes: set<ContentType> :=
    {ContentPost, ContentCode, ContentImage, ContentUrlPreview, ContentBlog}

  /** Monologue difficulty; a string type used by the store layer (values checked by the schema). */
  datatype Difficulty = Difficulty(name: Bytes)

  const Beginner: Difficulty := Difficulty(Ascii("BEGINNER"))
  const Intermediate: Difficulty := Difficulty(Ascii("INTERMEDIATE"))
  const Advanced: Difficulty := Difficulty(Ascii("ADVANCED"))

  /** The member constants are pairwise distinct (their first letters differ). */
  lemma EnumMembersDistinct()
    ensures |BlogStatuses| == 3
    ensures |ContentTypes| == 5
  {
    assert StatusDraft.name[0] as int == 'D' as int;
    assert StatusPublished.name[0] as int == 'P' as int;
    assert StatusArchived.name[0] as int == 'A' as int;
    assert ContentPost.name[0] as int == 'P' as int;
    assert ContentCode.name[0] as int == 'C' as int;
    assert ContentImage.name[0] as int == 'I' as int;
    assert ContentUrlPreview.name[0] as int == 'U' as int;
    assert ContentBlog.name[0] as int == 'B' as int;
  }

  // ---------------------------------------------------------------------------
  // GraphQL marshalling of the enumerations.
  // ---------------------------------------------------------------------------

  /** The dynamically typed value gqlgen hands to UnmarshalGQL. */
  datatype GqlValue = GqlString(s: Bytes) | GqlInt(i: int) | GqlBool(b: bool) | GqlNull

  /**
   * UnmarshalGQL on a *ContentType receiver: a string is stored as is, without
   * checking that it names a member; anything else is an error and leaves the
   * receiver unchanged. Returns the receiver afterwards and the error.
   */
  function UnmarshalContentType(c: ContentType, v: GqlValue): (r: (ContentType, Option<Error>))
    ensures r.1.Some? <==> !v.GqlString?
    ensures r.1.Some? ==> r == (c, Some(MustBeString(Ascii("ContentType"))))
    ensures v.GqlString? ==> r.0.name == v.s
  {
    if v.GqlString? then (ContentType(v.s), None)
    else (c, Some(MustBeString(Ascii("ContentType"))))
  }

  function UnmarshalBlogStatus(b: BlogStatus, v: GqlValue): (r: (BlogStatus, Option<Error>))
    ensures r.1.Some? <==> !v.GqlString?
    ensures r.1.Some? ==> r == (b, Some(MustBeString(Ascii("BlogStatus"))))
    ensures v.GqlString? ==> r.0.name == v.s
  {
    if v.GqlString? then (BlogStatus(v.s), None)
    else (b, Some(MustBeString(Ascii("BlogStatus"))))
  }

  /** MarshalGQL writes the value's string (the quoting is left to the writer). */
  function MarshalContentType(c: ContentType): GqlValue { GqlString(c.name) }

  function MarshalBlogStatus(b: BlogStatus): GqlValue { GqlString(b.name) }

  lemma MarshalRoundTrip(c: ContentType, b: BlogStatus, prior: ContentType, priorStatus: BlogStatus)
    ensures UnmarshalContentType(prior, MarshalContentType(c)) == (c, None)
    ensures UnmarshalBlogStatus(priorStatus, MarshalBlogStatus(b)) == (b, None)
  {
  }

  /** UnmarshalGQL admits strings that name no member: the schema's CHECK is the only guard. */
  lemma UnmarshalAcceptsNonMembers()
    ensures UnmarshalBlogStatus(StatusDraft, GqlString(Ascii("REVIEW"))).0 !in BlogStatuses
    ensures UnmarshalBlogStatus(StatusDraft, GqlString(Ascii("REVIEW"))).1 == None
  {
    assert Ascii("REVIEW")[0] as int == 'R' as int;
    assert StatusDraft.name[0] as int == 'D' as int;
    assert StatusPublished.name[0] as int == 'P' as int;
    assert StatusArchived.name[0] as int == 'A' as int;
  }

  // ---------------------------------------------------------------------------
  // Entities as returned to clients. Optional Go pointers are Options; time
  // stamps are abstract instants (their RFC 3339 rendering is left out).
  // ---------------------------------------------------------------------------

  datatype URLPreview = URLPreview(
    title: Bytes,
    description: Option<Bytes>,
    imageUrl: Option<Bytes>,
    siteName: Option<Bytes>,
    url: Bytes,
    favicon: Option<Bytes>,
    createdAt: Time)

  datatype CodeCategory = CodeCategory(
    id: Id,
    name: Bytes,
    slug: Bytes,
    description: Option<Bytes>,
    parentId: Option<Id>,
    color: Option<Bytes>,
    icon: Option<Bytes>,
    createdAt: Time,
    updatedAt: Time)

  datatype BlogPost = BlogPost(
    id: Id,
    title: Bytes,
    slug: Bytes,
    excerpt: Option<Bytes>,
    content: Bytes,
    coverImageUrl: Option<Bytes>,
    tags: seq<Bytes>,
    status: BlogStatus,
    seoTitle: Option<Bytes>,
    seoDescription: Option<Bytes>,
    publishedAt: Option<Time>,
    likeCount: Option<int>,
    createdAt: Time,
    updatedAt: Time)

  /** A monologue carries at most one preview: a single optional value. */
  datatype Monologue = Monologue(
    id: Id,
    content: Bytes,
    contentType: ContentType,
    codeLanguage: Option<Bytes>,
    codeSnippet: Option<Bytes>,
    tags: seq<Bytes>,
    isPublished: bool,
    publishedAt: Option<Time>,
    createdAt: Time,
    updatedAt: Time,
    url: Option<Bytes>,
    urlPreview: Option<URLPreview>,
    series: Option<Bytes>,
    category: Option<Bytes>,
    likeCount: Option<int>,
    codeCategory: Option<CodeCategory>,
    difficulty: Option<Difficulty>)

  datatype Skill = Skill(
    id: Id,
    name: Bytes,
    category: Bytes,
    level: int,
    iconUrl: Option<Bytes>,
    displayOrder: int,
    createdAt: Time,
    updatedAt: Time)

  datatype SocialLink = SocialLink(platform: Bytes, url: Bytes, icon: Option<Bytes>)

  datatype Profile = Profile(
    id: Id,
    name: Bytes,
    title: Option<Bytes>,
    bio: Option<Bytes>,
    avatarUrl: Option<Bytes>,
    socialLinks: seq<SocialLink>,
    createdAt: Time,
    updatedAt: Time)

  datatype Experience = Experience(
    id: Id,
    company: Bytes,
    position: Bytes,
    description: Option<Bytes>,
    startDate: Bytes,
    endDate: Option<Bytes>,
    isCurrent: bool,
    technologies: seq<Bytes>,
    createdAt: Time,
    updatedAt: Time)

  datatype SkillCategory = SkillCategory(category: Bytes, skills: seq<Skill>)

  datatype MonologuesResponse = MonologuesResponse(nodes: seq<Monologue>, totalCount: nat, hasNextPage: bool)

  /** publishedAt is a required field here, unlike on the entities. */
  datatype RelatedContent = RelatedContent(
    id: Id,
    title: Bytes,
    contentType: ContentType,
    excerpt: Option<Bytes>,
    tags: seq<Bytes>,
    publishedAt: Time,
    readTime: Option<int>)

  datatype LikeResponse = LikeResponse(id: Id, likeCount: int, isLiked: bool)

  // ---------------------------------------------------------------------------
  // Inputs. Create inputs require the fields the schema marks required; every
  // field of an update input is optional (None = absent from the request).
  // ---------------------------------------------------------------------------

  datatype CreateBlogPostInput = CreateBlogPostInput(
    title: Bytes,
    slug: Bytes,
    excerpt: Option<Bytes>,
    content: Bytes,
    coverImageUrl: Option<Bytes>,
    tags: seq<Bytes>,
    status: Option<BlogStatus>,
    seoTitle: Option<Bytes>,
    seoDescription: Option<Bytes>)

  datatype UpdateBlogPostInput = UpdateBlogPostInput(
    title: Option<Bytes>,
    slug: Option<Bytes>,
    excerpt: Option<Bytes>,
    content: Option<Bytes>,
    coverImageUrl: Option<Bytes>,
    tags: Option<seq<Bytes>>,
    status: Option<BlogStatus>,
    seoTitle: Option<Bytes>,
    seoDescription: Option<Bytes>)

  datatype CreateMonologueInput = CreateMonologueInput(
    content: Bytes,
    contentType: ContentType,
    codeLanguage: Option<Bytes>,
    codeSnippet: Option<Bytes>,
    tags: seq<Bytes>,
    isPublished: Option<bool>,
    url: Option<Bytes>,
    series: Option<Bytes>,
    category: Option<Bytes>)

  datatype UpdateMonologueInput = UpdateMonologueInput(
    content: Option<Bytes>,
    contentType: Option<ContentType>,
    codeLanguage: Option<Bytes>,
    codeSnippet: Option<Bytes>,
    tags: Option<seq<Bytes>>,
    isPublished: Option<bool>,
    url: Option<Bytes>,
    series: Option<Bytes>,
    category: Option<Bytes>)

  /** The update that names no field. */
  const EmptyPostUpdate: UpdateBlogPostInput :=
    UpdateBlogPostInput(None, None, None, None, None, None, None, None, None)

  const EmptyMonologueUpdate: UpdateMonologueInput :=
    UpdateMonologueInput(None, None, None, None, None, None, None, None, None)
}
