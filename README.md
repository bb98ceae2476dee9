# Portfolio content layer, modelled in Dafny

This project models the content layer of a GraphQL backend for a personal
portfolio. The backend stores blog posts and monologues (short notes, snippets
or links), URL previews attached to monologues, skills, experiences, a profile
and code categories in a relational store. It serves them through GraphQL
query and mutation resolvers.

The model has these parts:

- `base.dfy` (`Base`): the shared vocabulary.
  - Go strings are byte sequences.
  - Ids are the text of UUIDs, compared as byte strings.
  - Instants are an opaque ordered `nat`.
  - It also defines `Option`, `Result`, the error values, the byte-lexicographic order and tag overlap.
- `models.dfy` (`Models`): the entities, the create and update inputs (every update field optional), and the
  string-backed `BlogStatus` and `ContentType` enumerations with their GraphQL (un)marshalling.
- `sql.dfy` (`Sql`): the store semantics the Go code relies on:
  - UPDATE statements as SET clauses with numbered placeholders, and the driver's check that placeholders
    and arguments agree;
  - SELECT ... ORDER BY as a sorted selection of a table, implemented by an insertion-sort scan;
  - LIMIT/OFFSET.
- `store.dfy` (`Store`): the tables.
  - One map per table, with previews and social links kept as sequences in storage order.
  - The schema constraints (`Consistent`): the CHECK, UNIQUE and FOREIGN KEY constraints, and the VARCHAR
    limits of blog_posts, monologues and url_previews, counted in characters. Also the effect of each
    statement on a `DbState` value.
  - The class `DB` is the handle every operation goes through. Its `Exec…` methods are proved to have
    exactly those effects.
- `services.dfy` (`Services`): the read side of `internal/database/services.go`.
- `mutations.dfy` (`Mutations`): the write side of `internal/database/mutations.go`.
  - Each mutation is a pure effect function from the store before to the store after and the result.
  - The method of the same name runs it statement by statement through `DB`, with the imperative SET-list
    builders, and is proved to have that effect.
- `post_properties.dfy` and `monologue_properties.dfy`: what the mutations guarantee, including:
  - partial updates;
  - the two publication policies;
  - URL-preview ownership;
  - the like counter;
  - creation defaults and read-back;
  - deletion;
  - preservation of the schema constraints and of the API invariants: published rows are dated, and a
    monologue has at most one preview.
- `helpers.dfy` (`Helpers`): `detectURLInText` as a leftmost-longest scanner proved against a declarative
  definition of a URL occurrence, and `min`.
- `resolver.dfy` (`Resolvers`): the GraphQL resolvers of `internal/resolvers/resolver.go`.
  - The related-content matcher, skill grouping, pagination, the stub URL preview and the like-count field.
  - The query and mutation resolver classes with their "database connection not available" guard.

A store that cannot be reached is modelled by `DbState.online == false`: every statement of the operation then
fails, so the error path of each operation's first statement is reachable in the model. Reachability is fixed
for a whole operation, so a later statement cannot fail on its own (see "## Left out"). Where `models.go` and `services.go` disagree on the
fields of `Monologue`, the model follows `services.go`, which fills `Difficulty` and `CodeCategory`.
`Monologue.RelatedBlogPosts` (models.go:51) is never filled by any query, so the entity does not carry it.

## Model

| member | source | states |
|---|---|---|
| Models.EnumMembersDistinct | internal/models/models.go:69-86 | BlogStatus has exactly three declared members and ContentType exactly five, all distinct |
| Models.UnmarshalContentType | internal/models/models.go:201-208 | a non-string value is rejected with "ContentType must be a string" and leaves the receiver unchanged; any string is accepted verbatim |
| Models.UnmarshalBlogStatus | internal/models/models.go:215-222 | the same policy for BlogStatus |
| Models.MarshalRoundTrip | internal/models/models.go:197-222 | unmarshalling a marshalled enum value gives the value back without error, whatever the prior receiver |
| Models.UnmarshalAcceptsNonMembers | internal/models/models.go:215-222 | a string that is no declared member (e.g. "REVIEW") is accepted without error |
| Base.CharLengthBounds | internal/database/connection.go:166 | a text has at most as many characters as bytes, and an ASCII text exactly as many |
| Base.BytesLeTotal | internal/database/services.go:85 | the byte-lexicographic order used for ORDER BY name is total, as also used at line 407 |
| Base.BytesLeTransitive | internal/database/services.go:85 | that order is transitive |
| Base.BytesLeAntisymmetric | internal/database/services.go:85 | that order is antisymmetric |
| Sql.SortedSelect | internal/database/services.go:190-230 | the scan over a table returns exactly the kept rows, each once, sorted by the ORDER BY preorder |
| Sql.Page | internal/database/services.go:284-293 | LIMIT then OFFSET: a negative bound is an error; otherwise the page is the slice from the offset, at most limit long, and shorter only at the end of the rows |
| Store.DB.ExecUpdatePosts | internal/database/mutations.go:124-127 | executing an UPDATE on blog_posts has exactly the statement's effect on the state |
| Store.DB.ExecInsertPreview | internal/database/mutations.go:464-477 | executing the preview INSERT appends the row when its foreign key and VARCHAR limits hold and otherwise fails, leaving the state unchanged |
| Store.DB.ExecDeletePreviewsOf | internal/database/mutations.go:482-486 | DELETE ... WHERE monologue_id removes exactly that monologue's previews |
| Store.ShortFits | internal/database/connection.go:172 | a text of at most n bytes fits a VARCHAR(n) column |
| Store.StatusNamesFit | internal/database/connection.go:172 | every status the CHECK admits fits VARCHAR(20), so an over-long status is always outside the CHECK list and is refused as too long first |
| Store.UpdatePostsConsistent | internal/database/connection.go:163-179 | an UPDATE on blog_posts never breaks the schema constraints (status CHECK, unique slug, VARCHAR limits) |
| Store.ReplacePostConsistent | internal/database/connection.go:163-179 | replacing one blog post by a row that passes the status CHECK, the VARCHAR limits and slug uniqueness keeps every table consistent |
| Store.SameOtherTablesConsistent | internal/database/connection.go:78-162 | the constraints of the other content tables do not depend on blog_posts, so changing only blog_posts keeps them |
| Store.InsertMonologueConsistent | internal/database/connection.go:133-146 | an INSERT into monologues never breaks the content_type, difficulty, foreign-key and VARCHAR constraints |
| Store.DeleteMonologueConsistent | internal/database/connection.go:154 | deleting a monologue row keeps the store consistent exactly as the FK demands (its previews are gone first) |
| Store.PreviewsNotOfSpec | internal/database/mutations.go:482-486 | after the delete no preview references the monologue, and every other preview is kept |
| Store.MonologueOrderTotal | internal/database/services.go:282-306 | the published-desc (NULLs first) and created-desc orders are total preorders |
| Services.NullStringRoundTrip | internal/database/services.go:474-486 | nullStringToPtr(ptrToNullString(p)) == p |
| Services.NullStringRoundTripBack | internal/database/services.go:474-486 | ptrToNullString(nullStringToPtr(ns)) == ns for every canonical NullString |
| Services.PtrToNullInt | internal/database/services.go:488-493 | nil maps to invalid, i to valid i |
| Services.NullLikeCountPolicy | internal/database/services.go:219-224 | a NULL like_count becomes 0 for blog posts but stays absent for monologues (the monologue side is at lines 373-376) |
| Services.MonologueOptionalParts | internal/database/services.go:368-395 | codeCategory is present iff the joined category exists, difficulty iff the column is set, and urlPreview iff url is set and the lookup finds a preview; a failed lookup gives no preview |
| Services.QueryBlogPosts | internal/database/services.go:190-230 | the rows the query selects, scanned in order into entities; the query's own errors are reported |
| Services.GetBlogPosts | internal/database/services.go:151-159 | exactly the PUBLISHED posts, each once, newest publication first |
| Services.GetAdminBlogPosts | internal/database/services.go:161-169 | every post, each once, newest creation first |
| Services.GetBlogPostBySlug | internal/database/services.go:171-188 | a found post has the slug and is PUBLISHED; None only when no published post has that slug |
| Services.GetBlogPostLikeCount | internal/database/services.go:232-248 | the stored count, with 0 both for a missing post and for NULL |
| Services.GetURLPreviewByMonologueID | internal/database/services.go:444-471 | the first preview of the monologue in storage order, or (nil, nil) when there is none |
| Services.FirstPreviewOfSpec | internal/database/services.go:444-461 | the preview found is the earliest one referencing the monologue, and none is found iff none references it |
| Services.MonologueFiltersForMeaning | internal/database/services.go:259-284 | the WHERE the builder emits holds iff the row is published and matches the category, the difficulty and (for non-empty tags) shares a tag |
| Services.MonologuesQueryForSpec | internal/database/services.go:259-295 | placeholders are numbered 1..n with one argument each, ordering is published-desc, and paging is the given limit and offset |
| Services.BuildMonologuesQuery | internal/database/services.go:251-295 | the imperative query builder produces that query and argument list |
| Services.GetMonologues | internal/database/services.go:251-296 | the matching published monologues, sorted newest first, paged by limit then offset |
| Services.GetAdminMonologues | internal/database/services.go:298-310 | every monologue, newest creation first, with no publication filter |
| Services.GetMonologueByID | internal/database/services.go:312-333 | the monologue whatever its publication state, or (nil, nil) when missing |
| Services.GetSkills | internal/database/services.go:82-112 | every skill, sorted by (display_order, name) |
| Services.GetExperiences | internal/database/services.go:115-148 | every experience, current ones first, then by start date descending |
| Services.CurrentExperiencesFirst | internal/database/services.go:119 | in that listing no past experience precedes a current one |
| Services.GetCodeCategories | internal/database/services.go:404-441 | every code category, sorted by name |
| Services.GetSocialLinks | internal/database/services.go:55-79 | the links of the profile |
| Services.LinksOfSpec | internal/database/services.go:55-79 | the links are exactly those whose profile_id is the profile |
| Services.GetProfile | internal/database/services.go:13-43 | the profile with its links, or the no-rows error when missing |
| Services.GetDefaultProfile | internal/database/services.go:45-53 | a profile created no later than any other, with its links; the no-rows error iff there is none |
| Mutations.JoinStrings | internal/database/mutations.go:489-502 | the loop computes the parts separated by sep ("" for none, the part itself for one) |
| Mutations.JoinEnds | internal/database/mutations.go:489-502 | the joined string starts with the first part and ends with the last |
| Mutations.JoinLength | internal/database/mutations.go:489-502 | the joined string holds every part plus one separator per gap |
| Mutations.UpdateForSpec | internal/database/mutations.go:119-122 | numbered SET parts with the id bound last form a statement whose placeholders match its arguments and whose WHERE argument is the id |
| Mutations.PostPartsMerge | internal/database/mutations.go:62-117 | the SET parts built from an update input rewrite exactly the present fields, store them verbatim, date a first publication and stamp updated_at |
| Mutations.BuildPostUpdate | internal/database/mutations.go:60-122 | the imperative builder (append, argIndex++) produces that statement |
| Mutations.PostStmtWrites | internal/database/mutations.go:60-202 | the statements of update, publish and unpublish edit exactly the post they name, as the edit policy says |
| Mutations.UpdateBlogPost | internal/database/mutations.go:60-139 | update then re-read; a missing post is "blog post not found after update"; a merged row that breaks a CHECK, the unique slug or a VARCHAR limit fails with "failed to update blog post" and changes nothing |
| Mutations.PublishBlogPost | internal/database/mutations.go:156-179 | publish then re-read; a missing post is "not found after publish" |
| Mutations.UnpublishBlogPost | internal/database/mutations.go:181-202 | unpublish then re-read; a missing post is "not found after unpublish" |
| Mutations.CreateBlogPost | internal/database/mutations.go:12-58 | insert the row built from the input with its defaults and return the entity built from the input; a row that breaks a CHECK, the unique slug or a VARCHAR limit fails with "failed to create blog post" and stores nothing |
| Mutations.DeleteBlogPost | internal/database/mutations.go:141-154 | delete the row; the result is whether a row was removed |
| Mutations.StripBlogPrefix | internal/database/mutations.go:422-425 | a leading "blog-" is removed only when the id is longer than five bytes |
| Mutations.LikeBlogPost | internal/database/mutations.go:420-447 | increment the like count of the stripped id and return that id with the new count |
| Mutations.MonoPartsMerge | internal/database/mutations.go:263-320 | the monologue SET parts rewrite exactly the present fields, date a first publication and stamp updated_at |
| Mutations.BuildMonoUpdate | internal/database/mutations.go:262-324 | the imperative builder produces that statement |
| Mutations.MonologueStmtWrites | internal/database/mutations.go:262-395 | the statements of update, publish, unpublish and like edit exactly the monologue they name |
| Mutations.UpdateMonologue | internal/database/mutations.go:262-343 | update, then (when url is present) delete previews and create one for a non-empty url, then re-read; a merged row that breaks a CHECK, the category FK or a VARCHAR limit fails with "failed to update monologue" and changes nothing |
| Mutations.PublishMonologue | internal/database/mutations.go:363-378 | publish (re-dating now) and re-read |
| Mutations.UnpublishMonologue | internal/database/mutations.go:380-395 | unpublish (clearing the date) and re-read |
| Mutations.LikeMonologue | internal/database/mutations.go:397-418 | increment the like count and return the id unchanged with the new count |
| Mutations.CreateMonologue | internal/database/mutations.go:205-260 | insert the row, create a preview whenever url is present (ignoring its failure) and return the entity built from the input; a row that breaks a CHECK, the category FK or a VARCHAR limit fails with "failed to create monologue" and stores nothing |
| Mutations.DeleteMonologue | internal/database/mutations.go:345-361 | delete the previews (ignoring failure), then the row |
| Mutations.CreateURLPreview | internal/database/mutations.go:451-480 | insert the generated preview for the monologue and return it |
| Mutations.DeleteURLPreviewByMonologueID | internal/database/mutations.go:482-486 | remove every preview of the monologue |
| PostProperties.EmptyPostUpdateStampsOnly | internal/database/mutations.go:62-117 | an update with every field absent changes only updated_at |
| PostProperties.MergedPostIdempotent | internal/database/mutations.go:62-117 | applying the same update twice equals applying it once |
| PostProperties.MergedPostNeverClears | internal/database/mutations.go:71-115 | an absent nullable field keeps its value; an update never clears one |
| PostProperties.MergedPostStoresEmptyValues | internal/database/mutations.go:62-95 | a present "" is stored as "" (not NULL) and a present empty tag list as an empty list |
| PostProperties.PostDateSticky | internal/database/mutations.go:101-186 | once a post has a publication date no edit moves it |
| PostProperties.PostPublishDates | internal/database/mutations.go:101-165 | publishing an undated post dates it now; an update to another status leaves it undated |
| PostProperties.PostHistoryKeepsDate | internal/database/mutations.go:60-202 | over any sequence of edits a published post stays dated and a dated post keeps its date |
| PostProperties.RepublishKeepsFirstDate | internal/database/mutations.go:156-202 | publish, unpublish, publish keeps the first publication date |
| PostProperties.PostWriteKeepsDated | internal/database/mutations.go:60-202 | update, publish, unpublish and like keep every published post of the store dated (the like at lines 420-447 included) |
| PostProperties.CreatePostKeepsDated | internal/database/mutations.go:13-44 | creating a post keeps every published post dated, the new one included |
| PostProperties.PostMutationOutcome | internal/database/mutations.go:60-202 | an existing post is rewritten by the edit and read back, or the row is refused with the state unchanged: an over-long value as `ValueTooLong`, otherwise a broken CHECK or the unique slug as `ConstraintViolation` |
| PostProperties.PostMutationNotFound | internal/database/mutations.go:134-199 | a missing post gives "blog post not found after <step>" and changes nothing |
| PostProperties.PostMutationErrors | internal/database/mutations.go:124-136 | every error is either the wrapped "failed to <action>" or the not-found-after error; the re-read's own error is not modelled (see "## Left out") |
| PostProperties.PublishUnpublishSucceed | internal/database/mutations.go:156-202 | on a consistent store publish yields PUBLISHED and unpublish yields DRAFT |
| PostProperties.PostStatusWrite | internal/database/mutations.go:156-202 | the publish and unpublish statements on an existing post of a consistent store write the PUBLISHED / DRAFT row and never fail |
| PostProperties.UpdateToTakenSlugFails | internal/database/connection.go:167 | an update to another post's slug is refused and leaves the store unchanged: a `ConstraintViolation` of the UNIQUE slug, or `ValueTooLong` if another value is over-long |
| PostProperties.UpdateToLongTitleFails | internal/database/connection.go:166 | an update to a title of more than 500 characters fails with `ValueTooLong` (VARCHAR(500)) and leaves the store unchanged |
| PostProperties.StripBlogPrefixExamples | internal/database/mutations.go:422-425 | "blog-abc" becomes "abc", "blog-" alone is kept, only one prefix is stripped, other ids are kept |
| PostProperties.LikeBlogPostOutcome | internal/database/mutations.go:420-447 | NULL counts as 0; the new count is old + 1 and is returned with IsLiked true; a missing post is sql.ErrNoRows; past 2^31-1 the store reports integer out of range |
| PostProperties.PostLikeWrite | internal/database/mutations.go:420-447 | the like statement on one post: nothing for a missing id, the row with count + 1 (NULL as 0) within the INTEGER range, integer out of range past it |
| PostProperties.CreateBlogPostFails | internal/database/mutations.go:12-58 | creation fails exactly when the status is not a declared one, the slug is taken, or the title, slug, cover image url or SEO title exceeds its VARCHAR limit (connection.go:166-173), leaving the store unchanged; the error is `ValueTooLong` when a value is over-long and `ConstraintViolation` otherwise |
| PostProperties.CreatedPostReadsBack | internal/database/mutations.go:13-44 | the returned entity is what is stored; status defaults to DRAFT, publishedAt is set iff PUBLISHED, likeCount is 0 |
| PostProperties.DeleteBlogPostOutcome | internal/database/mutations.go:141-154 | the result is whether the post existed; it is gone and every other post is as before |
| PostProperties.PostMutationsKeepConsistent | internal/database/connection.go:124-172 | update, publish, unpublish, like, create and delete keep the schema constraints |
| MonologueProperties.EmptyMonologueUpdateStampsOnly | internal/database/mutations.go:263-320 | an update with every field absent changes only updated_at |
| MonologueProperties.MergedMonologueIdempotent | internal/database/mutations.go:263-320 | applying the same update twice equals applying it once |
| MonologueProperties.MergedMonologueStoresEmptyValues | internal/database/mutations.go:263-320 | a present "" is stored as "" (not NULL) and a present empty tag list as an empty list |
| MonologueProperties.MonologuePublishAsymmetry | internal/database/mutations.go:363-395 | PublishMonologue re-dates now and UnpublishMonologue clears the date, while an update of isPublished (either way) keeps an existing date (the update branch at lines 294-304 included) |
| MonologueProperties.NewMonologueDated | internal/database/mutations.go:206-216 | a new monologue has a publication date iff it is published, and that date is now |
| MonologueProperties.MonologueMutationsKeepDated | internal/database/mutations.go:205-418 | every monologue mutation keeps every published monologue dated |
| MonologueProperties.PostMutationsKeepBothDated | internal/database/mutations.go:12-202 | the blog-post mutations keep published monologues dated, and deleting a post keeps the remaining posts dated |
| MonologueProperties.MonologueWriteKeepsPosts | internal/database/mutations.go:363-418 | update, publish, unpublish and like of a monologue leave blog_posts as it was |
| MonologueProperties.UpdateMonologueKeepsPosts | internal/database/mutations.go:262-343 | updateMonologue, its preview steps included, leaves blog_posts as it was |
| MonologueProperties.CreateMonologueKeepsPosts | internal/database/mutations.go:205-260 | createMonologue, its preview included, leaves blog_posts as it was |
| MonologueProperties.DeleteMonologueKeepsPosts | internal/database/mutations.go:345-361 | deleteMonologue leaves blog_posts as it was |
| MonologueProperties.MonologueMutationsKeepPostsDated | internal/database/mutations.go:205-418 | so every monologue mutation keeps every published post dated |
| MonologueProperties.MonologueMutationNotFound | internal/database/mutations.go:342-394 | a missing monologue gives no entity and no error and changes nothing |
| MonologueProperties.UpdateMissingMonologue | internal/database/mutations.go:262-343 | updating a missing monologue of a consistent store gives no entity, no error and no change, even with a url |
| MonologueProperties.MonologuePublishSucceeds | internal/database/mutations.go:363-395 | on a consistent store publish yields a published monologue dated now and unpublish an unpublished, undated one |
| MonologueProperties.LikeMonologueOutcome | internal/database/mutations.go:397-418 | NULL counts as 0; the new count is old + 1 and is returned with the id unchanged and IsLiked true; a missing row is sql.ErrNoRows; past 2^31-1 the store reports integer out of range |
| MonologueProperties.MonologueLikeWrite | internal/database/mutations.go:397-418 | the like statement on one monologue: nothing for a missing id, the row with count + 1 (NULL as 0) within the INTEGER range, integer out of range past it |
| MonologueProperties.UpdateMonologueFails | internal/database/mutations.go:326-329 | an update fails exactly when the merged row breaks a CHECK, the category FK or a VARCHAR limit, and then changes nothing; the error is `ValueTooLong` when a value is over-long and `ConstraintViolation` otherwise |
| MonologueProperties.UpdateToLongCodeLanguageFails | internal/database/connection.go:137 | an update to a code_language of more than 50 characters fails with `ValueTooLong` (VARCHAR(50)) and changes nothing |
| MonologueProperties.RegeneratedPreviews | internal/database/mutations.go:331-340 | the previews left are the other monologues' ones, followed by the generated preview when the url is non-empty and fits VARCHAR(2048) |
| MonologueProperties.RegeneratePreviewOwnership | internal/database/mutations.go:305-340 | a present url deletes all previews of the monologue and creates one exactly when the url is non-empty and fits url_previews.url (the failed insert is ignored); an absent url touches no preview; other monologues' previews are kept |
| MonologueProperties.UpdateMonologuePreviews | internal/database/mutations.go:262-343 | a successful update stores the merged row, leaves one generated preview or none as above, and returns the re-read monologue with that preview |
| Mutations.GeneratedPreviewFits | internal/database/mutations.go:454-462 | the generated preview's fixed title, image url, site name and favicon fit their VARCHAR columns, so it fits url_previews whenever its url does |
| MonologueProperties.GeneratedPreviewReadsBack | internal/database/mutations.go:454-462 | the stored preview reads back as the generated one: url = input, title "Generated Preview", description "This is a generated preview for "+url |
| MonologueProperties.BlogIsNotAStoredContentType | internal/database/connection.go:136 | BLOG is a ContentType member but not an allowed content_type |
| MonologueProperties.CreateBlogMonologueFails | internal/database/connection.go:136 | creating a BLOG monologue is refused and changes nothing: a `ConstraintViolation` of the CHECK, or `ValueTooLong` if a value is over-long |
| MonologueProperties.CreatedMonologueReadsBack | internal/database/mutations.go:206-257 | the returned entity is what is stored; isPublished defaults to false, publishedAt is set iff published, likeCount is 0, and a present url (even "") gets a preview unless its insert fails |
| MonologueProperties.DeleteMonologueOutcome | internal/database/mutations.go:345-361 | the result is whether the monologue existed; the row and all its previews are gone; everything else is as before |
| MonologueProperties.MonologueMutationsKeepConsistent | internal/database/connection.go:133-154 | every monologue mutation keeps the schema constraints, including the previews' foreign key |
| MonologueProperties.MonologueMutationsKeepOnePreview | internal/database/mutations.go:205-361 | starting from at most one preview per monologue, every monologue mutation keeps at most one |
| Helpers.SpanEnd | internal/resolvers/helpers.go:15-18 | the end of the longest whitespace-free run from a position |
| Helpers.ScanSpec | internal/resolvers/helpers.go:14-19 | the scanner finds no match iff none starts at or after the position; otherwise it finds the leftmost start and the longest match there |
| Helpers.DetectURLInTextSpec | internal/resolvers/helpers.go:14-19 | "" iff the text has no http:// or https:// followed by a non-space byte; otherwise a contiguous, whitespace-free substring that starts with the scheme, ends at whitespace or end of text, and starts no later than any other match |
| Helpers.Min | internal/resolvers/helpers.go:21-26 | at most both arguments and equal to one of them |
| Resolvers.HasCommonTag | internal/resolvers/resolver.go:352-363 | the nested loops with break find a common tag iff the tag lists share one (the post loop at lines 387-398 is the same) |
| Resolvers.ReadTime | internal/resolvers/resolver.go:375 | len(content)/200 + 1, so at least 1 and covering the content in 200-byte units (line 408 for posts) |
| Resolvers.MonologueSummary | internal/resolvers/resolver.go:365-376 | the title is the first min(50, len) bytes plus "...", the excerpt the first min(100, len) bytes plus "...", the type is always POST and the date is the publication date |
| Resolvers.PostSummary | internal/resolvers/resolver.go:400-409 | a post keeps its own title and excerpt, the type is POST, and the read time comes from its content |
| Resolvers.MaxLimit | internal/resolvers/resolver.go:340-343 | 6, lowered to the limit only when that is smaller |
| Resolvers.CollectRelatedMonologues | internal/resolvers/resolver.go:346-378 | the loop with continue and the cap check yields the capped related-monologue prefix |
| Resolvers.CollectRelatedPosts | internal/resolvers/resolver.go:381-411 | the loop with break fills the remaining room with related posts |
| Resolvers.CollectRelated | internal/resolvers/resolver.go:346-411 | the two loops together compute the related-content specification |
| Resolvers.RelatedMonologuesMembers | internal/resolvers/resolver.go:346-365 | a monologue yields an entry iff it is published, is not the source and shares a tag with it |
| Resolvers.RelatedPostsMembers | internal/resolvers/resolver.go:387-400 | a post yields an entry iff it shares a tag and is PUBLISHED |
| Resolvers.RelatedBounds | internal/resolvers/resolver.go:340-384 | at most max(0, cap) entries; a source without tags yields nothing; when everything fits, everything related is returned |
| Resolvers.RelatedOrigins | internal/resolvers/resolver.go:346-411 | the result is a prefix of the related monologues followed by related posts, with every monologue entry before every post entry, each in store order |
| Resolvers.SkillsOfMembers | internal/resolvers/resolver.go:207-210 | a category's group holds exactly the skills of that category |
| Resolvers.GroupingPartitions | internal/resolvers/resolver.go:207-220 | every skill is in exactly one group, the group with its own category |
| Resolvers.GroupByCategory | internal/resolvers/resolver.go:207-220 | the groups are non-empty with distinct categories, each holding its category's skills in input order, and every skill's category has a group; the group order is left open |
| Resolvers.AddInt64 | internal/resolvers/resolver.go:257 | Go's 64-bit `int` addition: the result lies in [-2^63, 2^63) and equals the exact sum modulo 2^64 |
| Resolvers.HasNextPageMeaning | internal/resolvers/resolver.go:256-259 | with both limit and offset given and offset + limit below 2^63, hasNextPage holds iff the page is full and more matches follow it; when the sum passes 2^63 - 1 it wraps negative and hasNextPage always holds |
| Resolvers.HasNextPageOverflow | internal/resolvers/resolver.go:257 | offset 2^63 - 1 with limit 1 gives an empty page of no matches and yet hasNextPage, from the int64 wrap |
| Resolvers.SelectionCount | internal/resolvers/resolver.go:250-263 | the unpaged selection has as many rows as there are matching monologues |
| Resolvers.GenerateURLPreview | internal/resolvers/resolver.go:54-66 | the fixed placeholder preview with the given url, the same one a monologue's url produces |
| Resolvers.BlogPostResolver.LikeCount | internal/resolvers/resolver.go:476-485 | 0 without a store or on a lookup error, otherwise the stored count (0 for a missing post or NULL) |
| Resolvers.QueryResolver.Profile | internal/resolvers/resolver.go:181-186 | the guard, then the earliest created profile with its links; a reachable store with no profiles answers sql.ErrNoRows |
| Resolvers.QueryResolver.Skills | internal/resolvers/resolver.go:189-194 | the guard, then every skill in (display_order, name) order |
| Resolvers.QueryResolver.SkillsByCategory | internal/resolvers/resolver.go:197-221 | the guard, then the skills grouped by category as GroupByCategory states, or the store's error |
| Resolvers.QueryResolver.Experiences | internal/resolvers/resolver.go:224-229 | the guard, then the experiences, current ones first |
| Resolvers.QueryResolver.Monologue | internal/resolvers/resolver.go:232-237 | the guard, then the monologue by id; a missing one is (nil, nil) |
| Resolvers.QueryResolver.Monologues | internal/resolvers/resolver.go:240-266 | the guard; the page of matching monologues, totalCount equal to the number of all matches and hasNextPage as HasNextPage, with the int64 wrap of offset + limit; a bad limit or offset is an error |
| Resolvers.QueryResolver.BlogPost | internal/resolvers/resolver.go:269-274 | the guard, then the published post with that slug or none |
| Resolvers.QueryResolver.BlogPosts | internal/resolvers/resolver.go:277-282 | the guard, then exactly the published posts |
| Resolvers.QueryResolver.AdminBlogPosts | internal/resolvers/resolver.go:285-290 | the guard, then every post |
| Resolvers.QueryResolver.AdminMonologues | internal/resolvers/resolver.go:293-298 | the guard, then every monologue |
| Resolvers.QueryResolver.CodeCategories | internal/resolvers/resolver.go:301-314 | the guard, then the categories by name; codeCategoriesHierarchy returns the same flat list |
| Resolvers.QueryResolver.RelatedContent | internal/resolvers/resolver.go:317-414 | the guard; an unknown source or a failed lookup gives an empty list and no error; otherwise the related content of the source's tags over every published monologue and post, capped by MaxLimit |
| Resolvers.MutationResolver.LikeMonologue | internal/resolvers/resolver.go:38-43 | the guard, then the store's likeMonologue |
| Resolvers.MutationResolver.LikeBlogPost | internal/resolvers/resolver.go:46-51 | the guard, then the store's likeBlogPost |
| Resolvers.MutationResolver.CreateBlogPost | internal/resolvers/resolver.go:69-74 | the guard, then the store's createBlogPost |
| Resolvers.MutationResolver.UpdateBlogPost | internal/resolvers/resolver.go:77-82 | the guard, then the store's updateBlogPost |
| Resolvers.MutationResolver.DeleteBlogPost | internal/resolvers/resolver.go:85-90 | the guard, then the store's deleteBlogPost |
| Resolvers.MutationResolver.PublishBlogPost | internal/resolvers/resolver.go:93-98 | the guard, then the store's publishBlogPost |
| Resolvers.MutationResolver.UnpublishBlogPost | internal/resolvers/resolver.go:101-106 | the guard, then the store's unpublishBlogPost |
| Resolvers.MutationResolver.CreateMonologue | internal/resolvers/resolver.go:133-146 | the guard, then the store's createMonologue |
| Resolvers.MutationResolver.UpdateMonologue | internal/resolvers/resolver.go:149-154 | the guard, then the store's updateMonologue |
| Resolvers.MutationResolver.DeleteMonologue | internal/resolvers/resolver.go:157-162 | the guard, then the store's deleteMonologue |
| Resolvers.MutationResolver.PublishMonologue | internal/resolvers/resolver.go:165-170 | the guard, then the store's publishMonologue |
| Resolvers.MutationResolver.UnpublishMonologue | internal/resolvers/resolver.go:173-178 | the guard, then the store's unpublishMonologue |

## Left out

- Authentication (`internal/auth/auth.go`), HTTP routing, CORS and server start-up (`main.go`), connection
  set-up (`internal/database/connection.go`) and the demo data (`internal/database/seed.go`): these are I/O, cryptography and configuration.
- Clocks and formatting: `time.Now`, `NOW()` and RFC 3339 strings are one opaque instant `now` per operation,
  passed in. The timestamp field resolvers (resolver.go:18-35, 417-419) only format and are not modelled.
- The DDL of `internal/database/connection.go` is kept as `Store.Consistent` for the tables the content layer
  writes. The VARCHAR limits of the tables it only reads (profiles, social_links, skills, experiences,
  code_categories) are not modelled.
- `Store.FitsVarchar`: Postgres truncates a value whose characters past the limit are all spaces instead of
  refusing it. The model refuses every over-long value.
- Text encoding: a VARCHAR length is the number of UTF-8 lead bytes. Postgres's refusal of byte strings that
  are not valid UTF-8 is not modelled.
- UUID ids: ids are assumed to be canonical lower-case UUID text. The errors Postgres raises for text that is
  not a UUID are not modelled. For example, `GetMonologueByID("abc")` errs in the source but answers `Ok(None)`
  here, and a malformed id given to an update, publish, like or delete errs in the source but is "not found"
  here. Postgres's case-insensitive UUID matching is not modelled either. With it, an upper-case spelling of a
  monologue id would find the row, but the Go comparison `m.ID == monologueID` (resolver.go:347) would not
  exclude the source from `RelatedContent`.
- Nullable `skills.display_order` and `experiences.is_current` are modelled as always set. The Go scan into a
  plain `int` or `bool`, which fails on NULL, is not modelled.
- `generateID` (helpers.go:10-12) is never called by a create. The UUID that `gen_random_uuid()` draws is the
  parameter `freshId`, and an id that is already taken is reported as a constraint violation.
- The code-category mutation resolvers (resolver.go:109-130) call store methods that
  `internal/database/mutations.go` does not define, so they are not part of this model.
- `monologue_likes` is declared but never written, so it is not modelled.
- SQL text, parsing and `pq.Array` marshalling: statements are modelled by their effect. A NULL `TEXT[]` is
  identified with the empty array. Statements are sequential and atomic, with no concurrency.
- Row order: the order rows leave a table for equal ORDER BY keys is not fixed by the model, only sortedness.
- Unordered SELECTs: `Services.GetSocialLinks` (services.go:56) and `Services.GetURLPreviewByMonologueID` (services.go:445-448) have no ORDER BY, so Postgres promises no row order; the model returns insertion order, so the link order in `Services.GetProfile` and `Services.GetSocialLinks` is one the program does not guarantee. For previews the order cannot be observed, because `MonologueProperties.MonologueMutationsKeepOnePreview` keeps at most one preview per monologue.
  Names compare byte-lexicographically (C collation).
- Store reachability is fixed per operation (`DbState.online`), so once the first statement of an operation
  succeeds its later statements cannot fail on their own. The members this affects follow.
- `Mutations.UpdateBlogPost`, `Mutations.PublishBlogPost`, `Mutations.UnpublishBlogPost`: the error the re-read
  returns after a committed UPDATE (mutations.go:129-133, 170-173, 193-196) is not modelled.
- `PostProperties.PostMutationOutcome`: it leaves out the third outcome of the Go code, an UPDATE that is
  committed followed by a re-read that fails.
- `PostProperties.PostMutationErrors`: the re-read's own error, which mutations.go:131-133 returns unwrapped,
  is not among the errors it lists.
- `Resolvers.QueryResolver.Monologues`: the error of the second `GetMonologues` (resolver.go:251-254) is not
  modelled.
- `Resolvers.QueryResolver.RelatedContent`: the errors of `GetMonologues` and `GetBlogPosts` after the source
  was found (resolver.go:328-338) are not modelled. The contract promises `Ok` there.
- `Mutations.UpdateMonologue`, `Mutations.PublishMonologue`, `Mutations.UnpublishMonologue`: the failure of the
  preview statements and of the re-read after a committed UPDATE is not modelled.
- `Mutations.CreateMonologue`, `Mutations.DeleteMonologue`: a preview statement cannot fail on its own after the
  monologue statement succeeds. Its error is ignored by the Go code anyway.
- `MonologueProperties.UpdateMonologuePreviews`, `MonologueProperties.CreatedMonologueReadsBack`: these hold only
  because the preview statements cannot fail on their own once the monologue statement has succeeded.
- `Services.GetBlogPostLikeCount`: besides a missing row, the model has no other scan failure, so the error
  case is only an unreachable store.
- `Mutations.DeleteBlogPost`, `Mutations.DeleteMonologue`: `RowsAffected` cannot fail in the model.
- Logging with `fmt.Printf` (resolver.go:134-144) and the commented-out block at resolver.go:448-474.
- `Resolvers.QueryResolver.RelatedContent`: the Go code dereferences `PublishedAt` of every accepted candidate
  (resolver.go:374, 407) and would panic on NULL. The model requires instead that published rows are dated,
  the invariant `PostProperties.PostsDated` and `MonologueProperties.MonologuesDated`. Every mutation of
  either table is proved to keep both.
- UTF-8: content is bytes, so the byte-based truncation of summaries is modelled as is. RE2's `\s` is
  modelled as tab, LF, FF, CR and space.
- The root `Resolver`'s sub-resolver constructors (resolver.go:422-434) only wrap the store handle. Each
  resolver class here takes the handle directly.
