/**
 * The GraphQL resolvers (internal/resolvers/resolver.go): the guard every
 * store-backed resolver puts in front of the store, and the resolvers with
 * logic of their own, namely relatedContent, skillsByCategory, the
 * pagination of monologues, generateUrlPreview and BlogPost.likeCount.
 */
module Resolvers {
  import opened Base
  import opened Models
  import opened Sql
  import opened Store
  import opened Services
  import opened Helpers
  import Mutations
  import PostProperties
  import MonologueProperties

  // ---------------------------------------------------------------------------
  // relatedContent: tag overlap, summaries and the cap
  // ---------------------------------------------------------------------------

  /** The hasCommonTag double loop, which leaves both loops at the first equal pair. */
  method HasCommonTag(tags1: seq<Bytes>, tags2: seq<Bytes>) returns (found: bool)
    ensures found == Overlaps(tags1, tags2)
  {
    found := false;
    var i := 0;
    while i < |tags1|
      invariant 0 <= i <= |tags1|
      invariant !found ==> forall i', j :: 0 <= i' < i && 0 <= j < |tags2| ==> tags1[i'] != tags2[j]
      invariant found ==> Overlaps(tags1, tags2)
    {
      var j := 0;
      while j < |tags2|
        invariant 0 <= j <= |tags2|
        invariant !found ==> forall j' :: 0 <= j' < j ==> tags1[i] != tags2[j']
        invariant found ==> Overlaps(tags1, tags2)
      {
        if tags1[i] == tags2[j] {
          found := true;
          break;
        }
        j := j + 1;
      }
      if found {
        break;
      }
      i := i + 1;
    }
  }

  /** The estimated read time: one minute per started 200 bytes, and one more for an exact multiple. */
  function ReadTime(content: Bytes): (n: int)
    ensures 1 <= n && (n - 1) * 200 <= |content| < n * 200
  {
    |content| / 200 + 1
  }

  /**
   * A related monologue: the title is the first 50 bytes of the content and
   * the excerpt the first 100 (the whole content when it is shorter), each
   * followed by "..." even when nothing was cut; the type is POST.
   */
  function MonologueSummary(m: Monologue): (c: RelatedContent)
    requires m.publishedAt.Some?
    ensures c.id == m.id && c.tags == m.tags && c.contentType == ContentPost
    ensures Some(c.publishedAt) == m.publishedAt
    ensures 3 <= |c.title| <= 53 && c.title[|c.title| - 3..] == Ascii("...")
    ensures HasPrefix(m.content, c.title[..|c.title| - 3])
    ensures |m.content| <= 50 <==> c.title[..|c.title| - 3] == m.content
    ensures |c.title| == Min(50, |m.content|) + 3
    ensures c.excerpt.Some? && 3 <= |c.excerpt.value| <= 103 && c.excerpt.value[|c.excerpt.value| - 3..] == Ascii("...")
    ensures HasPrefix(m.content, c.excerpt.value[..|c.excerpt.value| - 3])
    ensures |m.content| <= 100 <==> c.excerpt.value[..|c.excerpt.value| - 3] == m.content
    ensures |c.excerpt.value| == Min(100, |m.content|) + 3
    ensures c.readTime == Some(ReadTime(m.content))
  {
    var titleLen := Min(50, |m.content|);
    var excerptLen := Min(100, |m.content|);
    var title := m.content[..titleLen] + Ascii("...");
    var excerpt := m.content[..excerptLen] + Ascii("...");
    assert title[..|title| - 3] == m.content[..titleLen];
    assert excerpt[..|excerpt| - 3] == m.content[..excerptLen];
    RelatedContent(m.id, title, ContentPost, Some(excerpt), m.tags, m.publishedAt.value, Some(ReadTime(m.content)))
  }

  /** A related blog post keeps its own title and excerpt; its type is POST as well. */
  function PostSummary(p: BlogPost): (c: RelatedContent)
    requires p.publishedAt.Some?
    ensures c.id == p.id && c.tags == p.tags && c.contentType == ContentPost
    ensures c.title == p.title && c.excerpt == p.excerpt && Some(c.publishedAt) == p.publishedAt
    ensures c.readTime == Some(ReadTime(p.content))
  {
    RelatedContent(p.id, p.title, ContentPost, p.excerpt, p.tags, p.publishedAt.value, Some(ReadTime(p.content)))
  }

  /** A monologue is related when it is another published monologue sharing a tag with the source. */
  predicate MonologueRelated(sourceId: Id, sourceTags: seq<Bytes>, m: Monologue) {
    m.id != sourceId && m.isPublished && Overlaps(sourceTags, m.tags)
  }

  /** A blog post is related when it shares a tag with the source and is PUBLISHED. */
  predicate PostRelated(sourceTags: seq<Bytes>, p: BlogPost) {
    Overlaps(sourceTags, p.tags) && p.status == StatusPublished
  }

  /** Every candidate that would be accepted has a publication date (the Go code dereferences it). */
  predicate MonologuesDated(sourceId: Id, sourceTags: seq<Bytes>, ms: seq<Monologue>) {
    forall i :: 0 <= i < |ms| && MonologueRelated(sourceId, sourceTags, ms[i]) ==> ms[i].publishedAt.Some?
  }

  predicate PostsDated(sourceTags: seq<Bytes>, ps: seq<BlogPost>) {
    forall i :: 0 <= i < |ps| && PostRelated(sourceTags, ps[i]) ==> ps[i].publishedAt.Some?
  }

  /** The summaries of every related monologue, in the order given. */
  function RelatedMonologues(sourceId: Id, sourceTags: seq<Bytes>, ms: seq<Monologue>): (r: seq<RelatedContent>)
    requires MonologuesDated(sourceId, sourceTags, ms)
    ensures |r| <= |ms|
    decreases |ms|
  {
    if ms == [] then []
    else
      var last := ms[|ms| - 1];
      RelatedMonologues(sourceId, sourceTags, ms[..|ms| - 1]) +
      (if MonologueRelated(sourceId, sourceTags, last) then [MonologueSummary(last)] else [])
  }

  /** The summaries of every related blog post, in the order given. */
  function RelatedPosts(sourceTags: seq<Bytes>, ps: seq<BlogPost>): (r: seq<RelatedContent>)
    requires PostsDated(sourceTags, ps)
    ensures |r| <= |ps|
    decreases |ps|
  {
    if ps == [] then []
    else
      var last := ps[|ps| - 1];
      RelatedPosts(sourceTags, ps[..|ps| - 1]) + (if PostRelated(sourceTags, last) then [PostSummary(last)] else [])
  }

  /** The first n elements of s; none when n is not positive. */
  function Take<T>(s: seq<T>, n: int): (r: seq<T>)
    ensures |r| == if n <= 0 then 0 else if n < |s| then n else |s|
    ensures r == s[..|r|]
  {
    if n <= 0 then [] else if n < |s| then s[..n] else s
  }

  /** maxLimit: 6, lowered to the requested limit when that is smaller. */
  function MaxLimit(limit: Option<int>): (n: int)
    ensures n <= 6
    ensures limit.None? ==> n == 6
    ensures limit.Some? ==> n == Min(6, limit.value)
  {
    if limit.Some? && limit.value < 6 then limit.value else 6
  }

  /**
   * The related content of a source: the related monologues followed by the
   * related blog posts, each in the order the store listed them, cut to the
   * first cap entries.
   */
  function Related(sourceId: Id, sourceTags: seq<Bytes>, ms: seq<Monologue>, ps: seq<BlogPost>, cap: int)
    : seq<RelatedContent>
    requires MonologuesDated(sourceId, sourceTags, ms) && PostsDated(sourceTags, ps)
  {
    Take(RelatedMonologues(sourceId, sourceTags, ms) + RelatedPosts(sourceTags, ps), cap)
  }

  lemma TakeFull<T>(s: seq<T>, t: seq<T>, n: int)
    requires |Take(s, n)| >= n
    ensures Take(s + t, n) == Take(s, n)
  {
    if n > 0 {
      assert (s + t)[..n] == s[..n];
    }
  }

  lemma TakeGrow<T>(s: seq<T>, x: T, n: int)
    requires |Take(s, n)| < n
    ensures Take(s + [x], n) == Take(s, n) + [x]
  {
  }

  lemma RelatedMonologuesStep(sourceId: Id, sourceTags: seq<Bytes>, ms: seq<Monologue>, i: nat)
    requires i < |ms| && MonologuesDated(sourceId, sourceTags, ms)
    ensures MonologuesDated(sourceId, sourceTags, ms[..i]) && MonologuesDated(sourceId, sourceTags, ms[..i + 1])
    ensures RelatedMonologues(sourceId, sourceTags, ms[..i + 1]) ==
            RelatedMonologues(sourceId, sourceTags, ms[..i]) +
            (if MonologueRelated(sourceId, sourceTags, ms[i]) then [MonologueSummary(ms[i])] else [])
  {
    assert ms[..i + 1][..i] == ms[..i];
  }

  lemma RelatedPostsStep(sourceTags: seq<Bytes>, ps: seq<BlogPost>, j: nat)
    requires j < |ps| && PostsDated(sourceTags, ps)
    ensures PostsDated(sourceTags, ps[..j]) && PostsDated(sourceTags, ps[..j + 1])
    ensures RelatedPosts(sourceTags, ps[..j + 1]) ==
            RelatedPosts(sourceTags, ps[..j]) + (if PostRelated(sourceTags, ps[j]) then [PostSummary(ps[j])] else [])
  {
    assert ps[..j + 1][..j] == ps[..j];
  }

  lemma {:induction false} RelatedPostsAppend(sourceTags: seq<Bytes>, ps: seq<BlogPost>, qs: seq<BlogPost>)
    requires PostsDated(sourceTags, ps + qs)
    ensures PostsDated(sourceTags, ps) && PostsDated(sourceTags, qs)
    ensures RelatedPosts(sourceTags, ps + qs) == RelatedPosts(sourceTags, ps) + RelatedPosts(sourceTags, qs)
    decreases |qs|
  {
    assert forall i :: 0 <= i < |ps| ==> (ps + qs)[i] == ps[i];
    assert forall i :: 0 <= i < |qs| ==> (ps + qs)[|ps| + i] == qs[i];
    if qs != [] {
      var last := qs[|qs| - 1];
      assert (ps + qs)[..|ps + qs| - 1] == ps + qs[..|qs| - 1];
      assert forall i :: 0 <= i < |qs| - 1 ==> qs[..|qs| - 1][i] == qs[i];
      RelatedPostsAppend(sourceTags, ps, qs[..|qs| - 1]);
    } else {
      assert ps + qs == ps;
    }
  }

  /** The first loop of relatedContent: related monologues until the cap is reached. */
  method CollectRelatedMonologues(sourceId: Id, sourceTags: seq<Bytes>, allMonos: seq<Monologue>, maxLimit: int)
    returns (result: seq<RelatedContent>)
    requires MonologuesDated(sourceId, sourceTags, allMonos)
    ensures result == Take(RelatedMonologues(sourceId, sourceTags, allMonos), maxLimit)
  {
    result := [];
    for i := 0 to |allMonos|
      invariant MonologuesDated(sourceId, sourceTags, allMonos[..i])
      invariant result == Take(RelatedMonologues(sourceId, sourceTags, allMonos[..i]), maxLimit)
    {
      var m := allMonos[i];
      RelatedMonologuesStep(sourceId, sourceTags, allMonos, i);
      if m.id == sourceId || !m.isPublished || |result| >= maxLimit {
        if |result| >= maxLimit {
          TakeFull(RelatedMonologues(sourceId, sourceTags, allMonos[..i]),
                   if MonologueRelated(sourceId, sourceTags, m) then [MonologueSummary(m)] else [], maxLimit);
        }
        continue;
      }
      var hasCommonTag := HasCommonTag(sourceTags, m.tags);
      if hasCommonTag {
        TakeGrow(RelatedMonologues(sourceId, sourceTags, allMonos[..i]), MonologueSummary(m), maxLimit);
        result := result + [MonologueSummary(m)];
      }
    }
    assert allMonos[..|allMonos|] == allMonos;
  }

  /** The second loop of relatedContent: related blog posts after the monologues, until the cap is reached. */
  method CollectRelatedPosts(monos: seq<RelatedContent>, result0: seq<RelatedContent>, sourceTags: seq<Bytes>,
                             allPosts: seq<BlogPost>, maxLimit: int)
    returns (result: seq<RelatedContent>)
    requires PostsDated(sourceTags, allPosts)
    requires result0 == Take(monos, maxLimit)
    ensures result == Take(monos + RelatedPosts(sourceTags, allPosts), maxLimit)
  {
    result := result0;
    assert allPosts[..0] == [];
    assert monos + RelatedPosts(sourceTags, allPosts[..0]) == monos;
    var j := 0;
    while j < |allPosts|
      invariant 0 <= j <= |allPosts|
      invariant PostsDated(sourceTags, allPosts[..j])
      invariant result == Take(monos + RelatedPosts(sourceTags, allPosts[..j]), maxLimit)
    {
      if |result| >= maxLimit {
        break;
      }
      var post := allPosts[j];
      RelatedPostsStep(sourceTags, allPosts, j);
      ghost var before := monos + RelatedPosts(sourceTags, allPosts[..j]);
      var hasCommonTag := HasCommonTag(sourceTags, post.tags);
      if hasCommonTag && post.status == StatusPublished {
        TakeGrow(before, PostSummary(post), maxLimit);
        result := result + [PostSummary(post)];
      }
      assert monos + RelatedPosts(sourceTags, allPosts[..j + 1]) ==
             before + (if PostRelated(sourceTags, post) then [PostSummary(post)] else []);
      j := j + 1;
    }
    PostsCapped(monos, sourceTags, allPosts, j, maxLimit);
  }

  /** Once the cap is reached, the remaining blog posts add nothing. */
  lemma PostsCapped(monos: seq<RelatedContent>, sourceTags: seq<Bytes>, allPosts: seq<BlogPost>, j: nat, maxLimit: int)
    requires j <= |allPosts| && PostsDated(sourceTags, allPosts) && PostsDated(sourceTags, allPosts[..j])
    requires j < |allPosts| ==> |Take(monos + RelatedPosts(sourceTags, allPosts[..j]), maxLimit)| >= maxLimit
    ensures Take(monos + RelatedPosts(sourceTags, allPosts[..j]), maxLimit) ==
            Take(monos + RelatedPosts(sourceTags, allPosts), maxLimit)
  {
    var done, rest := allPosts[..j], allPosts[j..];
    assert done + rest == allPosts;
    RelatedPostsAppend(sourceTags, done, rest);
    if j < |allPosts| {
      var before := monos + RelatedPosts(sourceTags, done);
      var after := RelatedPosts(sourceTags, rest);
      assert RelatedPosts(sourceTags, allPosts) == RelatedPosts(sourceTags, done) + after;
      assert before + after == monos + (RelatedPosts(sourceTags, done) + after);
      TakeFull(before, after, maxLimit);
    } else {
      assert done == allPosts;
    }
  }

  /** Both loops of relatedContent over the listed monologues and blog posts. */
  method CollectRelated(sourceId: Id, sourceTags: seq<Bytes>, allMonos: seq<Monologue>, allPosts: seq<BlogPost>,
                        maxLimit: int)
    returns (result: seq<RelatedContent>)
    requires MonologuesDated(sourceId, sourceTags, allMonos) && PostsDated(sourceTags, allPosts)
    ensures result == Related(sourceId, sourceTags, allMonos, allPosts, maxLimit)
  {
    result := CollectRelatedMonologues(sourceId, sourceTags, allMonos, maxLimit);
    result := CollectRelatedPosts(RelatedMonologues(sourceId, sourceTags, allMonos), result, sourceTags, allPosts, maxLimit);
  }

  // ---------------------------------------------------------------------------
  // What relatedContent returns
  // ---------------------------------------------------------------------------

  lemma {:induction false} RelatedMonologuesMembers(sourceId: Id, sourceTags: seq<Bytes>, ms: seq<Monologue>, x: RelatedContent)
    requires MonologuesDated(sourceId, sourceTags, ms)
    ensures x in RelatedMonologues(sourceId, sourceTags, ms) <==>
            exists i :: 0 <= i < |ms| && MonologueRelated(sourceId, sourceTags, ms[i]) && x == MonologueSummary(ms[i])
    decreases |ms|
  {
    if ms != [] {
      var init := ms[..|ms| - 1];
      assert forall i :: 0 <= i < |init| ==> init[i] == ms[i];
      RelatedMonologuesMembers(sourceId, sourceTags, init, x);
      if x in RelatedMonologues(sourceId, sourceTags, init) {
        var i :| 0 <= i < |init| && MonologueRelated(sourceId, sourceTags, init[i]) && x == MonologueSummary(init[i]);
        assert ms[i] == init[i];
      }
    }
  }

  lemma {:induction false} RelatedPostsMembers(sourceTags: seq<Bytes>, ps: seq<BlogPost>, x: RelatedContent)
    requires PostsDated(sourceTags, ps)
    ensures x in RelatedPosts(sourceTags, ps) <==>
            exists i :: 0 <= i < |ps| && PostRelated(sourceTags, ps[i]) && x == PostSummary(ps[i])
    decreases |ps|
  {
    if ps != [] {
      var init := ps[..|ps| - 1];
      assert forall i :: 0 <= i < |init| ==> init[i] == ps[i];
      RelatedPostsMembers(sourceTags, init, x);
      if x in RelatedPosts(sourceTags, init) {
        var i :| 0 <= i < |init| && PostRelated(sourceTags, init[i]) && x == PostSummary(init[i]);
        assert ps[i] == init[i];
      }
    }
  }

  /**
   * relatedContent holds at most cap entries (none when cap is not
   * positive); a source without tags relates to nothing; and when fewer than
   * cap entries are related, every one of them is returned, monologues first.
   */
  lemma RelatedBounds(sourceId: Id, sourceTags: seq<Bytes>, ms: seq<Monologue>, ps: seq<BlogPost>, cap: int)
    requires MonologuesDated(sourceId, sourceTags, ms) && PostsDated(sourceTags, ps)
    ensures |Related(sourceId, sourceTags, ms, ps, cap)| <= if cap <= 0 then 0 else cap
    ensures sourceTags == [] ==> Related(sourceId, sourceTags, ms, ps, cap) == []
    ensures var all := RelatedMonologues(sourceId, sourceTags, ms) + RelatedPosts(sourceTags, ps);
            |all| <= cap ==> Related(sourceId, sourceTags, ms, ps, cap) == all
  {
    if sourceTags == [] {
      var all := RelatedMonologues(sourceId, sourceTags, ms) + RelatedPosts(sourceTags, ps);
      if all != [] {
        if |RelatedMonologues(sourceId, sourceTags, ms)| > 0 {
          RelatedMonologuesMembers(sourceId, sourceTags, ms, all[0]);
        } else {
          RelatedPostsMembers(sourceTags, ps, all[0]);
        }
      }
    }
  }

  /**
   * Every entry is the summary of a related monologue or of a related blog
   * post, and every monologue entry precedes every blog-post entry: the
   * result is the capped monologues followed by as many posts as still fit.
   */
  lemma RelatedOrigins(sourceId: Id, sourceTags: seq<Bytes>, ms: seq<Monologue>, ps: seq<BlogPost>, cap: int)
    requires MonologuesDated(sourceId, sourceTags, ms) && PostsDated(sourceTags, ps)
    ensures var monos := Take(RelatedMonologues(sourceId, sourceTags, ms), cap);
            Related(sourceId, sourceTags, ms, ps, cap) == monos + Take(RelatedPosts(sourceTags, ps), cap - |monos|)
    ensures forall x :: x in Related(sourceId, sourceTags, ms, ps, cap) ==>
              (exists i :: 0 <= i < |ms| && MonologueRelated(sourceId, sourceTags, ms[i]) && x == MonologueSummary(ms[i])) ||
              (exists i :: 0 <= i < |ps| && PostRelated(sourceTags, ps[i]) && x == PostSummary(ps[i]))
  {
    var rm := RelatedMonologues(sourceId, sourceTags, ms);
    var rp := RelatedPosts(sourceTags, ps);
    var monos := Take(rm, cap);
    if cap > 0 && cap < |rm| {
      assert (rm + rp)[..cap] == rm[..cap];
    } else if cap > 0 {
      assert Take(rm + rp, cap) == rm + Take(rp, cap - |rm|) by {
        if cap - |rm| < |rp| {
          assert (rm + rp)[..cap] == rm + rp[..cap - |rm|];
        }
      }
    }
    forall x | x in Related(sourceId, sourceTags, ms, ps, cap)
      ensures (exists i :: 0 <= i < |ms| && MonologueRelated(sourceId, sourceTags, ms[i]) && x == MonologueSummary(ms[i])) ||
              (exists i :: 0 <= i < |ps| && PostRelated(sourceTags, ps[i]) && x == PostSummary(ps[i]))
    {
      RelatedMonologuesMembers(sourceId, sourceTags, ms, x);
      RelatedPostsMembers(sourceTags, ps, x);
    }
  }

  // ---------------------------------------------------------------------------
  // skillsByCategory: grouping the skills by category
  // ---------------------------------------------------------------------------

  /** The skills of one category, in the order given. */
  function SkillsOf(skills: seq<Skill>, category: Bytes): (r: seq<Skill>)
    ensures |r| <= |skills|
    decreases |skills|
  {
    if skills == [] then []
    else
      var last := skills[|skills| - 1];
      SkillsOf(skills[..|skills| - 1], category) + (if last.category == category then [last] else [])
  }

  lemma SkillsOfStep(skills: seq<Skill>, i: nat)
    requires i < |skills|
    ensures SkillsOf(skills[..i + 1], skills[i].category) == SkillsOf(skills[..i], skills[i].category) + [skills[i]]
    ensures forall c :: c != skills[i].category ==> SkillsOf(skills[..i + 1], c) == SkillsOf(skills[..i], c)
  {
    assert skills[..i + 1][..i] == skills[..i];
  }

  lemma {:induction false} SkillsOfMembers(skills: seq<Skill>, category: Bytes, x: Skill)
    ensures x in SkillsOf(skills, category) <==> x in skills && x.category == category
    decreases |skills|
  {
    if skills != [] {
      var init := skills[..|skills| - 1];
      SkillsOfMembers(init, category, x);
      assert skills == init + [skills[|skills| - 1]];
    }
  }

  /** Some group is the one of this category. */
  predicate HasGroup(groups: seq<SkillCategory>, category: Bytes) {
    exists i :: 0 <= i < |groups| && groups[i].category == category
  }

  /**
   * A grouping of the skills: one group per category that occurs, with
   * distinct categories, each group holding exactly the skills of its
   * category in their listed order.
   */
  predicate IsGrouping(groups: seq<SkillCategory>, skills: seq<Skill>) {
    && (forall i :: 0 <= i < |groups| ==>
          groups[i].skills == SkillsOf(skills, groups[i].category) && groups[i].skills != [])
    && (forall i, j :: 0 <= i < j < |groups| ==> groups[i].category != groups[j].category)
    && (forall k :: 0 <= k < |skills| ==> HasGroup(groups, skills[k].category))
  }

  /** In a grouping every skill lies in exactly one group: the one of its own category. */
  lemma GroupingPartitions(groups: seq<SkillCategory>, skills: seq<Skill>, k: nat)
    requires IsGrouping(groups, skills) && k < |skills|
    ensures exists i :: 0 <= i < |groups| && skills[k] in groups[i].skills
    ensures forall i :: 0 <= i < |groups| && skills[k] in groups[i].skills ==> groups[i].category == skills[k].category
    ensures forall i, j :: 0 <= i < j < |groups| ==> !(skills[k] in groups[i].skills && skills[k] in groups[j].skills)
  {
    assert HasGroup(groups, skills[k].category);
    var i :| 0 <= i < |groups| && groups[i].category == skills[k].category;
    SkillsOfMembers(skills, groups[i].category, skills[k]);
    forall i' | 0 <= i' < |groups| && skills[k] in groups[i'].skills ensures groups[i'].category == skills[k].category {
      SkillsOfMembers(skills, groups[i'].category, skills[k]);
    }
  }

  /** Each category that occurs, mapped to its skills; the map is what the first loop of skillsByCategory builds. */
  predicate IsCategoryMap(categories: map<Bytes, seq<Skill>>, skills: seq<Skill>) {
    && (forall c :: c in categories ==> categories[c] == SkillsOf(skills, c) && categories[c] != [])
    && (forall k :: 0 <= k < |skills| ==> skills[k].category in categories)
  }

  lemma CategoryMapStep(categories: map<Bytes, seq<Skill>>, skills: seq<Skill>, i: nat)
    requires i < |skills| && IsCategoryMap(categories, skills[..i])
    requires forall c :: c !in categories ==> SkillsOf(skills[..i], c) == []
    ensures var c := skills[i].category;
            var next := categories[c := (if c in categories then categories[c] else []) + [skills[i]]];
            IsCategoryMap(next, skills[..i + 1]) && forall c' :: c' !in next ==> SkillsOf(skills[..i + 1], c') == []
  {
    var c := skills[i].category;
    var next := categories[c := (if c in categories then categories[c] else []) + [skills[i]]];
    var pre, post := skills[..i], skills[..i + 1];
    SkillsOfStep(skills, i);
    forall c' | c' in next ensures next[c'] == SkillsOf(post, c') && next[c'] != [] {
      if c' != c {
        assert next[c'] == categories[c'];
      }
    }
    forall k | 0 <= k < |post| ensures post[k].category in next {
      if k < i {
        assert post[k] == pre[k];
      }
    }
  }

  /** The first loop of skillsByCategory: append each skill to its category's list. */
  method CollectByCategory(skills: seq<Skill>) returns (categories: map<Bytes, seq<Skill>>)
    ensures IsCategoryMap(categories, skills)
  {
    categories := map[];
    for i := 0 to |skills|
      invariant IsCategoryMap(categories, skills[..i])
      invariant forall c :: c !in categories ==> SkillsOf(skills[..i], c) == []
    {
      var skill := skills[i];
      CategoryMapStep(categories, skills, i);
      var current := if skill.category in categories then categories[skill.category] else [];
      categories := categories[skill.category := current + [skill]];
    }
    assert skills[..|skills|] == skills;
  }

  /**
   * The second loop of skillsByCategory: one group per map entry, in the
   * map's iteration order, which Go leaves unspecified and is an arbitrary
   * choice here.
   */
  method EmitGroups(categories: map<Bytes, seq<Skill>>) returns (result: seq<SkillCategory>)
    ensures forall i :: 0 <= i < |result| ==>
              result[i].category in categories && result[i].skills == categories[result[i].category]
    ensures forall i, j :: 0 <= i < j < |result| ==> result[i].category != result[j].category
    ensures forall c :: c in categories ==> exists i :: 0 <= i < |result| && result[i].category == c
  {
    result := [];
    var remaining := categories.Keys;
    while remaining != {}
      invariant remaining <= categories.Keys
      invariant forall i :: 0 <= i < |result| ==>
                  result[i].category in categories && result[i].category !in remaining &&
                  result[i].skills == categories[result[i].category]
      invariant forall i, j :: 0 <= i < j < |result| ==> result[i].category != result[j].category
      invariant forall c :: c in categories && c !in remaining ==> exists i :: 0 <= i < |result| && result[i].category == c
      decreases |remaining|
    {
      var category :| category in remaining;
      ghost var before := result;
      result := result + [SkillCategory(category, categories[category])];
      remaining := remaining - {category};
      forall c | c in categories && c !in remaining ensures exists i :: 0 <= i < |result| && result[i].category == c {
        if c == category {
          assert result[|result| - 1].category == c;
        } else {
          var i :| 0 <= i < |before| && before[i].category == c;
          assert result[i] == before[i];
        }
      }
    }
  }

  /** skillsByCategory's grouping, from the store's listing of skills. */
  method GroupByCategory(skills: seq<Skill>) returns (result: seq<SkillCategory>)
    ensures IsGrouping(result, skills)
  {
    var categories := CollectByCategory(skills);
    result := EmitGroups(categories);
    forall k | 0 <= k < |skills| ensures HasGroup(result, skills[k].category) {
      assert skills[k].category in categories;
    }
  }

  // ---------------------------------------------------------------------------
  // monologues: pagination
  // ---------------------------------------------------------------------------

  const TwoTo63: int := 0x8000_0000_0000_0000

  /** Go's `int` addition on a 64-bit platform: the sum taken modulo 2^64 into [-2^63, 2^63). */
  function AddInt64(a: int, b: int): (r: int)
    ensures -TwoTo63 <= r < TwoTo63
    ensures (a + b - r) % (2 * TwoTo63) == 0
  {
    var m := (a + b) % (2 * TwoTo63);
    if m < TwoTo63 then m else m - 2 * TwoTo63
  }

  /** hasNextPage: only with both limit and offset, when matches remain after the page. */
  function HasNextPage(limit: Option<int>, offset: Option<int>, totalCount: nat): bool {
    limit.Some? && offset.Some? && totalCount > AddInt64(offset.value, limit.value)
  }

  /**
   * When offset + limit stays within int64, hasNextPage means the page is
   * full (limit entries) and more matches follow it, and no next page means
   * the page runs to the last match. When the sum passes 2^63 - 1 it wraps
   * to a negative number and hasNextPage holds whatever the page is.
   */
  lemma HasNextPageMeaning<T>(rows: seq<T>, limit: Option<int>, offset: Option<int>)
    requires Page(rows, limit, offset).Ok?
    ensures limit.Some? && offset.Some? && offset.value + limit.value < TwoTo63 ==>
              (HasNextPage(limit, offset, |rows|) <==>
                 |Page(rows, limit, offset).value| == limit.value &&
                 offset.value + |Page(rows, limit, offset).value| < |rows|)
    ensures limit.Some? && offset.Some? && offset.value + limit.value < TwoTo63 && !HasNextPage(limit, offset, |rows|) ==>
              offset.value >= |rows| || offset.value + |Page(rows, limit, offset).value| == |rows|
    ensures limit.Some? && offset.Some? && TwoTo63 <= offset.value + limit.value < 2 * TwoTo63 ==>
              HasNextPage(limit, offset, |rows|)
  {
    if limit.Some? && offset.Some? && 0 <= offset.value + limit.value < TwoTo63 {
      assert AddInt64(offset.value, limit.value) == offset.value + limit.value;
    }
  }

  /** The largest offset with a limit of 1 reports a next page after an empty page. */
  lemma HasNextPageOverflow()
    ensures var limit, offset, rows: seq<int> := Some(1), Some(TwoTo63 - 1), [];
            && Page(rows, limit, offset) == Ok([])
            && HasNextPage(limit, offset, 0)
  {
    assert AddInt64(TwoTo63 - 1, 1) == -TwoTo63;
  }

  /** The ids a selection keeps. */
  ghost function KeptIds<R>(table: map<Id, R>, keep: (Id, R) -> bool): set<Id> {
    set id | id in table && keep(id, table[id])
  }

  lemma {:induction false} DistinctIdsCount<R>(rows: seq<(Id, R)>)
    requires forall i, j :: 0 <= i < j < |rows| ==> rows[i].0 != rows[j].0
    ensures |set i | 0 <= i < |rows| :: rows[i].0| == |rows|
    decreases |rows|
  {
    if rows != [] {
      var init := rows[..|rows| - 1];
      DistinctIdsCount(init);
      var s := set i | 0 <= i < |rows| :: rows[i].0;
      var s0 := set i | 0 <= i < |init| :: init[i].0;
      assert s == s0 + {rows[|rows| - 1].0};
      assert rows[|rows| - 1].0 !in s0;
    }
  }

  /** A selection holds one row per kept id, so its length is the number of matches. */
  lemma SelectionCount<R>(rows: seq<(Id, R)>, table: map<Id, R>, keep: (Id, R) -> bool, le: (R, R) -> bool)
    requires IsSelection(rows, table, keep, le)
    ensures |rows| == |KeptIds(table, keep)|
  {
    DistinctIdsCount(rows);
    var s := set i | 0 <= i < |rows| :: rows[i].0;
    assert s == KeptIds(table, keep);
  }

  // ---------------------------------------------------------------------------
  // The resolvers
  // ---------------------------------------------------------------------------

  /** generateUrlPreview: the placeholder CreateURLPreview stores, without touching the store. */
  method GenerateURLPreview(url: Bytes, now: Time) returns (r: Result<URLPreview>)
    ensures r == Ok(Mutations.GeneratedPreview(url, now))
    ensures r.value.url == url
    ensures forall id :: r.value == PreviewEntity(Mutations.GeneratedPreviewRow(id, url, now))
  {
    var preview := URLPreview(
      Ascii("Generated Preview"), Some(Ascii("This is a generated preview for ") + url),
      Some(Ascii("https://via.placeholder.com/400x200")), Some(Ascii("Example Site")), url,
      Some(Ascii("https://via.placeholder.com/32x32")), now);
    return Ok(preview);
  }

  /** blogPostResolver: BlogPost.likeCount, which never fails. */
  class BlogPostResolver {
    const db: DB?

    constructor (db: DB?)
      ensures this.db == db
    {
      this.db := db;
    }

    /** 0 without a store or on a store error; a missing post or a NULL count also read as 0. */
    method LikeCount(post: BlogPost) returns (count: int)
      ensures db == null || !db.online ==> count == 0
      ensures db != null && db.online ==>
                count == if post.id in db.posts then db.posts[post.id].likeCount.GetOr(0) else 0
    {
      if db == null {
        return 0;
      }
      var c := GetBlogPostLikeCount(db, post.id);
      match c
      case Err(_) =>
        return 0;
      case Ok(n) =>
        return n;
    }
  }

  /** The listed monologues of a store whose published monologues are dated are dated. */
  lemma ListedMonologuesDated(s: DbState, rows: seq<(Id, MonologueRow)>, sourceId: Id, sourceTags: seq<Bytes>)
    requires MonologueProperties.MonologuesDated(s)
    requires forall i :: 0 <= i < |rows| ==> rows[i].0 in s.monologues && s.monologues[rows[i].0] == rows[i].1
    ensures MonologuesDated(sourceId, sourceTags, MonologueEntities(s, rows))
  {
    var ms := MonologueEntities(s, rows);
    forall i | 0 <= i < |ms| && MonologueRelated(sourceId, sourceTags, ms[i]) ensures ms[i].publishedAt.Some? {
      assert MonologueProperties.MonologueDated(s.monologues[rows[i].0]);
    }
  }

  /** The listed posts of a store whose published posts are dated are dated. */
  lemma ListedPostsDated(s: DbState, ps: seq<BlogPost>, sourceTags: seq<Bytes>)
    requires PostProperties.PostsDated(s)
    requires forall i :: 0 <= i < |ps| ==> ps[i].id in s.posts && ps[i] == PostEntity(ps[i].id, s.posts[ps[i].id])
    ensures PostsDated(sourceTags, ps)
  {
    forall i | 0 <= i < |ps| && PostRelated(sourceTags, ps[i]) ensures ps[i].publishedAt.Some? {
      assert PostProperties.PostDated(s.posts[ps[i].id]);
    }
  }

  /** queryResolver: every field answers "database connection not available" without a store. */
  class QueryResolver {
    const db: DB?

    constructor (db: DB?)
      ensures this.db == db
    {
      this.db := db;
    }

    method Profile() returns (r: Result<Profile>)
      ensures db == null ==> r == Err(DatabaseUnavailable)
      ensures db != null && !db.online ==> r == Err(Sql(Unavailable))
      ensures db != null && db.online ==> (r.Ok? <==> db.profiles != map[])
      ensures db != null && db.online && db.profiles == map[] ==> r == Err(Sql(NoRows))
      ensures db != null && r.Ok? ==>
                && r.value.id in db.profiles
                && r.value == ProfileEntity(r.value.id, db.profiles[r.value.id], LinksOf(db.socialLinks, r.value.id))
                && forall other :: other in db.profiles ==> db.profiles[r.value.id].createdAt <= db.profiles[other].createdAt
    {
      if db == null {
        return Err(DatabaseUnavailable);
      }
      r := GetDefaultProfile(db);
    }

    method Skills() returns (r: Result<seq<Skill>>, ghost rows: seq<(Id, SkillRow)>)
      ensures db == null ==> r == Err(DatabaseUnavailable)
      ensures db != null ==> (r.Err? <==> !db.online) && (r.Err? ==> r.error == Sql(Unavailable))
      ensures db != null && r.Ok? ==>
                && IsSelection(rows, db.skills, (id: Id, s: SkillRow) => true, (a: SkillRow, b: SkillRow) => SkillLe(a, b))
                && |r.value| == |rows| && forall i :: 0 <= i < |rows| ==> r.value[i] == SkillEntity(rows[i].0, rows[i].1)
    {
      rows := [];
      if db == null {
        return Err(DatabaseUnavailable), rows;
      }
      r, rows := GetSkills(db);
    }

    /** The skills grouped by category; a store error is passed through. */
    method SkillsByCategory()
      returns (r: Result<seq<SkillCategory>>, ghost rows: seq<(Id, SkillRow)>, ghost skills: seq<Skill>)
      ensures db == null ==> r == Err(DatabaseUnavailable)
      ensures db != null ==> (r.Err? <==> !db.online) && (r.Err? ==> r.error == Sql(Unavailable))
      ensures db != null && r.Ok? ==>
                && IsSelection(rows, db.skills, (id: Id, s: SkillRow) => true, (a: SkillRow, b: SkillRow) => SkillLe(a, b))
                && |skills| == |rows| && (forall i :: 0 <= i < |rows| ==> skills[i] == SkillEntity(rows[i].0, rows[i].1))
                && IsGrouping(r.value, skills)
    {
      rows, skills := [], [];
      if db == null {
        return Err(DatabaseUnavailable), rows, skills;
      }
      var listed;
      listed, rows := GetSkills(db);
      match listed
      case Err(e) =>
        return Err(e), rows, skills;
      case Ok(all) =>
        skills := all;
        var groups := GroupByCategory(all);
        r := Ok(groups);
    }

    method Experiences() returns (r: Result<seq<Experience>>, ghost rows: seq<(Id, ExperienceRow)>)
      ensures db == null ==> r == Err(DatabaseUnavailable)
      ensures db != null ==> (r.Err? <==> !db.online) && (r.Err? ==> r.error == Sql(Unavailable))
      ensures db != null && r.Ok? ==>
                && IsSelection(rows, db.experiences, (id: Id, e: ExperienceRow) => true,
                               (a: ExperienceRow, b: ExperienceRow) => ExperienceLe(a, b))
                && |r.value| == |rows| && forall i :: 0 <= i < |rows| ==> r.value[i] == ExperienceEntity(rows[i].0, rows[i].1)
    {
      rows := [];
      if db == null {
        return Err(DatabaseUnavailable), rows;
      }
      r, rows := GetExperiences(db);
    }

    method Monologue(id: Id) returns (r: Result<Option<Monologue>>)
      ensures db == null ==> r == Err(DatabaseUnavailable)
      ensures db != null ==> r == Mutations.MonologueById(db.State(), id)
    {
      if db == null {
        return Err(DatabaseUnavailable);
      }
      r := GetMonologueByID(db, id);
    }

    /**
     * One page of the published monologues passing the filters, with the
     * number of all matches and whether more follow the page.
     */
    method Monologues(limit: Option<int>, offset: Option<int>, categoryID: Option<Id>, tags: seq<Bytes>,
                      difficulty: Option<Difficulty>)
      returns (r: Result<MonologuesResponse>, ghost all: seq<(Id, MonologueRow)>)
      ensures db == null ==> r == Err(DatabaseUnavailable)
      ensures db != null && !db.online ==> r == Err(Sql(Unavailable))
      ensures db != null && db.online ==>
                && IsSelection(all, db.monologues, (id: Id, m: MonologueRow) => MonologueMatches(m, categoryID, tags, difficulty),
                               MonologueOrder(PublishedDesc))
                && |all| == |KeptIds(db.monologues, (id: Id, m: MonologueRow) => MonologueMatches(m, categoryID, tags, difficulty))|
                && match Page(all, limit, offset)
                   case Err(e) => r == Err(e)
                   case Ok(page) =>
                     r == Ok(MonologuesResponse(MonologueEntities(db.State(), page), |all|, HasNextPage(limit, offset, |all|)))
    {
      all := [];
      if db == null {
        return Err(DatabaseUnavailable), all;
      }
      var monologues;
      monologues, all := GetMonologues(db, limit, offset, categoryID, tags, difficulty);
      if db.online {
        SelectionCount(all, db.monologues, (id: Id, m: MonologueRow) => MonologueMatches(m, categoryID, tags, difficulty),
                       MonologueOrder(PublishedDesc));
      }
      if monologues.Err? {
        return Err(monologues.error), all;
      }
      var allMonologues;
      ghost var all2;
      allMonologues, all2 := GetMonologues(db, None, None, categoryID, tags, difficulty);
      PageAll(all2);
      match allMonologues
      case Err(_) =>
        assert false;
      case Ok(every) =>
        SelectionCount(all2, db.monologues, (id: Id, m: MonologueRow) => MonologueMatches(m, categoryID, tags, difficulty),
                       MonologueOrder(PublishedDesc));
        var hasNextPage := false;
        if limit.Some? && offset.Some? {
          hasNextPage := |every| > AddInt64(offset.value, limit.value);
        }
        r := Ok(MonologuesResponse(monologues.value, |every|, hasNextPage));
    }

    method BlogPost(slug: Bytes) returns (r: Result<Option<BlogPost>>)
      ensures db == null ==> r == Err(DatabaseUnavailable)
      ensures db != null ==> (r.Err? <==> !db.online) && (r.Err? ==> r.error == Sql(Unavailable))
      ensures db != null && r.Ok? && r.value.Some? ==>
                var p := r.value.value;
                p.id in db.posts && db.posts[p.id].slug == slug && IsPublishedPost(db.posts[p.id])
                && p == PostEntity(p.id, db.posts[p.id])
      ensures db != null && r.Ok? && r.value.None? ==>
                forall id :: id in db.posts ==> !(db.posts[id].slug == slug && IsPublishedPost(db.posts[id]))
    {
      if db == null {
        return Err(DatabaseUnavailable);
      }
      r := GetBlogPostBySlug(db, slug);
    }

    method BlogPosts() returns (r: Result<seq<BlogPost>>)
      ensures db == null ==> r == Err(DatabaseUnavailable)
      ensures db != null ==> (r.Err? <==> !db.online) && (r.Err? ==> r.error == Sql(Unavailable))
      ensures db != null && r.Ok? ==> PostListing(r.value, db.posts, IsPublishedPost, PublishedDesc)
    {
      if db == null {
        return Err(DatabaseUnavailable);
      }
      r := GetBlogPosts(db);
    }

    method AdminBlogPosts() returns (r: Result<seq<BlogPost>>)
      ensures db == null ==> r == Err(DatabaseUnavailable)
      ensures db != null ==> (r.Err? <==> !db.online) && (r.Err? ==> r.error == Sql(Unavailable))
      ensures db != null && r.Ok? ==> PostListing(r.value, db.posts, (p: PostRow) => true, CreatedDesc)
    {
      if db == null {
        return Err(DatabaseUnavailable);
      }
      r := GetAdminBlogPosts(db);
    }

    method AdminMonologues() returns (r: Result<seq<Monologue>>, ghost all: seq<(Id, MonologueRow)>)
      ensures db == null ==> r == Err(DatabaseUnavailable)
      ensures db != null && !db.online ==> r == Err(Sql(Unavailable))
      ensures db != null && db.online ==>
                && IsSelection(all, db.monologues, (id: Id, m: MonologueRow) => true, MonologueOrder(CreatedDesc))
                && r == Ok(MonologueEntities(db.State(), all))
    {
      all := [];
      if db == null {
        return Err(DatabaseUnavailable), all;
      }
      r, all := GetAdminMonologues(db);
    }

    /** codeCategories and codeCategoriesHierarchy answer the same flat listing. */
    method CodeCategories() returns (r: Result<seq<CodeCategory>>, ghost rows: seq<(Id, CategoryRow)>)
      ensures db == null ==> r == Err(DatabaseUnavailable)
      ensures db != null ==> (r.Err? <==> !db.online) && (r.Err? ==> r.error == Sql(Unavailable))
      ensures db != null && r.Ok? ==>
                && IsSelection(rows, db.categories, (id: Id, c: CategoryRow) => true,
                               (a: CategoryRow, b: CategoryRow) => BytesLe(a.name, b.name))
                && |r.value| == |rows| && forall i :: 0 <= i < |rows| ==> r.value[i] == CategoryEntity(rows[i].0, rows[i].1)
    {
      rows := [];
      if db == null {
        return Err(DatabaseUnavailable), rows;
      }
      r, rows := GetCodeCategories(db);
    }

    /**
     * Up to MaxLimit(limit) entries related to the monologue: an unknown
     * monologue, or one whose lookup fails, relates to nothing and is no
     * error. Published monologues and posts are dated, as every mutation
     * keeps them.
     */
    method RelatedContent(monologueID: Id, limit: Option<int>)
      returns (r: Result<seq<RelatedContent>>, ghost monoRows: seq<(Id, MonologueRow)>, ghost posts: seq<BlogPost>)
      requires db != null ==> PostProperties.PostsDated(db.State()) && MonologueProperties.MonologuesDated(db.State())
      ensures db == null ==> r == Err(DatabaseUnavailable)
      ensures db != null && (!db.online || monologueID !in db.monologues) ==> r == Ok([])
      ensures db != null && db.online && monologueID in db.monologues ==>
                && IsSelection(monoRows, db.monologues, (id: Id, m: MonologueRow) => MonologueMatches(m, None, [], None),
                               MonologueOrder(PublishedDesc))
                && PostListing(posts, db.posts, IsPublishedPost, PublishedDesc)
                && MonologuesDated(monologueID, db.monologues[monologueID].tags, MonologueEntities(db.State(), monoRows))
                && PostsDated(db.monologues[monologueID].tags, posts)
                && r == Ok(Related(monologueID, db.monologues[monologueID].tags, MonologueEntities(db.State(), monoRows),
                                   posts, MaxLimit(limit)))
    {
      monoRows, posts := [], [];
      if db == null {
        return Err(DatabaseUnavailable), monoRows, posts;
      }
      var current := GetMonologueByID(db, monologueID);
      match current
      case Err(_) =>
        return Ok([]), monoRows, posts;
      case Ok(found) =>
        match found
        case None =>
          return Ok([]), monoRows, posts;
        case Some(source) =>
          var allMonos;
          allMonos, monoRows := GetMonologues(db, None, None, None, [], None);
          PageAll(monoRows);
          match allMonos
          case Err(_) =>
            assert false;
          case Ok(ms) =>
            var allPosts := GetBlogPosts(db);
            match allPosts
            case Err(_) =>
              assert false;
            case Ok(ps) =>
              posts := ps;
              var maxLimit := 6;
              if limit.Some? && limit.value < maxLimit {
                maxLimit := limit.value;
              }
              ListedMonologuesDated(db.State(), monoRows, monologueID, source.tags);
              ListedPostsDated(db.State(), ps, source.tags);
              var result := CollectRelated(monologueID, source.tags, ms, ps, maxLimit);
              r := Ok(result);
    }
  }

  /** mutationResolver: the store's mutations behind the same guard. */
  class MutationResolver {
    const db: DB?

    constructor (db: DB?)
      ensures this.db == db
    {
      this.db := db;
    }

    method LikeMonologue(id: Id, now: Time) returns (r: Result<LikeResponse>)
      modifies db
      ensures db == null ==> r == Err(DatabaseUnavailable)
      ensures db != null ==> (db.State(), r) == Mutations.LikeMonologueEffect(old(db.State()), id, now)
    {
      if db == null {
        return Err(DatabaseUnavailable);
      }
      r := Mutations.LikeMonologue(db, id, now);
    }

    method LikeBlogPost(id: Id, now: Time) returns (r: Result<LikeResponse>)
      modifies db
      ensures db == null ==> r == Err(DatabaseUnavailable)
      ensures db != null ==> (db.State(), r) == Mutations.LikeBlogPostEffect(old(db.State()), id, now)
    {
      if db == null {
        return Err(DatabaseUnavailable);
      }
      r := Mutations.LikeBlogPost(db, id, now);
    }

    method CreateBlogPost(input: CreateBlogPostInput, now: Time, freshId: Id) returns (r: Result<BlogPost>)
      modifies db
      ensures db == null ==> r == Err(DatabaseUnavailable)
      ensures db != null ==> (db.State(), r) == Mutations.CreateBlogPostEffect(old(db.State()), freshId, input, now)
    {
      if db == null {
        return Err(DatabaseUnavailable);
      }
      r := Mutations.CreateBlogPost(db, input, now, freshId);
    }

    method UpdateBlogPost(id: Id, input: UpdateBlogPostInput, now: Time) returns (r: Result<BlogPost>)
      modifies db
      ensures db == null ==> r == Err(DatabaseUnavailable)
      ensures db != null ==>
              (db.State(), r) == Mutations.PostMutation(old(db.State()), id, Mutations.PostMerge(input), now,
                                                         Ascii("update blog post"), Ascii("update"))
    {
      if db == null {
        return Err(DatabaseUnavailable);
      }
      r := Mutations.UpdateBlogPost(db, id, input, now);
    }

    method DeleteBlogPost(id: Id) returns (r: Result<bool>)
      modifies db
      ensures db == null ==> r == Err(DatabaseUnavailable)
      ensures db != null ==> (db.State(), r) == Mutations.DeleteBlogPostEffect(old(db.State()), id)
    {
      if db == null {
        return Err(DatabaseUnavailable);
      }
      r := Mutations.DeleteBlogPost(db, id);
    }

    method PublishBlogPost(id: Id, now: Time) returns (r: Result<BlogPost>)
      modifies db
      ensures db == null ==> r == Err(DatabaseUnavailable)
      ensures db != null ==>
              (db.State(), r) == Mutations.PostMutation(old(db.State()), id, Mutations.PostPublish, now,
                                                         Ascii("publish blog post"), Ascii("publish"))
    {
      if db == null {
        return Err(DatabaseUnavailable);
      }
      r := Mutations.PublishBlogPost(db, id, now);
    }

    method UnpublishBlogPost(id: Id, now: Time) returns (r: Result<BlogPost>)
      modifies db
      ensures db == null ==> r == Err(DatabaseUnavailable)
      ensures db != null ==>
              (db.State(), r) == Mutations.PostMutation(old(db.State()), id, Mutations.PostUnpublish, now,
                                                         Ascii("unpublish blog post"), Ascii("unpublish"))
    {
      if db == null {
        return Err(DatabaseUnavailable);
      }
      r := Mutations.UnpublishBlogPost(db, id, now);
    }

    method CreateMonologue(input: CreateMonologueInput, now: Time, freshId: Id) returns (r: Result<Monologue>)
      modifies db
      ensures db == null ==> r == Err(DatabaseUnavailable)
      ensures db != null ==> (db.State(), r) == Mutations.CreateMonologueEffect(old(db.State()), freshId, input, now)
    {
      if db == null {
        return Err(DatabaseUnavailable);
      }
      r := Mutations.CreateMonologue(db, input, now, freshId);
    }

    method UpdateMonologue(id: Id, input: UpdateMonologueInput, now: Time) returns (r: Result<Option<Monologue>>)
      modifies db
      ensures db == null ==> r == Err(DatabaseUnavailable)
      ensures db != null ==> (db.State(), r) == Mutations.UpdateMonologueEffect(old(db.State()), id, input, now)
    {
      if db == null {
        return Err(DatabaseUnavailable);
      }
      r := Mutations.UpdateMonologue(db, id, input, now);
    }

    method DeleteMonologue(id: Id) returns (r: Result<bool>)
      modifies db
      ensures db == null ==> r == Err(DatabaseUnavailable)
      ensures db != null ==> (db.State(), r) == Mutations.DeleteMonologueEffect(old(db.State()), id)
    {
      if db == null {
        return Err(DatabaseUnavailable);
      }
      r := Mutations.DeleteMonologue(db, id);
    }

    method PublishMonologue(id: Id, now: Time) returns (r: Result<Option<Monologue>>)
      modifies db
      ensures db == null ==> r == Err(DatabaseUnavailable)
      ensures db != null ==>
              (db.State(), r) == Mutations.MonologueMutation(old(db.State()), id, Mutations.MonoPublish, now,
                                                              Ascii("publish monologue"))
    {
      if db == null {
        return Err(DatabaseUnavailable);
      }
      r := Mutations.PublishMonologue(db, id, now);
    }

    method UnpublishMonologue(id: Id, now: Time) returns (r: Result<Option<Monologue>>)
      modifies db
      ensures db == null ==> r == Err(DatabaseUnavailable)
      ensures db != null ==>
              (db.State(), r) == Mutations.MonologueMutation(old(db.State()), id, Mutations.MonoUnpublish, now,
                                                              Ascii("unpublish monologue"))
    {
      if db == null {
        return Err(DatabaseUnavailable);
      }
      r := Mutations.UnpublishMonologue(db, id, now);
    }
  }
}
