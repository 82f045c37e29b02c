/**
 * The feed relevance scorer: six per-factor scores of one post against one
 * preference record, combined with fixed weights and clamped into [0, 1],
 * and the ranking of a list of posts by that score.
 *
 * Numbers are exact reals; the clock (`Date.now()`) is the parameter `now`,
 * in milliseconds.
 */
module FeedAlgorithm {
  import opened FeedTypes
  import Collections

  function Min(a: real, b: real): real { if a <= b then a else b }
  function Max(a: real, b: real): real { if a >= b then a else b }

  /** The fixed weight of each factor. */
  const WEIGHTS: Factors := Factors(0.25, 0.20, 0.20, 0.15, 0.15, 0.05)

  function WeightSum(w: Factors): real {
    w.categoryMatch + w.tagMatch + w.interactionHistory + w.recency + w.engagement + w.urgency
  }

  /** The weights sum to exactly one. */
  lemma WeightsSumToOne()
    ensures WeightSum(WEIGHTS) == 1.0
  {
  }

  /** The `reduce` over the factors: each factor times its weight, summed in declaration order. */
  function WeightedTotal(f: Factors): real {
    0.0 + f.categoryMatch * WEIGHTS.categoryMatch + f.tagMatch * WEIGHTS.tagMatch
        + f.interactionHistory * WEIGHTS.interactionHistory + f.recency * WEIGHTS.recency
        + f.engagement * WEIGHTS.engagement + f.urgency * WEIGHTS.urgency
  }

  /** `Math.min(Math.max(x, 0), 1)`. */
  function Clamp01(x: real): (r: real)
    ensures 0.0 <= r <= 1.0
    ensures 0.0 <= x <= 1.0 ==> r == x
    ensures x < 0.0 ==> r == 0.0
    ensures x > 1.0 ==> r == 1.0
  {
    Min(Max(x, 0.0), 1.0)
  }

  predicate InUnit(x: real) { 0.0 <= x <= 1.0 }

  predicate FactorsInUnit(f: Factors) {
    InUnit(f.categoryMatch) && InUnit(f.tagMatch) && InUnit(f.interactionHistory)
    && InUnit(f.recency) && InUnit(f.engagement) && InUnit(f.urgency)
  }

  /** Because the weights are non-negative and sum to one, factors in [0, 1] give a total in [0, 1]. */
  lemma WeightedTotalInUnit(f: Factors)
    requires FactorsInUnit(f)
    ensures InUnit(WeightedTotal(f))
  {
    WeightsSumToOne();
  }

  // ---------------------------------------------------------------- factors

  /** A count out of a total, as a real fraction. */
  lemma Fraction(m: nat, n: nat)
    requires m <= n && n > 0
    ensures InUnit(m as real / n as real)
    ensures m as real / n as real == 1.0 <==> m == n
    ensures m as real / n as real == 0.0 <==> m == 0
  {
    var f, x, y := m as real / n as real, m as real, n as real;
    assert f * y == x;
    assert 0.0 <= f;
    assert f <= 1.0 by {
      assert x <= y;
      assert x / y <= y / y;
    }
    if f == 1.0 {
      assert x == y;
    }
    if f == 0.0 {
      assert x == 0.0;
    }
  }

  /** 1 when the post's category is a favoured one, else 0. */
  function CategoryMatch(post: Post, preferences: UserPreferences): (r: real)
    ensures r == 1.0 <==> post.category in preferences.categories
    ensures r == 0.0 <==> post.category !in preferences.categories
  {
    if post.category in preferences.categories then 1.0 else 0.0
  }

  /** The test `preferences.tags.includes(tag)`. */
  function FavouredTag(favoured: seq<string>): string -> bool {
    tag => tag in favoured
  }

  /** The post's tags that are favoured, duplicates kept (`post.tags.filter(...)`). */
  function MatchingTags(post: Post, preferences: UserPreferences): seq<string> {
    Collections.Keep(post.tags, FavouredTag(preferences.tags))
  }

  /** Reference count of the favoured entries of `tags`, repeats counted, independent of `filter`. */
  function FavouredCount(tags: seq<string>, favoured: seq<string>): (n: nat)
    ensures n <= |tags|
  {
    if tags == [] then 0 else (if tags[0] in favoured then 1 else 0) + FavouredCount(tags[1..], favoured)
  }

  lemma {:induction false} KeepFavouredCount(tags: seq<string>, favoured: seq<string>)
    ensures |Collections.Keep(tags, FavouredTag(favoured))| == FavouredCount(tags, favoured)
  {
    if tags != [] {
      KeepFavouredCount(tags[1..], favoured);
    }
  }

  /** The fraction of the post's tags that are favoured; 0 for a post without tags. */
  function TagMatch(post: Post, preferences: UserPreferences): (r: real)
    ensures InUnit(r)
    ensures post.tags == [] ==> r == 0.0
    ensures post.tags != [] ==> r == FavouredCount(post.tags, preferences.tags) as real / |post.tags| as real
    ensures post.tags != [] ==>
      (r == 1.0 <==> forall i :: 0 <= i < |post.tags| ==> post.tags[i] in preferences.tags)
    ensures r == 0.0 <==> forall i :: 0 <= i < |post.tags| ==> post.tags[i] !in preferences.tags
  {
    var matching := MatchingTags(post, preferences);
    KeepFavouredCount(post.tags, preferences.tags);
    Collections.KeepSizeAll(post.tags, FavouredTag(preferences.tags));
    Collections.KeepSizeNone(post.tags, FavouredTag(preferences.tags));
    if |post.tags| > 0 then
      Fraction(|matching|, |post.tags|);
      |matching| as real / |post.tags| as real
    else 0.0
  }

  /**
   * `findPostByCategory`: `interactionHistory.some(...)` with a predicate that
   * never looks at the interaction, so it holds exactly when the history is
   * non-empty and the category is favoured.
   */
  function FindPostByCategory(category: LegalCategory, preferences: UserPreferences): (r: bool)
    ensures r <==> |preferences.interactionHistory| > 0 && category in preferences.categories
  {
    var h := preferences.interactionHistory;
    var favoured := (interaction: UserInteraction) => category in preferences.categories;
    Collections.Any(h, favoured)
  }

  /** `post.tags.some(tag => preferences.tags.includes(tag))`. */
  predicate SharesFavouredTag(post: Post, preferences: UserPreferences) {
    exists i :: 0 <= i < |post.tags| && post.tags[i] in preferences.tags
  }

  /** The relatedness test the interaction filter applies; it ignores the interaction it is given. */
  predicate IsRelated(post: Post, preferences: UserPreferences) {
    FindPostByCategory(post.category, preferences) || SharesFavouredTag(post, preferences)
  }

  /** The "related" interactions: the history filtered by a predicate that ignores its argument. */
  function RelatedInteractions(post: Post, preferences: UserPreferences): (r: seq<UserInteraction>)
    ensures r == if IsRelated(post, preferences) then preferences.interactionHistory else []
  {
    var h := preferences.interactionHistory;
    var related := Collections.Keep(h, (interaction: UserInteraction) => IsRelated(post, preferences));
    if IsRelated(post, preferences) then
      Collections.KeepAll(h, (interaction: UserInteraction) => IsRelated(post, preferences));
      related
    else
      Collections.KeepSizeNone(h, (interaction: UserInteraction) => IsRelated(post, preferences));
      related
  }

  /** upvote, comment, share and save count as positive engagement; view and downvote do not. */
  predicate IsPositive(a: Action) {
    a in {Upvote, Comment, Share, Save}
  }

  /** Reference count of positive actions in a history, independent of `filter`. */
  function PositiveCount(h: seq<UserInteraction>): (n: nat)
    ensures n <= |h|
  {
    if h == [] then 0 else (if IsPositive(h[0].action) then 1 else 0) + PositiveCount(h[1..])
  }

  lemma {:induction false} KeepPositiveCount(h: seq<UserInteraction>)
    ensures |Collections.Keep(h, (i: UserInteraction) => IsPositive(i.action))| == PositiveCount(h)
  {
    if h != [] {
      KeepPositiveCount(h[1..]);
    }
  }

  /**
   * The interaction factor: the share of positive actions among the related
   * interactions, 0 when there are none. Which post each interaction concerns
   * plays no part.
   */
  function InteractionScore(post: Post, preferences: UserPreferences): (r: real)
    ensures InUnit(r)
    ensures !IsRelated(post, preferences) || preferences.interactionHistory == [] ==> r == 0.0
    ensures IsRelated(post, preferences) && preferences.interactionHistory != [] ==>
      r == PositiveCount(preferences.interactionHistory) as real / |preferences.interactionHistory| as real
  {
    var related := RelatedInteractions(post, preferences);
    var positive := Collections.Keep(related, (i: UserInteraction) => IsPositive(i.action));
    KeepPositiveCount(related);
    if |related| > 0 then
      Fraction(|positive|, |related|);
      |positive| as real / |related| as real
    else 0.0
  }

  lemma {:induction false} PositiveCountSameActions(h1: seq<UserInteraction>, h2: seq<UserInteraction>)
    requires |h1| == |h2|
    requires forall i :: 0 <= i < |h1| ==> h1[i].action == h2[i].action
    ensures PositiveCount(h1) == PositiveCount(h2)
  {
    if h1 != [] {
      PositiveCountSameActions(h1[1..], h2[1..]);
    }
  }

  /**
   * The interaction factor ignores which post (and when) each interaction
   * concerns: histories with the same actions in the same order score alike.
   */
  lemma InteractionScoreIgnoresPostIds(post: Post, p1: UserPreferences, p2: UserPreferences)
    requires p1.categories == p2.categories && p1.tags == p2.tags
    requires |p1.interactionHistory| == |p2.interactionHistory|
    requires forall i :: 0 <= i < |p1.interactionHistory| ==>
      p1.interactionHistory[i].action == p2.interactionHistory[i].action
    ensures InteractionScore(post, p1) == InteractionScore(post, p2)
  {
    PositiveCountSameActions(p1.interactionHistory, p2.interactionHistory);
  }

  /** Appending a view or a downvote never adds a positive action; the other four add one. */
  lemma {:induction false} PositiveCountAppend(h: seq<UserInteraction>, i: UserInteraction)
    ensures PositiveCount(h + [i]) == PositiveCount(h) + if IsPositive(i.action) then 1 else 0
    ensures i.action == View || i.action == Downvote ==> PositiveCount(h + [i]) == PositiveCount(h)
  {
    if h != [] {
      assert (h + [i])[1..] == h[1..] + [i];
      PositiveCountAppend(h[1..], i);
    }
  }

  const HOUR_MS: int := 1000 * 60 * 60
  const WEEK_HOURS: real := 168.0

  /** Hours elapsed between the post's timestamp and `now`. */
  function HoursSincePost(post: Post, now: int): real {
    (now - post.timestamp) as real / HOUR_MS as real
  }

  /** Linear decay over one week: 1 for a post made now, 0 from one week on, above 1 in the future. */
  function RecencyScore(post: Post, now: int): (r: real)
    ensures r >= 0.0
    ensures post.timestamp == now ==> r == 1.0
    ensures now - post.timestamp >= 168 * HOUR_MS ==> r == 0.0
    ensures post.timestamp <= now ==> r <= 1.0
    ensures post.timestamp > now ==> r > 1.0
  {
    Max(0.0, 1.0 - HoursSincePost(post, now) / WEEK_HOURS)
  }

  /** The recency factor never grows as a post ages. */
  lemma RecencyNonIncreasing(p1: Post, p2: Post, now: int)
    requires p1.timestamp >= p2.timestamp
    ensures RecencyScore(p1, now) >= RecencyScore(p2, now)
  {
  }

  /**
   * Engagement: 0.7 times the upvote ratio plus 0.3 times the capped
   * (upvotes + comments) per vote; 0 without votes.
   */
  function EngagementScore(post: Post): (r: real)
    ensures post.upvotes + post.downvotes == 0 ==> r == 0.0
    ensures post.upvotes >= 0 && post.downvotes >= 0 && post.commentCount >= 0 ==> InUnit(r)
    ensures post.upvotes > 0 && post.downvotes == 0 && post.commentCount >= 0 ==> r == 1.0
  {
    var totalVotes := post.upvotes + post.downvotes;
    if totalVotes == 0 then 0.0
    else
      var ratio := post.upvotes as real / totalVotes as real;
      var engagement := (post.upvotes + post.commentCount) as real / Max(1.0, totalVotes as real);
      EngagementBounds(post.upvotes, post.downvotes, post.commentCount);
      ratio * 0.7 + Min(engagement, 1.0) * 0.3
  }

  lemma EngagementBounds(up: int, down: int, comments: int)
    requires up + down != 0
    ensures up >= 0 && down >= 0 && comments >= 0 ==>
      InUnit(up as real / (up + down) as real)
      && (up + comments) as real / Max(1.0, (up + down) as real) >= 0.0
    ensures up > 0 && down == 0 && comments >= 0 ==>
      up as real / (up + down) as real == 1.0
      && (up + comments) as real / Max(1.0, (up + down) as real) >= 1.0
  {
    if up >= 0 && down >= 0 && comments >= 0 {
      var t := (up + down) as real;
      assert t > 0.0;
      assert up as real <= t;
      assert up as real / t <= 1.0 by {
        assert up as real / t * t == up as real;
      }
      var e := (up + comments) as real;
      assert e >= 0.0;
      assert e / Max(1.0, t) >= 0.0;
    }
    if up > 0 && down == 0 && comments >= 0 {
      var u, e := up as real, (up + comments) as real;
      assert (up + down) as real == u;
      assert u >= 1.0 && Max(1.0, u) == u;
      assert u / u == 1.0;
      assert e >= u;
      assert e / u >= 1.0 by {
        assert e / u * u == e;
      }
    }
  }

  /** The urgency table: low 0.3, medium 0.6, high 1.0. */
  function UrgencyLevel(u: Urgency): real {
    match u
    case Low => 0.3
    case Medium => 0.6
    case High => 1.0
  }

  /** 0 for a non-regulation post, else the urgency table's value. */
  function UrgencyScore(post: Post): (r: real)
    ensures InUnit(r)
    ensures !post.isRegulation ==> r == 0.0
    ensures post.isRegulation ==> r > 0.0
  {
    if !post.isRegulation then 0.0 else UrgencyLevel(post.urgency)
  }

  /** A regulation post's urgency factor is its level in the table: low 0.3, medium 0.6, high 1.0. */
  lemma UrgencyLevels(p: Post)
    ensures p.isRegulation ==>
      UrgencyScore(p) == match p.urgency case Low => 0.3 case Medium => 0.6 case High => 1.0
  {
  }

  // ------------------------------------------------------------- the score

  /** The six factors of a post, in the source's order. */
  function ComputeFactors(post: Post, preferences: UserPreferences, now: int): Factors {
    Factors(
      CategoryMatch(post, preferences),
      TagMatch(post, preferences),
      InteractionScore(post, preferences),
      RecencyScore(post, now),
      EngagementScore(post),
      UrgencyScore(post))
  }

  /** Non-negative counts and a timestamp that is not in the future. */
  predicate WellFormed(post: Post, now: int) {
    post.upvotes >= 0 && post.downvotes >= 0 && post.commentCount >= 0 && post.timestamp <= now
  }

  /**
   * `calculateRelevanceScore`: the weighted total of the factors, clamped
   * into [0, 1], tagged with the post's id. For a well-formed post every
   * factor already lies in [0, 1] and the clamp changes nothing.
   */
  function CalculateRelevanceScore(post: Post, preferences: UserPreferences, now: int): (r: RelevanceScore)
    ensures r.postId == post.id
    ensures InUnit(r.score)
    ensures r.score == Clamp01(WeightedTotal(r.factors))
    ensures WellFormed(post, now) ==> FactorsInUnit(r.factors) && r.score == WeightedTotal(r.factors)
    ensures r.factors == ComputeFactors(post, preferences, now)
  {
    var factors := ComputeFactors(post, preferences, now);
    if WellFormed(post, now) then
      WeightedTotalInUnit(factors);
      RelevanceScore(post.id, Clamp01(WeightedTotal(factors)), factors)
    else
      RelevanceScore(post.id, Clamp01(WeightedTotal(factors)), factors)
  }

  /** The sort key: a post's relevance score. */
  function RelevanceKey(preferences: UserPreferences, now: int): Post -> real {
    post => CalculateRelevanceScore(post, preferences, now).score
  }

  /**
   * `sortPostsByRelevance`: the posts reordered by non-increasing score with a
   * stable sort over a fresh array; the input is a value and is left as it was.
   */
  function SortPostsByRelevance(posts: seq<Post>, preferences: UserPreferences, now: int): (r: seq<Post>)
    ensures |r| == |posts| && multiset(r) == multiset(posts)
    ensures forall i, j :: 0 <= i < j < |r| ==>
      CalculateRelevanceScore(r[i], preferences, now).score >= CalculateRelevanceScore(r[j], preferences, now).score
  {
    var r := Collections.SortDesc(posts, RelevanceKey(preferences, now));
    assert forall i :: 0 <= i < |r| ==>
      RelevanceKey(preferences, now)(r[i]) == CalculateRelevanceScore(r[i], preferences, now).score;
    r
  }

  /** Posts of equal score keep their input order. */
  lemma SortPostsByRelevanceStable(posts: seq<Post>, preferences: UserPreferences, now: int, k: real)
    ensures Collections.KeyClass(SortPostsByRelevance(posts, preferences, now), RelevanceKey(preferences, now), k)
         == Collections.KeyClass(posts, RelevanceKey(preferences, now), k)
  {
    Collections.SortDescStable(posts, RelevanceKey(preferences, now), k);
  }

  /** Any stable descending sort by score gives exactly the model's ranking. */
  lemma SortPostsByRelevanceUnique(posts: seq<Post>, preferences: UserPreferences, now: int, r: seq<Post>)
    requires Collections.SortedDesc(r, RelevanceKey(preferences, now))
    requires forall k :: Collections.KeyClass(r, RelevanceKey(preferences, now), k)
                      == Collections.KeyClass(posts, RelevanceKey(preferences, now), k)
    ensures r == SortPostsByRelevance(posts, preferences, now)
  {
    var key := RelevanceKey(preferences, now);
    var s := SortPostsByRelevance(posts, preferences, now);
    forall k
      ensures Collections.KeyClass(r, key, k) == Collections.KeyClass(s, key, k)
    {
      Collections.SortDescStable(posts, key, k);
    }
    Collections.StableSortUnique(r, s, key);
  }

  // ------------------------------------------------------- a worked example

  /** The shipped default preferences; interaction times are relative to `now`. */
  function DefaultUserPreferences(now: int): UserPreferences {
    UserPreferences(
      [ConstitutionalLaw, CorporateLaw, IntellectualProperty],
      ["privacy", "digital-rights", "compliance", "ai", "copyright"],
      [ UserInteraction("1", Upvote, now - 60 * 60 * 1000, Wrappers.Some(300)),
        UserInteraction("5", Save, now - 2 * 60 * 60 * 1000, Wrappers.Some(480)) ],
      ["5"])
  }

  /** With the default preferences, whose history holds only positive actions, a related post scores 1 on interactions. */
  lemma DefaultPreferencesInteraction(post: Post, now: int)
    requires IsRelated(post, DefaultUserPreferences(now))
    ensures InteractionScore(post, DefaultUserPreferences(now)) == 1.0
  {
    var h := DefaultUserPreferences(now).interactionHistory;
    assert h[1..][1..] == [];
    assert PositiveCount(h) == 2;
  }
}
