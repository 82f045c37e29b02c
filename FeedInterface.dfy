/**
 * The feed page: the filter and sort pipeline that recomputes the displayed
 * posts whenever a view setting or the preferences change, and the preference
 * update an interaction with a post makes.
 */
module FeedInterface {
  import opened Wrappers
  import opened Text
  import opened Collections
  import opened FeedTypes
  import FeedAlgorithm

  datatype SortMode = Relevance | Recent | Popular

  /** The category filter; `None` is 'all'. */
  predicate InCategory(post: Post, category: Option<LegalCategory>) {
    category.None? || post.category == category.value
  }

  predicate RegulationOk(post: Post, regulationsOnly: bool) {
    !regulationsOnly || post.isRegulation
  }

  /** Case-insensitive search over the title, the content and every tag. */
  predicate MatchesSearch(post: Post, query: string) {
    var lq := ToLower(query);
    Contains(ToLower(post.title), lq) || Contains(ToLower(post.content), lq)
    || exists i :: 0 <= i < |post.tags| && Contains(ToLower(post.tags[i]), lq)
  }

  /** A post survives all three filters. */
  predicate Passes(post: Post, category: Option<LegalCategory>, regulationsOnly: bool, query: string) {
    InCategory(post, category) && RegulationOk(post, regulationsOnly) && MatchesSearch(post, query)
  }

  // The filters as the predicates handed to `filter`.
  function CategoryFilter(category: Option<LegalCategory>): Post -> bool {
    post => InCategory(post, category)
  }

  function RegulationFilter(regulationsOnly: bool): Post -> bool {
    post => RegulationOk(post, regulationsOnly)
  }

  function SearchFilter(query: string): Post -> bool {
    post => MatchesSearch(post, query)
  }

  function CategoryRegulationFilter(category: Option<LegalCategory>, regulationsOnly: bool): Post -> bool {
    post => InCategory(post, category) && RegulationOk(post, regulationsOnly)
  }

  function VisibleFilter(category: Option<LegalCategory>, regulationsOnly: bool, query: string): Post -> bool {
    post => Passes(post, category, regulationsOnly, query)
  }

  /**
   * The posts the filters let through: those of `source` that pass all three,
   * in source order, each as often as in the source.
   */
  function Visible(source: seq<Post>, category: Option<LegalCategory>, regulationsOnly: bool,
                   query: string): (r: seq<Post>)
    ensures IsSubsequence(r, source)
    ensures forall i :: 0 <= i < |r| ==> Passes(r[i], category, regulationsOnly, query)
    ensures forall p :: Passes(p, category, regulationsOnly, query) ==> multiset(r)[p] == multiset(source)[p]
    ensures multiset(r) <= multiset(source)
  {
    KeepSubsequence(source, VisibleFilter(category, regulationsOnly, query));
    KeepMultiset(source, VisibleFilter(category, regulationsOnly, query));
    Keep(source, VisibleFilter(category, regulationsOnly, query))
  }

  /** The empty query matches every post: it occurs in every title. */
  lemma EmptyQueryMatchesAll(post: Post)
    ensures MatchesSearch(post, "")
  {
    assert ToLower("") == [];
    assert IsPrefix([], ToLower(post.title));
  }

  /** With every filter off, nothing is removed. */
  lemma NoFilterKeepsAll(source: seq<Post>)
    ensures Visible(source, None, false, "") == source
  {
    forall i | 0 <= i < |source|
      ensures VisibleFilter(None, false, "")(source[i])
    {
      EmptyQueryMatchesAll(source[i]);
    }
    KeepAll(source, VisibleFilter(None, false, ""));
  }

  /** The 'recent' comparator's key: newest first. */
  function TimestampKey(): Post -> real {
    (post: Post) => post.timestamp as real
  }

  /** The 'popular' comparator's key: highest net votes first. */
  function PopularityKey(): Post -> real {
    (post: Post) => (post.upvotes - post.downvotes) as real
  }

  /** The three filters of the effect body, applied one after the other. */
  method FilterPosts(source: seq<Post>, category: Option<LegalCategory>, regulationsOnly: bool,
                     query: string) returns (filtered: seq<Post>)
    ensures filtered == Visible(source, category, regulationsOnly, query)
  {
    filtered := source;
    if category.Some? {
      filtered := Keep(filtered, CategoryFilter(category));
    } else {
      KeepAll(source, CategoryFilter(category));
    }
    assert filtered == Keep(source, CategoryFilter(category));

    if regulationsOnly {
      filtered := Keep(filtered, RegulationFilter(regulationsOnly));
    } else {
      KeepAll(filtered, RegulationFilter(regulationsOnly));
    }
    KeepKeep(source, CategoryFilter(category), RegulationFilter(regulationsOnly),
             CategoryRegulationFilter(category, regulationsOnly));
    assert filtered == Keep(source, CategoryRegulationFilter(category, regulationsOnly));

    if query != "" {
      filtered := Keep(filtered, SearchFilter(query));
    } else {
      forall i | 0 <= i < |filtered| ensures SearchFilter(query)(filtered[i]) {
        EmptyQueryMatchesAll(filtered[i]);
      }
      KeepAll(filtered, SearchFilter(query));
    }
    KeepKeep(source, CategoryRegulationFilter(category, regulationsOnly), SearchFilter(query),
             VisibleFilter(category, regulationsOnly, query));
  }

  /**
   * The sort step of the effect body: a sorted copy in the chosen order.
   * `now` stands for the clock the relevance score reads.
   */
  method SortPosts(filtered: seq<Post>, sortBy: SortMode, preferences: UserPreferences, now: int)
    returns (shown: seq<Post>)
    ensures multiset(shown) == multiset(filtered)
    ensures sortBy == Recent ==>
      forall i, j :: 0 <= i < j < |shown| ==> shown[i].timestamp >= shown[j].timestamp
    ensures sortBy == Popular ==>
      forall i, j :: 0 <= i < j < |shown| ==>
        shown[i].upvotes - shown[i].downvotes >= shown[j].upvotes - shown[j].downvotes
    ensures sortBy == Relevance ==> shown == FeedAlgorithm.SortPostsByRelevance(filtered, preferences, now)
    ensures sortBy == Recent ==> shown == SortDesc(filtered, TimestampKey())
    ensures sortBy == Popular ==> shown == SortDesc(filtered, PopularityKey())
  {
    match sortBy
    case Relevance =>
      shown := FeedAlgorithm.SortPostsByRelevance(filtered, preferences, now);
    case Recent =>
      shown := SortDesc(filtered, TimestampKey());
      assert forall i :: 0 <= i < |shown| ==> TimestampKey()(shown[i]) == shown[i].timestamp as real;
    case Popular =>
      shown := SortDesc(filtered, PopularityKey());
      assert forall i :: 0 <= i < |shown| ==>
        PopularityKey()(shown[i]) == (shown[i].upvotes - shown[i].downvotes) as real;
  }

  /**
   * The posts the page shows: the visible posts, stably sorted newest first,
   * by net votes, or by relevance.
   */
  function Feed(source: seq<Post>, category: Option<LegalCategory>, regulationsOnly: bool,
                query: string, sortBy: SortMode, preferences: UserPreferences, now: int): seq<Post>
  {
    var visible := Visible(source, category, regulationsOnly, query);
    match sortBy
    case Relevance => FeedAlgorithm.SortPostsByRelevance(visible, preferences, now)
    case Recent => SortDesc(visible, TimestampKey())
    case Popular => SortDesc(visible, PopularityKey())
  }

  /**
   * The shown posts are the visible ones, each as often, all passing the
   * filters, in the order of the chosen mode; ties keep their source order.
   */
  lemma FeedProperties(source: seq<Post>, category: Option<LegalCategory>, regulationsOnly: bool,
                       query: string, sortBy: SortMode, preferences: UserPreferences, now: int)
    ensures var shown := Feed(source, category, regulationsOnly, query, sortBy, preferences, now);
      multiset(shown) == multiset(Visible(source, category, regulationsOnly, query))
      && (forall i :: 0 <= i < |shown| ==> Passes(shown[i], category, regulationsOnly, query))
      && (sortBy == Recent ==>
            forall i, j :: 0 <= i < j < |shown| ==> shown[i].timestamp >= shown[j].timestamp)
      && (sortBy == Popular ==>
            forall i, j :: 0 <= i < j < |shown| ==>
              shown[i].upvotes - shown[i].downvotes >= shown[j].upvotes - shown[j].downvotes)
  {
    var visible := Visible(source, category, regulationsOnly, query);
    var shown := Feed(source, category, regulationsOnly, query, sortBy, preferences, now);
    assert multiset(shown) == multiset(visible);
    PermutationKeeps(shown, visible, VisibleFilter(category, regulationsOnly, query));
    if sortBy == Recent {
      assert forall i :: 0 <= i < |shown| ==> TimestampKey()(shown[i]) == shown[i].timestamp as real;
    }
    if sortBy == Popular {
      assert forall i :: 0 <= i < |shown| ==>
        PopularityKey()(shown[i]) == (shown[i].upvotes - shown[i].downvotes) as real;
    }
  }

  /** The sort is stable in every mode: posts with equal keys keep their source order. */
  lemma FeedStable(source: seq<Post>, category: Option<LegalCategory>, regulationsOnly: bool,
                   query: string, sortBy: SortMode, preferences: UserPreferences, now: int, k: real)
    ensures sortBy == Recent ==>
      KeyClass(Feed(source, category, regulationsOnly, query, sortBy, preferences, now), TimestampKey(), k)
      == KeyClass(Visible(source, category, regulationsOnly, query), TimestampKey(), k)
    ensures sortBy == Popular ==>
      KeyClass(Feed(source, category, regulationsOnly, query, sortBy, preferences, now), PopularityKey(), k)
      == KeyClass(Visible(source, category, regulationsOnly, query), PopularityKey(), k)
    ensures sortBy == Relevance ==>
      KeyClass(Feed(source, category, regulationsOnly, query, sortBy, preferences, now),
               FeedAlgorithm.RelevanceKey(preferences, now), k)
      == KeyClass(Visible(source, category, regulationsOnly, query), FeedAlgorithm.RelevanceKey(preferences, now), k)
  {
    var visible := Visible(source, category, regulationsOnly, query);
    match sortBy
    case Recent => SortDescStable(visible, TimestampKey(), k);
    case Popular => SortDescStable(visible, PopularityKey(), k);
    case Relevance => FeedAlgorithm.SortPostsByRelevanceStable(visible, preferences, now, k);
  }

  /**
   * The effect body: filter `source` step by step, then sort a copy by the
   * chosen mode.
   */
  method ComputeFeed(source: seq<Post>, category: Option<LegalCategory>, regulationsOnly: bool,
                     query: string, sortBy: SortMode, preferences: UserPreferences, now: int)
    returns (shown: seq<Post>)
    ensures multiset(shown) == multiset(Visible(source, category, regulationsOnly, query))
    ensures forall i :: 0 <= i < |shown| ==> Passes(shown[i], category, regulationsOnly, query)
    ensures category.Some? ==> forall i :: 0 <= i < |shown| ==> shown[i].category == category.value
    ensures regulationsOnly ==> forall i :: 0 <= i < |shown| ==> shown[i].isRegulation
    ensures forall i :: 0 <= i < |shown| ==> MatchesSearch(shown[i], query)
    ensures sortBy == Recent ==>
      forall i, j :: 0 <= i < j < |shown| ==> shown[i].timestamp >= shown[j].timestamp
    ensures sortBy == Popular ==>
      forall i, j :: 0 <= i < j < |shown| ==>
        shown[i].upvotes - shown[i].downvotes >= shown[j].upvotes - shown[j].downvotes
    ensures sortBy == Relevance ==>
      shown == FeedAlgorithm.SortPostsByRelevance(Visible(source, category, regulationsOnly, query), preferences, now)
    ensures shown == Feed(source, category, regulationsOnly, query, sortBy, preferences, now)
  {
    var filtered := FilterPosts(source, category, regulationsOnly, query);
    shown := SortPosts(filtered, sortBy, preferences, now);
    PermutationKeeps(shown, filtered, VisibleFilter(category, regulationsOnly, query));
    assert forall i :: 0 <= i < |shown| ==> Passes(shown[i], category, regulationsOnly, query);
  }

  /**
   * `handleInteraction`'s update of the preferences: one interaction is
   * appended, and a save toggles the post's membership in the saved list.
   * `timestamp` and `timeSpent` stand for the clock and the random duration.
   */
  function RecordInteraction(preferences: UserPreferences, postId: string, action: Action,
                             timestamp: int, timeSpent: int): (r: UserPreferences)
    ensures r.interactionHistory
         == preferences.interactionHistory + [UserInteraction(postId, action, timestamp, Some(timeSpent))]
    ensures r.categories == preferences.categories && r.tags == preferences.tags
    ensures action != Save ==> r.savedPosts == preferences.savedPosts
    ensures action == Save && postId !in preferences.savedPosts ==>
      r.savedPosts == preferences.savedPosts + [postId]
    ensures action == Save && postId in preferences.savedPosts ==>
      postId !in r.savedPosts && IsSubsequence(r.savedPosts, preferences.savedPosts)
      && forall id :: id != postId ==> multiset(r.savedPosts)[id] == multiset(preferences.savedPosts)[id]
  {
    var saved :=
      if action == Save then
        if postId in preferences.savedPosts then
          KeepSubsequence(preferences.savedPosts, id => id != postId);
          KeepMultiset(preferences.savedPosts, id => id != postId);
          var kept := Keep(preferences.savedPosts, id => id != postId);
          assert forall i :: 0 <= i < |kept| ==> kept[i] != postId;
          kept
        else preferences.savedPosts + [postId]
      else preferences.savedPosts;
    preferences.(interactionHistory := preferences.interactionHistory
                                       + [UserInteraction(postId, action, timestamp, Some(timeSpent))],
                 savedPosts := saved)
  }

  /** Saving a post twice, starting from a list without it, restores the list. */
  lemma SaveTwiceRestores(preferences: UserPreferences, postId: string, t1: int, s1: int, t2: int, s2: int)
    requires postId !in preferences.savedPosts
    ensures RecordInteraction(RecordInteraction(preferences, postId, Save, t1, s1), postId, Save, t2, s2).savedPosts
         == preferences.savedPosts
  {
    var saved := preferences.savedPosts;
    KeepConcat(saved, [postId], id => id != postId);
    KeepAll(saved, id => id != postId);
    assert Keep([postId], id => id != postId) == [];
  }

  /** The feed page's view settings, its preference record and the posts it shows. */
  class FeedView {
    var posts: seq<Post>
    var preferences: UserPreferences
    var searchQuery: string
    var selectedCategory: Option<LegalCategory>
    var sortBy: SortMode
    var showRegulationsOnly: bool

    /** The page's initial state: nothing shown, every filter off, sorted by relevance. */
    constructor(initial: UserPreferences)
      ensures posts == [] && preferences == initial && searchQuery == ""
      ensures selectedCategory.None? && sortBy == Relevance && !showRegulationsOnly
    {
      posts := [];
      preferences := initial;
      searchQuery := "";
      selectedCategory := None;
      sortBy := Relevance;
      showRegulationsOnly := false;
    }

    /** Changing the view settings (the page then recomputes its posts). */
    method SetView(category: Option<LegalCategory>, regulationsOnly: bool, query: string, mode: SortMode)
      modifies this
      ensures selectedCategory == category && showRegulationsOnly == regulationsOnly
      ensures searchQuery == query && sortBy == mode
      ensures posts == old(posts) && preferences == old(preferences)
    {
      selectedCategory, showRegulationsOnly, searchQuery, sortBy := category, regulationsOnly, query, mode;
    }

    /** The effect: recompute the shown posts from `source` under the current settings. */
    method Refresh(source: seq<Post>, now: int)
      modifies this
      ensures posts == Feed(source, selectedCategory, showRegulationsOnly, searchQuery, sortBy, preferences, now)
      ensures preferences == old(preferences) && searchQuery == old(searchQuery)
      ensures selectedCategory == old(selectedCategory) && sortBy == old(sortBy)
      ensures showRegulationsOnly == old(showRegulationsOnly)
    {
      var category, regulationsOnly, query, mode := selectedCategory, showRegulationsOnly, searchQuery, sortBy;
      var shown := ComputeFeed(source, category, regulationsOnly, query, mode, preferences, now);
      posts := shown;
    }

    /** `handleInteraction`: record the interaction in the preferences. */
    method HandleInteraction(postId: string, action: Action, timestamp: int, timeSpent: int)
      modifies this
      ensures preferences == RecordInteraction(old(preferences), postId, action, timestamp, timeSpent)
      ensures posts == old(posts) && searchQuery == old(searchQuery)
      ensures selectedCategory == old(selectedCategory) && sortBy == old(sortBy)
      ensures showRegulationsOnly == old(showRegulationsOnly)
    {
      preferences := RecordInteraction(preferences, postId, action, timestamp, timeSpent);
    }
  }
}
