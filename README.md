# LaWEase core logic in Dafny

LaWEase is a React application that answers questions about Indian
constitutional law and shows a personalised legal news feed. This project
models its deterministic engines and proves properties of them:

- **Feed relevance scorer** (`FeedAlgorithm`). It scores one post against one
  preference record with six factors: category, tags, interaction history,
  recency, engagement and urgency. It combines them with fixed weights, clamps
  the result into [0, 1], and ranks a list by that score with a stable sort.
- **Keyword responder** (`LegalKnowledge`). The query is lower-cased and tested
  against an ordered chain of 49 substring rules. The first rule that fires
  gives the answer. Each rule is a list of alternatives, and each alternative
  is a list of phrases that must all occur.
- **Structured question matcher** (`ConstitutionQA`). It first looks for a
  word-overlap match against a question table (threshold `min(3, n/2)`). Then
  it falls back to a keyword-to-category table. The question table is a
  parameter; the shipped table is empty.
- **Chat page** (`ChatIndex`). It chooses the reply: exact small-talk phrases
  first, then the first truthy answer of three responders, then a fixed
  fallback. It also holds the message list that sending, starting a new chat
  and selecting a chat change.
- **Feed page** (`FeedInterface`). It runs the filter pipeline (category,
  regulations only, case-insensitive search) and the three sort modes. It
  also updates the preferences when the user interacts with a post.
- **Post card** (`FeedPostCard`). It holds the vote and save toggles, the
  swipe gesture with its offset range and snapping, and the badge colour
  lookup.

Shared pieces:

- `Text` has ASCII lower-casing, `includes`, and JavaScript `split` on a
  single character.
- `Collections` has `filter`, an early-exit search, and a stable descending
  sort.
- `FeedTypes` has the feed's records and enumerations.
- `Wrappers` has `Option`.

Numbers in the feed are exact reals. The clock (`Date.now()`) is always a
parameter.

Two points of the code worth knowing:

- Small-talk matching is anchored and applies to the untrimmed message:
  `"hello "` is not a greeting (`ChatIndex.GreetingUntrimmed`).
- The chat page's chain does not include the structured question matcher.
  `findAnswer` is not called from the page, so it is modelled on its own.

## Model

| member | source | states |
|---|---|---|
| `FeedAlgorithm.WeightsSumToOne` | src/services/feedAlgorithm.ts:4-11 | the six weights sum to exactly 1 |
| `FeedAlgorithm.Clamp01` | src/services/feedAlgorithm.ts:33 | the result lies in [0,1]; it is the identity on [0,1], 0 below and 1 above |
| `FeedAlgorithm.WeightedTotalInUnit` | src/services/feedAlgorithm.ts:26-29 | factors in [0,1] give a weighted total in [0,1] |
| `FeedAlgorithm.CategoryMatch` | src/services/feedAlgorithm.ts:38-40 | 1 iff the post's category is favoured, 0 iff it is not |
| `FeedAlgorithm.TagMatch` | src/services/feedAlgorithm.ts:42-45 | in [0,1]; 0 for a post without tags; otherwise the favoured tags (repeats counted by an independent recursive count) over the number of tags; 1 iff every tag is favoured; 0 iff no tag is |
| `FeedAlgorithm.KeepFavouredCount` | src/services/feedAlgorithm.ts:43 | the filtered tag list has exactly as many entries as the recursive count of favoured tags |
| `FeedAlgorithm.FindPostByCategory` | src/services/feedAlgorithm.ts:82-86 | the `some` over the history holds iff the history is non-empty and the category is favoured, since its predicate ignores the interaction |
| `FeedAlgorithm.RelatedInteractions` | src/services/feedAlgorithm.ts:48-51 | the filter ignores each interaction: it keeps the whole history when the post is related, else nothing |
| `FeedAlgorithm.InteractionScore` | src/services/feedAlgorithm.ts:47-58 | in [0,1]; 0 when unrelated or the history is empty; otherwise positive actions / history length |
| `FeedAlgorithm.KeepPositiveCount` | src/services/feedAlgorithm.ts:53-55 | the filtered positive list has exactly as many entries as a recursive count of upvote, comment, share and save |
| `FeedAlgorithm.InteractionScoreIgnoresPostIds` | src/services/feedAlgorithm.ts:82-86 | histories with the same actions in the same order give the same factor, whatever posts they concern |
| `FeedAlgorithm.PositiveCountAppend` | src/services/feedAlgorithm.ts:53-55 | appending a view or a downvote adds no positive action; the other four actions add one |
| `FeedAlgorithm.RecencyScore` | src/services/feedAlgorithm.ts:60-63 | never negative; 1 at age 0; 0 from 168 hours on; at most 1 for past posts; above 1 for future ones |
| `FeedAlgorithm.RecencyNonIncreasing` | src/services/feedAlgorithm.ts:60-63 | an older post never has a higher recency factor |
| `FeedAlgorithm.EngagementScore` | src/services/feedAlgorithm.ts:65-73 | 0 without votes; in [0,1] for non-negative counts; 1 with only upvotes |
| `FeedAlgorithm.UrgencyScore` | src/services/feedAlgorithm.ts:75-80 | 0 for a non-regulation post, positive and at most 1 for a regulation |
| `FeedAlgorithm.UrgencyLevels` | src/services/feedAlgorithm.ts:75-80 | a regulation post scores 0.3, 0.6 or 1.0 for low, medium or high urgency |
| `FeedAlgorithm.CalculateRelevanceScore` | src/services/feedAlgorithm.ts:13-36 | the id is the post's; the factors are the six per-factor scores of the post; the score is the clamped weighted total and lies in [0,1]; for well-formed posts every factor is in [0,1] and the clamp is inactive |
| `FeedAlgorithm.SortPostsByRelevance` | src/services/feedAlgorithm.ts:88-97 | a permutation of the input ordered by non-increasing score |
| `FeedAlgorithm.SortPostsByRelevanceStable` | src/services/feedAlgorithm.ts:94-95 | posts of equal score keep their input order |
| `FeedAlgorithm.SortPostsByRelevanceUnique` | src/services/feedAlgorithm.ts:94-96 | any stable descending ordering by score equals the model's ranking |
| `FeedAlgorithm.DefaultPreferencesInteraction` | src/data/mockFeedData.ts:86-104 | with the default preferences, whose history is all positive, a related post's interaction factor is 1 |
| `Collections.Keep` | src/services/feedAlgorithm.ts:43 | `filter`: every kept element passes and the result is no longer than the input |
| `Collections.KeepSubsequence` | src/services/feedAlgorithm.ts:43 | `filter` keeps the input order: its result is a subsequence of the input |
| `Collections.KeepMultiset` | src/services/feedAlgorithm.ts:43 | `filter` keeps every passing element as often as it occurs and adds nothing |
| `Collections.KeepKeep` | src/components/FeedInterface.tsx:27-43 | two filters in a row equal one filter by the conjunction |
| `Collections.SortDesc` | src/services/feedAlgorithm.ts:94-95 | the sort is a permutation, non-increasing by the key |
| `Collections.SortDescStable` | src/services/feedAlgorithm.ts:95 | for each key value, the elements with that key keep their relative order |
| `Collections.StableSortUnique` | src/services/feedAlgorithm.ts:95 | two sorted sequences with the same per-key order are equal |
| `Collections.Any` | src/services/feedAlgorithm.ts:83-85 | `some` holds iff some element passes |
| `Collections.KeepFirst` | src/data/constitutionQA.ts:34 | the head of a filtered sequence is the first passing element of the input |
| `Collections.FirstIndex` | src/data/constitutionQA.ts:6-11 | the early-exit loop finds the first element that qualifies, or reports that none does |
| `Text.ToLower` | src/data/legalKnowledge.ts:2 | same length, each character lower-cased, and the result has no upper-case letter |
| `Text.ContainsIff` | src/data/legalKnowledge.ts:5 | `includes` holds iff the substring occurs at some position |
| `Text.ToLowerIdempotent` | src/data/legalKnowledge.ts:2 | lower-casing twice is lower-casing once |
| `Text.Split` | src/data/constitutionQA.ts:7 | `split(' ')` gives at least one piece and no piece contains the separator |
| `Text.JoinSplit` | src/data/constitutionQA.ts:7 | joining the pieces with the separator gives back the text |
| `LegalKnowledge.MatchedRule` | src/data/legalKnowledge.ts:5-75 | the first rule, in chain order, that fires on the lower-cased query |
| `LegalKnowledge.GetLegalResponse` | src/data/legalKnowledge.ts:1-76 | null exactly when no rule fires; otherwise the answer literal of a rule that fires with no earlier rule firing |
| `LegalKnowledge.GetLegalResponseCaseInsensitive` | src/data/legalKnowledge.ts:2 | a query and its lower-cased form get the same result |
| `LegalKnowledge.PreambleWins` | src/data/legalKnowledge.ts:5 | any query mentioning 'preamble' gets the Preamble answer |
| `LegalKnowledge.ParliamentShadowsLokSabha` | src/data/legalKnowledge.ts:18-19 | a query mentioning 'parliament' never reaches the Lok Sabha rule; with no earlier rule firing it gets the Parliament answer |
| `LegalKnowledge.Article368NeedsBoth` | src/data/legalKnowledge.ts:36 | the Article 368 rule fires iff both 'amendment' and '368' occur; without '368' it is never the answer |
| `LegalKnowledge.OnePhraseEach` | src/data/legalKnowledge.ts:4-75 | a rule whose alternatives are single phrases fires iff one of those phrases occurs in the query |
| `LegalKnowledge.DpspEitherPhrase` | src/data/legalKnowledge.ts:11 | the DPSP rule fires iff 'dpsp' or 'directive principle' occurs |
| `LegalKnowledge.PilEitherPhrase` | src/data/legalKnowledge.ts:29 | the PIL rule fires iff 'pil' or 'public interest' occurs |
| `LegalKnowledge.NavtejAnyPhrase` | src/data/legalKnowledge.ts:55 | the Navtej Johar rule fires iff 'navtej', '377' or 'homosexual' occurs |
| `LegalKnowledge.FederalAnyPhrase` | src/data/legalKnowledge.ts:66 | the federalism rule fires iff 'federal', 'union list', 'state list' or 'concurrent' occurs |
| `LegalKnowledge.RawSubstringMatching` | src/data/legalKnowledge.ts:9 | matching is raw containment: the Article 21 rule fires on anything starting 'article 21' ('article 210', 'article 21a'), the writ rule (line 28) on anything starting 'writ' ('written') |
| `LegalKnowledge.Article21Reached` | src/data/legalKnowledge.ts:5-9 | a query with 'article 21' and none of the four earlier rules' phrases gets the Article 21 answer |
| `ConstitutionQA.ContentWords` | src/data/constitutionQA.ts:7 | the pieces of the lower-cased question longer than 3 characters, in order, with their multiplicity |
| `ConstitutionQA.MatchCount` | src/data/constitutionQA.ts:8 | at most the word count; equal to it iff every word occurs in the query; 0 iff none does |
| `ConstitutionQA.MatchCountCons` | src/data/constitutionQA.ts:8 | repeats count: each occurring word adds one |
| `ConstitutionQA.Threshold` | src/data/constitutionQA.ts:9 | `min(3, n/2)`: half the word count up to 6 words, 3 from 6 on, 0 only for no words |
| `ConstitutionQA.NoContentWordsMatchesAll` | src/data/constitutionQA.ts:9 | a question with no content words matches every query |
| `ConstitutionQA.ThreeMatchesSuffice` | src/data/constitutionQA.ts:9 | three occurring content words always reach the threshold |
| `ConstitutionQA.AllWordsMatch` | src/data/constitutionQA.ts:7-9 | a question whose content words all occur in the query matches it |
| `ConstitutionQA.CategoryQAs` | src/data/constitutionQA.ts:34 | the entries of one category, in table order, each as often as in the table; non-empty iff the table has such an entry |
| `ConstitutionQA.CategoryQAsFirst` | src/data/constitutionQA.ts:34 | `filter(...)[0]` is the category's first entry in the table |
| `ConstitutionQA.FindAnswerIn` | src/data/constitutionQA.ts:3-42 | every answer is some table entry's answer; null iff nothing matches directly and no fallback entry applies |
| `ConstitutionQA.FirstDirectMatchWins` | src/data/constitutionQA.ts:6-11 | the first table entry that matches directly gives the answer |
| `ConstitutionQA.FallbackWithoutDirectMatch` | src/data/constitutionQA.ts:32-38 | without a direct match, the first applicable keyword entry gives its category's first answer; entries whose category is empty are passed over |
| `ConstitutionQA.FallbackAnswersFirstOfCategory` | src/data/constitutionQA.ts:32-38 | the fallback answer is that of the first table entry of the chosen category |
| `ConstitutionQA.FindAnswer` | src/data/constitutionQA.ts:1-42 | `findAnswer` over the shipped table: any answer is an entry of it |
| `ConstitutionQA.ShippedTableNeverAnswers` | src/data/constitutionQA.ts:1 | with the shipped empty table every query gets null |
| `ConstitutionQA.PreambleFallback` | src/data/constitutionQA.ts:15 | with no direct match, a query mentioning 'preamble' gets the first Preamble entry's answer when there is one |
| `ChatIndex.GreetingsUnpadded` | src/pages/Index.tsx:64-73 | every small-talk phrase is non-empty and neither begins nor ends with a space |
| `ChatIndex.GreetingGroupsDisjoint` | src/pages/Index.tsx:64-73 | the five small-talk groups are pairwise disjoint, so the order they are tried in does not decide the reply |
| `ChatIndex.Greeting` | src/pages/Index.tsx:64-73 | null iff the message is no listed phrase; each group's membership alone decides the reply, since the groups are disjoint |
| `ChatIndex.PaddedNotGreeting` | src/pages/Index.tsx:64-73 | a message beginning or ending with a space is no small-talk phrase |
| `ChatIndex.GreetingUntrimmed` | src/pages/Index.tsx:60-64 | a leading or trailing space makes a message not small talk |
| `ChatIndex.Or` | src/pages/Index.tsx:78 | JavaScript `||`: truthy iff either side is; the left side when truthy, else the right |
| `ChatIndex.SelectAnswer` | src/pages/Index.tsx:60-84 | never empty; small talk first; else the first truthy of situational, detailed and basic answers; else the fallback text |
| `ChatIndex.GreetingIgnoresResponders` | src/pages/Index.tsx:64-79 | for small talk the reply does not depend on the responders |
| `ChatIndex.FallbackWhenUnanswered` | src/pages/Index.tsx:84 | with no small talk and no responder answer the reply is the fixed fallback |
| `ChatIndex.ChatSession.constructor` | src/pages/Index.tsx:28-46 | the page starts with no messages, in chat "current" |
| `ChatIndex.ChatSession.SendMessage` | src/pages/Index.tsx:49-57 | exactly one user message with the given content is appended |
| `ChatIndex.ChatSession.DeliverReply` | src/pages/Index.tsx:59-87 | exactly one non-empty assistant message, carrying the selected answer, is appended |
| `ChatIndex.ChatSession.NewChat` | src/pages/Index.tsx:91-98 | the message list is emptied and the new chat id is current |
| `ChatIndex.ChatSession.SelectChat` | src/pages/Index.tsx:100-107 | the selected chat is current and the message list is emptied |
| `FeedInterface.Visible` | src/components/FeedInterface.tsx:27-43 | the posts passing all three filters: an ordered subsequence of the source, each passing post with its multiplicity |
| `FeedInterface.EmptyQueryMatchesAll` | src/components/FeedInterface.tsx:37 | the empty query matches every post |
| `FeedInterface.NoFilterKeepsAll` | src/components/FeedInterface.tsx:27-43 | with every filter off, every source post is shown |
| `FeedInterface.FilterPosts` | src/components/FeedInterface.tsx:27-43 | the three filters applied one after another give exactly the visible posts |
| `FeedInterface.FeedProperties` | src/components/FeedInterface.tsx:26-58 | the feed is a permutation of the visible posts, all pass the filters, newest first for 'recent' and most net votes first for 'popular' |
| `FeedInterface.FeedStable` | src/components/FeedInterface.tsx:45-55 | in every mode, posts with equal sort key keep their order from the filtered list |
| `FeedInterface.SortPosts` | src/components/FeedInterface.tsx:45-55 | a permutation; non-increasing timestamps for 'recent', net votes for 'popular'; in every mode exactly the stable sort by that key (the relevance ranking for 'relevance') |
| `FeedInterface.ComputeFeed` | src/components/FeedInterface.tsx:26-58 | the shown posts are a permutation of the visible ones; each has the chosen category, is a regulation when required, and matches the search; the result is exactly the feed: the visible posts stably sorted by the mode's key |
| `FeedInterface.RecordInteraction` | src/components/FeedInterface.tsx:60-76 | exactly one interaction appended; categories and tags unchanged; a save removes every copy of a saved id or appends an unsaved one; other actions leave the saved list alone |
| `FeedInterface.SaveTwiceRestores` | src/components/FeedInterface.tsx:71-74 | saving an unsaved post twice restores the saved list |
| `FeedInterface.FeedView.constructor` | src/components/FeedInterface.tsx:18-23 | no posts, the given preferences, empty search, all categories, relevance order, regulations filter off |
| `FeedInterface.FeedView.SetView` | src/components/FeedInterface.tsx:20-23 | the four view settings take the given values; posts and preferences stay |
| `FeedInterface.FeedView.Refresh` | src/components/FeedInterface.tsx:26-58 | the shown posts become exactly the feed of the source under the current settings (see `FeedProperties`, `FeedStable`); settings and preferences stay |
| `FeedInterface.FeedView.HandleInteraction` | src/components/FeedInterface.tsx:60-76 | the preferences become the recorded update; nothing else changes |
| `FeedPostCard.NextVote` | src/components/FeedPost.tsx:25 | pressing the current vote clears it; otherwise the vote becomes the pressed button |
| `FeedPostCard.VoteTwice` | src/components/FeedPost.tsx:25 | two presses of one button give back the earlier vote, or none if that was the other button |
| `FeedPostCard.VoteAction` | src/components/FeedPost.tsx:26 | the reported action is upvote for the up button and downvote for the down button |
| `FeedPostCard.Snap` | src/components/FeedPost.tsx:57-61 | a released card rests at 0 or 150, and at 150 iff its offset was above 75 |
| `FeedPostCard.SnapIdempotent` | src/components/FeedPost.tsx:57-61 | a card at rest stays where it is on release |
| `FeedPostCard.PostCard.constructor` | src/components/FeedPost.tsx:15-22 | no vote, not saved, closed, not dragging |
| `FeedPostCard.PostCard.HandleVote` | src/components/FeedPost.tsx:24-27 | the vote toggles and the button's action is reported, even when clearing; nothing else changes |
| `FeedPostCard.PostCard.HandleSave` | src/components/FeedPost.tsx:29-33 | the saved flag flips, a save is reported, and the card closes |
| `FeedPostCard.PostCard.HandleShare` | src/components/FeedPost.tsx:35-38 | a share is reported and the card closes; the saved flag stays |
| `FeedPostCard.PostCard.DragStart` | src/components/FeedPost.tsx:40-44 | records the pointer and the current offset and starts dragging (the mouse handler at lines 64-68 is the same) |
| `FeedPostCard.PostCard.DragMove` | src/components/FeedPost.tsx:46-53 | ignored unless dragging; the offset follows the pointer only within [0,150], so it stays in range (lines 70-77 likewise) |
| `FeedPostCard.PostCard.DragEnd` | src/components/FeedPost.tsx:55-62 | dragging stops and the offset snaps to 0 or 150 (lines 79-86 likewise) |
| `FeedPostCard.CategoryColor` | src/components/FeedPost.tsx:99-114 | a listed category's classes, else the legal-news classes |
| `FeedPostCard.CivilLawFallsBack` | src/types/feed.ts:32-44 | civil-law is the only category missing from the colour map, so it shows the legal-news classes |

## Left out

- JSX rendering, styling, icons, toasts, navigation, scrolling and the category label text: these are presentation with nothing to state.
- `setTimeout` and React's asynchronous, batched state updates: each handler is one atomic step. The reply is a separate `DeliverReply` step, and interleavings between sending and replying are not modelled.
- The document-level mouse listeners (src/components/FeedPost.tsx:88-97): the mouse handlers are modelled as the same steps as the touch handlers.
- `Date.now()` and `new Date()` are parameters. The random `timeSpent` is an unconstrained parameter, so its range of 60 to 359 is not enforced. Message ids are the clock readings, not their decimal strings.
- IEEE-754 rounding: all scores are exact reals.
- Full Unicode `toLowerCase` and the regular-expression engine: lower-casing is ASCII only, and the greeting patterns are fixed sets of phrases.
- `getSituationalAdvice` and `getDetailedLegalResponse` are not part of this model. They are function parameters of `SelectAnswer`.
- The chat-history seed list (src/pages/Index.tsx:29-45) and `src/components/ForYouFeed.tsx`: static data and presentation.
- The mock feed posts are not part of this model. The feed takes its source posts as a parameter.
- `FeedPostCard.CategoryColor`: JavaScript object lookup also finds inherited keys such as `constructor`. The model treats the colour map as a plain map, so such keys fall back like any missing category.
- `FeedInterface.RecordInteraction`: the source casts any action string into the record. The model takes one of the six known actions.
