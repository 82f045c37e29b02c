/**
 * One post card of the feed: its vote and save toggles, the swipe gesture
 * that reveals the save and share buttons, and the colour classes of its
 * category badge.
 */
module FeedPostCard {
  import opened Wrappers
  import opened FeedTypes

  datatype Vote = Up | Down

  /** The vote after pressing `pressed`: the same button clears, the other switches. */
  function NextVote(current: Option<Vote>, pressed: Vote): (r: Option<Vote>)
    ensures r.None? <==> current == Some(pressed)
    ensures r.Some? ==> r.value == pressed
  {
    if current == Some(pressed) then None else Some(pressed)
  }

  /** Pressing the same button twice gives back the vote from before, unless that was the other button. */
  lemma VoteTwice(current: Option<Vote>, pressed: Vote)
    ensures NextVote(NextVote(current, pressed), pressed) == (if current.Some? && current.value != pressed then None else current)
  {
  }

  /** The interaction a vote button reports: the button's direction, whether the vote was set or cleared. */
  function VoteAction(pressed: Vote): (r: Action)
    ensures r == Upvote || r == Downvote
    ensures (r == Upvote) <==> pressed == Up
  {
    if pressed == Up then Upvote else Downvote
  }

  /** How far the card can be swiped open. */
  const MAX_OFFSET: real := 150.0

  /** Past this offset a released card opens fully; otherwise it closes. */
  const SNAP_THRESHOLD: real := 75.0

  /** Where a released card comes to rest. */
  function Snap(offset: real): (r: real)
    ensures r == 0.0 || r == MAX_OFFSET
    ensures r == MAX_OFFSET <==> offset > SNAP_THRESHOLD
  {
    if offset > SNAP_THRESHOLD then MAX_OFFSET else 0.0
  }

  /** Releasing a card that is already at rest leaves it there. */
  lemma SnapIdempotent(offset: real)
    ensures Snap(Snap(offset)) == Snap(offset)
  {
  }

  /** The card's state and the pointer positions it remembers during a drag. */
  class PostCard {
    const postId: string
    var userVote: Option<Vote>
    var isSaved: bool
    var swipeOffset: real
    var isDragging: bool
    var startX: real
    var currentX: real

    /** The offset stays within the swipe range. */
    predicate Valid()
      reads this
    {
      0.0 <= swipeOffset <= MAX_OFFSET
    }

    constructor(id: string)
      ensures Valid() && postId == id
      ensures userVote.None? && !isSaved && swipeOffset == 0.0 && !isDragging
      ensures startX == 0.0 && currentX == 0.0
    {
      postId := id;
      userVote := None;
      isSaved := false;
      swipeOffset := 0.0;
      isDragging := false;
      startX := 0.0;
      currentX := 0.0;
    }

    /** `handleVote`: toggle the vote and report the button pressed. */
    method HandleVote(pressed: Vote) returns (action: Action)
      requires Valid()
      modifies this
      ensures Valid()
      ensures userVote == NextVote(old(userVote), pressed)
      ensures action == VoteAction(pressed)
      ensures isSaved == old(isSaved) && swipeOffset == old(swipeOffset) && isDragging == old(isDragging)
      ensures startX == old(startX) && currentX == old(currentX)
    {
      userVote := NextVote(userVote, pressed);
      action := VoteAction(pressed);
    }

    /** `handleSave`: flip the saved flag, report a save and close the card. */
    method HandleSave() returns (action: Action)
      requires Valid()
      modifies this
      ensures Valid()
      ensures isSaved == !old(isSaved) && swipeOffset == 0.0 && action == Save
      ensures userVote == old(userVote) && isDragging == old(isDragging)
      ensures startX == old(startX) && currentX == old(currentX)
    {
      isSaved := !isSaved;
      action := Save;
      swipeOffset := 0.0;
    }

    /** `handleShare`: report a share and close the card; the saved flag stays. */
    method HandleShare() returns (action: Action)
      requires Valid()
      modifies this
      ensures Valid()
      ensures swipeOffset == 0.0 && action == Share
      ensures isSaved == old(isSaved) && userVote == old(userVote) && isDragging == old(isDragging)
      ensures startX == old(startX) && currentX == old(currentX)
    {
      action := Share;
      swipeOffset := 0.0;
    }

    /** Touch start or mouse down at `x`: remember where the drag began and from which offset. */
    method DragStart(x: real)
      requires Valid()
      modifies this
      ensures Valid()
      ensures startX == x && currentX == old(swipeOffset) && isDragging
      ensures swipeOffset == old(swipeOffset) && userVote == old(userVote) && isSaved == old(isSaved)
    {
      startX := x;
      currentX := swipeOffset;
      isDragging := true;
    }

    /**
     * Touch move or mouse move to `x`: while dragging, follow the pointer,
     * but only to offsets within the swipe range; otherwise nothing happens.
     */
    method DragMove(x: real)
      requires Valid()
      modifies this
      ensures Valid()
      ensures !old(isDragging) ==> swipeOffset == old(swipeOffset)
      ensures old(isDragging) && 0.0 <= currentX + (x - startX) <= MAX_OFFSET ==>
        swipeOffset == currentX + (x - startX)
      ensures !(0.0 <= currentX + (x - startX) <= MAX_OFFSET) ==> swipeOffset == old(swipeOffset)
      ensures isDragging == old(isDragging) && startX == old(startX) && currentX == old(currentX)
      ensures userVote == old(userVote) && isSaved == old(isSaved)
    {
      if !isDragging {
        return;
      }
      var deltaX := x - startX;
      var newOffset := currentX + deltaX;
      if 0.0 <= newOffset <= MAX_OFFSET {
        swipeOffset := newOffset;
      }
    }

    /** Touch end or mouse up: stop dragging and snap fully open or shut. */
    method DragEnd()
      requires Valid()
      modifies this
      ensures Valid()
      ensures !isDragging && swipeOffset == Snap(old(swipeOffset))
      ensures swipeOffset == 0.0 || swipeOffset == MAX_OFFSET
      ensures startX == old(startX) && currentX == old(currentX)
      ensures userVote == old(userVote) && isSaved == old(isSaved)
    {
      isDragging := false;
      swipeOffset := Snap(swipeOffset);
    }
  }

  const LEGAL_NEWS_COLOR: string := "bg-primary/20 text-primary-foreground border-primary/40"

  /** The badge colour classes by category name. */
  const CATEGORY_COLORS: map<string, string> := map[
    "constitutional-law" := "bg-secondary/20 text-secondary border-secondary/40",
    "criminal-law" := "bg-red-500/20 text-red-400 border-red-500/40",
    "corporate-law" := "bg-green-500/20 text-green-400 border-green-500/40",
    "labor-law" := "bg-purple-500/20 text-purple-400 border-purple-500/40",
    "intellectual-property" := "bg-orange-500/20 text-orange-400 border-orange-500/40",
    "environmental-law" := "bg-emerald-500/20 text-emerald-400 border-emerald-500/40",
    "tax-law" := "bg-amber-500/20 text-amber-400 border-amber-500/40",
    "international-law" := "bg-cyan-500/20 text-cyan-400 border-cyan-500/40",
    "regulations" := "bg-yellow-500/20 text-yellow-400 border-yellow-500/40",
    "case-updates" := "bg-indigo-500/20 text-indigo-400 border-indigo-500/40",
    "legal-news" := LEGAL_NEWS_COLOR
  ]

  /** `getCategoryColor`: the category's classes, or the legal-news classes for a category not listed. */
  function CategoryColor(category: string): (r: string)
    ensures r in CATEGORY_COLORS.Values
    ensures category in CATEGORY_COLORS ==> r == CATEGORY_COLORS[category]
    ensures category !in CATEGORY_COLORS ==> r == LEGAL_NEWS_COLOR
  {
    if category in CATEGORY_COLORS && CATEGORY_COLORS[category] != "" then CATEGORY_COLORS[category]
    else CATEGORY_COLORS["legal-news"]
  }

  /** Civil law is the one category the colour map leaves out, so it shows the legal-news classes. */
  lemma CivilLawFallsBack(c: LegalCategory)
    ensures c == CivilLaw <==> CategoryName(c) !in CATEGORY_COLORS
    ensures c == CivilLaw ==> CategoryColor(CategoryName(c)) == LEGAL_NEWS_COLOR
  {
  }
}
