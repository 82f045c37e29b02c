/** The records of the feed: posts, interactions, preferences and scores. */
module FeedTypes {
  import opened Wrappers

  datatype LegalCategory =
    | ConstitutionalLaw | CriminalLaw | CivilLaw | CorporateLaw | TaxLaw | LaborLaw
    | IntellectualProperty | EnvironmentalLaw | InternationalLaw | Regulations
    | CaseUpdates | LegalNews

  /** The string literal the source uses for each category. */
  function CategoryName(c: LegalCategory): string {
    match c
    case ConstitutionalLaw => "constitutional-law"
    case CriminalLaw => "criminal-law"
    case CivilLaw => "civil-law"
    case CorporateLaw => "corporate-law"
    case TaxLaw => "tax-law"
    case LaborLaw => "labor-law"
    case IntellectualProperty => "intellectual-property"
    case EnvironmentalLaw => "environmental-law"
    case InternationalLaw => "international-law"
    case Regulations => "regulations"
    case CaseUpdates => "case-updates"
    case LegalNews => "legal-news"
  }

  datatype Urgency = Low | Medium | High

  datatype Action = View | Upvote | Downvote | Comment | Share | Save

  /** A feed post; `timestamp` is milliseconds since the epoch, as `Date.getTime()`. */
  datatype Post = Post(
    id: string,
    title: string,
    content: string,
    author: string,
    category: LegalCategory,
    tags: seq<string>,
    upvotes: int,
    downvotes: int,
    commentCount: int,
    timestamp: int,
    source: string,
    isRegulation: bool,
    urgency: Urgency,
    readTime: int)

  datatype UserInteraction = UserInteraction(
    postId: string,
    action: Action,
    timestamp: int,
    timeSpent: Option<int>)

  datatype UserPreferences = UserPreferences(
    categories: seq<LegalCategory>,
    tags: seq<string>,
    interactionHistory: seq<UserInteraction>,
    savedPosts: seq<string>)

  /** The six per-factor values; the same shape holds the weights. */
  datatype Factors = Factors(
    categoryMatch: real,
    tagMatch: real,
    interactionHistory: real,
    recency: real,
    engagement: real,
    urgency: real)

  datatype RelevanceScore = RelevanceScore(postId: string, score: real, factors: Factors)
}
