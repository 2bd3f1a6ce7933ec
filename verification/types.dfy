/**
 * The records the chat is built from: messages, the oracle's verdict
 * (`BotResponse`), the delivery status of a user message, and the affinity
 * tiers with their score thresholds.
 */
module Types {
  import opened Wrappers

  datatype Sender = User | Bot | System

  datatype MessageStatus = Sent | Delivered | Read

  /** One entry of the conversation log. `timestamp` is milliseconds since the
      epoch; the optional fields are absent unless a turn sets them. */
  datatype Message = Message(
    id: string,
    text: string,
    sender: Sender,
    timestamp: int,
    status: Option<MessageStatus>,  // only relevant for user messages
    interestLevel: Option<int>,     // the verdict's score, put on the triggering user message
    thoughts: Option<string>,       // the verdict's rationale, put on a bot or system message
    imageUrl: Option<string>)       // a data URL of an uploaded image

  /** The verdict the oracle returns for one turn. `replies` is optional because a
      parsed verdict may lack the field; the caller reads a missing list as empty. */
  datatype BotResponse = BotResponse(
    interestLevel: int,
    replies: Option<seq<string>>,
    thoughts: string,
    userImpression: Option<string>)

  /** The documented range of an interest level; the code does not enforce it. */
  predicate InLevelRange(level: int) {
    1 <= level <= 10
  }

  /** How far a status has advanced along Sent, Delivered, Read; an absent status is behind all three. */
  function StatusRank(s: Option<MessageStatus>): nat {
    match s
    case None => 0
    case Some(Sent) => 1
    case Some(Delivered) => 2
    case Some(Read) => 3
  }

  /** The optional fields sit where the record's comments place them: status and
      interest level on user messages, thoughts on bot or system messages. */
  predicate FieldsFitSender(m: Message) {
    && (m.status.Some? ==> m.sender == User)
    && (m.interestLevel.Some? ==> m.sender == User)
    && (m.thoughts.Some? ==> m.sender != User)
  }

  predicate WellFormedLog(log: seq<Message>) {
    forall i :: 0 <= i < |log| ==> FieldsFitSender(log[i])
  }

  // ---------------------------------------------------------------------------
  // Affinity tiers
  // ---------------------------------------------------------------------------

  datatype AffinityTier = Stranger | Acquaintance | Favored

  const AcquaintanceThreshold: int := 30
  const FavoredThreshold: int := 80
  const MaxScore: int := 100

  type Score = s: int | 0 <= s <= MaxScore

  /** The position of a tier in the order Stranger < Acquaintance < Favored. */
  function TierRank(t: AffinityTier): nat {
    match t
    case Stranger => 0
    case Acquaintance => 1
    case Favored => 2
  }

  /** The inclusive score range written beside each tier's declaration. */
  function Band(t: AffinityTier): (int, int) {
    match t
    case Stranger => (0, 29)
    case Acquaintance => (30, 79)
    case Favored => (80, 100)
  }

  predicate InBand(score: int, t: AffinityTier) {
    Band(t).0 <= score <= Band(t).1
  }

  /** The tier a score falls in, decided by the two thresholds. */
  function TierOf(score: Score): (t: AffinityTier)
    ensures InBand(score, t)
  {
    if score >= FavoredThreshold then Favored
    else if score >= AcquaintanceThreshold then Acquaintance
    else Stranger
  }

  /** A score lies in exactly one band, and that band is its tier's. */
  lemma TierIsTheOnlyBand(score: Score, t: AffinityTier)
    ensures TierOf(score) == t <==> InBand(score, t)
  {
  }

  /** The bands tile 0..100 without gaps, and the thresholds are where the upper two begin. */
  lemma BandsMatchThresholds()
    ensures Band(Stranger).0 == 0 && Band(Favored).1 == MaxScore
    ensures Band(Stranger).1 + 1 == Band(Acquaintance).0 == AcquaintanceThreshold
    ensures Band(Acquaintance).1 + 1 == Band(Favored).0 == FavoredThreshold
  {
  }

  /** A higher score never means a lower tier. */
  lemma TierMonotone(a: Score, b: Score)
    requires a <= b
    ensures TierRank(TierOf(a)) <= TierRank(TierOf(b))
  {
  }
}
