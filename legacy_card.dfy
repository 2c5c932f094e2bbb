/**
 * The older project card kept at the top of the repository. It reads only the `goal`,
 * `raised` and `creator` fields, and shortens the creator with a fixed offset of 38
 * for its tail.
 */
module LegacyCard {
  import opened Wrappers
  import opened Listing
  import Address
  import Ether

  const Untitled := "Untitled"
  const NoDescription := "No description"
  const UnknownCreator := "Unknown"

  /** What the card shows: bar width in percent, title, description and creator. */
  datatype CardView = CardView(progress: real, title: string, description: string, creator: string)

  /** `project.goal || "0"` and `project.raised || "0"`. */
  function GoalOrZero(p: Listing): nat { AmountOr(p.goal, 0) }
  function RaisedOrZero(p: Listing): nat { AmountOr(p.raised, 0) }

  /**
   * The card: progress from `goal` and `raised` alone (0 for a zero goal, full exactly
   * when the goal is reached, never above 100), the fallbacks "Untitled" and
   * "No description", and the creator as its first six characters, "...", and its
   * characters from index 38 on, or "Unknown" when there is no creator.
   */
  function Card(p: Listing): (c: CardView)
    ensures 0.0 <= c.progress <= 100.0
    ensures GoalOrZero(p) == 0 ==> c.progress == 0.0
    ensures GoalOrZero(p) > 0 ==> (c.progress == 100.0 <==> RaisedOrZero(p) >= GoalOrZero(p))
    ensures Truthy(p.title) ==> c.title == p.title.value
    ensures !Truthy(p.title) ==> c.title == Untitled
    ensures Truthy(p.description) ==> c.description == p.description.value
    ensures !Truthy(p.description) ==> c.description == NoDescription
    ensures !Truthy(p.creator) <==> c.creator == UnknownCreator
    ensures Truthy(p.creator) ==> c.creator == Address.ShortenAtFixedOffset(p.creator.value)
  {
    var shown := if Truthy(p.creator) then Address.ShortenAtFixedOffset(p.creator.value) else UnknownCreator;
    assert Truthy(p.creator) ==> shown[Address.Min(|p.creator.value|, 6)] == '.' && '.' !in UnknownCreator;
    CardView(Progress(RaisedOrZero(p), GoalOrZero(p)), TextOr(p.title, Untitled), TextOr(p.description, NoDescription), shown)
  }

  /**
   * The alternate names are not consulted: a record whose amounts and owner sit under
   * `fundingGoal`, `amountRaised` and `owner` alone shows an empty bar and "Unknown".
   */
  lemma AlternateNamesIgnored(p: Listing)
    ensures Card(p) == Card(p.(fundingGoal := None, amountRaised := None, owner := None))
    ensures p.goal.None? ==> Card(p).progress == 0.0
    ensures p.creator.None? ==> Card(p).creator == UnknownCreator
  {
  }

  /** For a standard 42-character address the creator reads like every other page's owner. */
  lemma CreatorOnStandardAddress(p: Listing)
    requires p.creator.Some? && |p.creator.value| == 42
    ensures Card(p).creator == Address.Shorten(p.creator.value)
    ensures |Card(p).creator| == 13
  {
    Address.FixedOffsetAgreesOnStandardAddress(p.creator.value);
    Address.ShortenStandardAddress(p.creator.value);
  }

  /** With a positive goal the card's progress is what its own guard computes. */
  lemma ProgressAsWritten(p: Listing)
    ensures GoalOrZero(p) > 0 ==> Ether.CardProgressAsWritten(RaisedOrZero(p), GoalOrZero(p)) == Ether.Finite(Card(p).progress)
    ensures GoalOrZero(p) == 0 ==> Ether.CardProgressAsWritten(RaisedOrZero(p), 0) != Ether.Finite(Card(p).progress)
  {
    if GoalOrZero(p) > 0 {
      Ether.CardProgressAgreesAboveZero(RaisedOrZero(p), GoalOrZero(p));
    } else {
      Ether.CardProgressOnZeroGoal(RaisedOrZero(p));
    }
  }
}
