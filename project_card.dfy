/**
 * The shared project card: amounts under either field name, a progress bar, title and
 * description fallbacks, and the owner (or creator) shortened.
 */
module ProjectCard {
  import opened Wrappers
  import opened Listing
  import Address
  import Ether
  import Dashboard

  const Untitled := "Untitled Project"
  const NoDescription := "No description"
  const UnknownOwner := "Unknown"

  /** What the card shows: bar width in percent, title, description and owner. */
  datatype CardView = CardView(progress: real, title: string, description: string, owner: string)

  /**
   * The card: progress from `fundingGoal || goal` and `amountRaised || raised` (0 for a
   * zero goal, full exactly when the goal is reached, never above 100), the fallbacks
   * "Untitled Project" and "No description", and the owner shortened, or "Unknown"
   * when neither `owner` nor `creator` is set.
   */
  function Card(p: Listing): (c: CardView)
    ensures 0.0 <= c.progress <= 100.0
    ensures GoalOf(p) == 0 ==> c.progress == 0.0
    ensures GoalOf(p) > 0 ==> (c.progress == 100.0 <==> RaisedOf(p) >= GoalOf(p))
    ensures Truthy(p.title) ==> c.title == p.title.value
    ensures !Truthy(p.title) ==> c.title == Untitled
    ensures Truthy(p.description) ==> c.description == p.description.value
    ensures !Truthy(p.description) ==> c.description == NoDescription
    ensures OwnerOf(p) == [] <==> c.owner == UnknownOwner
    ensures OwnerOf(p) != [] ==> c.owner == Address.Shorten(OwnerOf(p))
  {
    var owner := OwnerOf(p);
    var shown := if owner != [] then Address.Shorten(owner) else UnknownOwner;
    assert owner != [] ==> shown[Address.Min(|owner|, 6)] == '.' && '.' !in UnknownOwner;
    CardView(Progress(RaisedOf(p), GoalOf(p)), TextOr(p.title, Untitled), TextOr(p.description, NoDescription), shown)
  }

  /**
   * With a positive goal the card's progress is what its own guard computes; with a
   * zero goal the written guard (comparing the formatted goal with "0") would not fire.
   */
  lemma ProgressAsWritten(p: Listing)
    ensures GoalOf(p) > 0 ==> Ether.CardProgressAsWritten(RaisedOf(p), GoalOf(p)) == Ether.Finite(Card(p).progress)
    ensures GoalOf(p) == 0 ==> Ether.CardProgressAsWritten(RaisedOf(p), 0) != Ether.Finite(Card(p).progress)
  {
    if GoalOf(p) > 0 {
      Ether.CardProgressAgreesAboveZero(RaisedOf(p), GoalOf(p));
    } else {
      Ether.CardProgressOnZeroGoal(RaisedOf(p));
    }
  }

  /**
   * The dashboard's inline card shows the same progress, title and owner; only the
   * description fallback differs ("" there, "No description" here).
   */
  lemma AgreesWithDashboardCard(p: Listing)
    ensures Card(p).progress == Dashboard.Card(p).progress
    ensures Card(p).title == Dashboard.Card(p).title
    ensures Card(p).owner == Dashboard.Card(p).owner
    ensures Truthy(p.description) ==> Card(p).description == Dashboard.Card(p).description
    ensures !Truthy(p.description) ==> Card(p).description != Dashboard.Card(p).description
  {
  }
}
