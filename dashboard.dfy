/**
 * The dashboard: the account's own projects picked out of the loaded list, the summary
 * statistics over them, and the dashboard's project card.
 */
module Dashboard {
  import opened Wrappers
  import opened Text
  import opened Listing
  import Address

  /** An entry that is present, has an owner, and whose owner is `account` ignoring case. */
  predicate Selected(entry: Option<Listing>, account: string) {
    entry.Some? && Truthy(entry.value.owner) && EqualsIgnoreCase(entry.value.owner.value, account)
  }

  /** The selected entries, in list order. */
  function OwnedBy(account: string, projects: seq<Option<Listing>>): seq<Listing>
    decreases |projects|
  {
    if projects == [] then []
    else
      var n := |projects| - 1;
      OwnedBy(account, projects[..n]) + (if Selected(projects[n], account) then [projects[n].value] else [])
  }

  /**
   * The `for...of` loop: a missing project or one without an owner is skipped, and a
   * project is kept when its owner lower-cased equals the account lower-cased.
   */
  method FilterUserProjects(account: string, projects: seq<Option<Listing>>) returns (filtered: seq<Listing>)
    ensures filtered == OwnedBy(account, projects)
  {
    filtered := [];
    for i := 0 to |projects|
      invariant filtered == OwnedBy(account, projects[..i])
    {
      assert projects[..i + 1][..i] == projects[..i];
      var entry := projects[i];
      if entry.None? || entry.value.owner.None? || entry.value.owner.value == [] {
        continue;
      }
      var accountLower := ToLower(account);
      var ownerLower := ToLower(entry.value.owner.value);
      if ownerLower == accountLower {
        filtered := filtered + [entry.value];
      }
    }
    assert projects[..|projects|] == projects;
  }

  /** Selection works piece by piece, so it keeps the list's order. */
  lemma {:induction false} OwnedByConcat(account: string, a: seq<Option<Listing>>, b: seq<Option<Listing>>)
    ensures OwnedBy(account, a + b) == OwnedBy(account, a) + OwnedBy(account, b)
    decreases |b|
  {
    if b == [] {
      assert a + b == a;
    } else {
      var n := |b| - 1;
      assert (a + b)[..|a| + n] == a + b[..n];
      assert (a + b)[|a| + n] == b[n];
      OwnedByConcat(account, a, b[..n]);
    }
  }

  /** A project is among the user's projects exactly when some entry holds it and is selected. */
  lemma {:induction false} OwnedByMembers(account: string, projects: seq<Option<Listing>>, p: Listing)
    ensures p in OwnedBy(account, projects) <==> Some(p) in projects && Selected(Some(p), account)
    decreases |projects|
  {
    if projects != [] {
      var n := |projects| - 1;
      OwnedByMembers(account, projects[..n], p);
      assert projects == projects[..n] + [projects[n]];
    }
  }

  /** Every kept project has an owner, the account ignoring case. */
  lemma {:induction false} OwnedByAreOwned(account: string, projects: seq<Option<Listing>>)
    ensures forall k :: 0 <= k < |OwnedBy(account, projects)| ==>
      Truthy(OwnedBy(account, projects)[k].owner) && EqualsIgnoreCase(OwnedBy(account, projects)[k].owner.value, account)
    ensures |OwnedBy(account, projects)| <= |projects|
    decreases |projects|
  {
    if projects != [] {
      OwnedByAreOwned(account, projects[..|projects| - 1]);
    }
  }

  /** The summary cards; funding is in wei. */
  datatype Stats = Stats(totalProjects: nat, totalFunding: nat, avgFunding: real, completedProjects: nat)

  /** `reduce` of `amountRaised || raised || '0'`. */
  function TotalRaised(projects: seq<Listing>): nat {
    if projects == [] then 0 else TotalRaised(projects[..|projects| - 1]) + RaisedOf(projects[|projects| - 1])
  }

  predicate Completed(p: Listing) {
    RaisedOf(p) >= GoalOf(p)
  }

  /** `filter(raised >= goal).length`. */
  function CountCompleted(projects: seq<Listing>): (n: nat)
    ensures n <= |projects|
  {
    if projects == [] then 0
    else CountCompleted(projects[..|projects| - 1]) + (if Completed(projects[|projects| - 1]) then 1 else 0)
  }

  /** The stats record set after filtering. */
  function ComputeStats(projects: seq<Listing>): (s: Stats)
    ensures s.totalProjects == |projects|
    ensures s.completedProjects <= s.totalProjects
    ensures s.totalProjects == 0 ==> s.avgFunding == 0.0 && s.totalFunding == 0 && s.completedProjects == 0
    ensures s.totalProjects > 0 ==> s.avgFunding * s.totalProjects as real == s.totalFunding as real
  {
    var total := TotalRaised(projects);
    Stats(|projects|, total,
          if |projects| > 0 then total as real / |projects| as real else 0.0,
          CountCompleted(projects))
  }

  /** Every project fully funded means every project completed; none with a goal funded means none. */
  lemma {:induction false} CountCompletedBounds(projects: seq<Listing>)
    ensures (forall k :: 0 <= k < |projects| ==> Completed(projects[k])) ==> CountCompleted(projects) == |projects|
    ensures (forall k :: 0 <= k < |projects| ==> !Completed(projects[k])) ==> CountCompleted(projects) == 0
    decreases |projects|
  {
    if projects != [] {
      CountCompletedBounds(projects[..|projects| - 1]);
    }
  }

  /** The total is at most the count times any bound on the amounts. */
  lemma {:induction false} TotalRaisedBound(projects: seq<Listing>, bound: nat)
    requires forall k :: 0 <= k < |projects| ==> RaisedOf(projects[k]) <= bound
    ensures TotalRaised(projects) <= |projects| * bound
    decreases |projects|
  {
    if projects != [] {
      var n := |projects| - 1;
      TotalRaisedBound(projects[..n], bound);
      assert |projects| * bound == n * bound + bound;
    }
  }

  /** The average lies between zero and the largest amount raised. */
  lemma AverageBound(projects: seq<Listing>, bound: nat)
    requires |projects| > 0
    requires forall k :: 0 <= k < |projects| ==> RaisedOf(projects[k]) <= bound
    ensures 0.0 <= ComputeStats(projects).avgFunding <= bound as real
  {
    TotalRaisedBound(projects, bound);
    QuotientBound(TotalRaised(projects) as real, |projects| as real, bound as real);
  }

  /** A non-negative total at most `count * bound`, divided by a positive count, is at most `bound`. */
  lemma QuotientBound(total: real, count: real, bound: real)
    requires count > 0.0 && 0.0 <= total <= count * bound
    ensures 0.0 <= total / count <= bound
  {
    var q := total / count;
    assert q * count == total;
    if q > bound {
      assert q * count > bound * count;
    }
  }

  /** The dashboard's card as shown. */
  datatype CardView = CardView(progress: real, title: string, description: string, owner: string)

  const Untitled := "Untitled Project"
  const UnknownOwner := "Unknown"

  /**
   * The dashboard's `ProjectCard`: progress from the aliased amounts (0 for a zero goal,
   * capped at 100), title and description fallbacks, and the owner (`owner`, else
   * `creator`) shortened, or "Unknown".
   */
  function Card(p: Listing): (c: CardView)
    ensures 0.0 <= c.progress <= 100.0
    ensures GoalOf(p) == 0 ==> c.progress == 0.0
    ensures c.title != [] && (Truthy(p.title) ==> c.title == p.title.value)
    ensures !Truthy(p.title) ==> c.title == Untitled
    ensures Truthy(p.description) ==> c.description == p.description.value
    ensures !Truthy(p.description) ==> c.description == []
    ensures OwnerOf(p) == [] <==> c.owner == UnknownOwner
    ensures OwnerOf(p) != [] ==> c.owner == Address.Shorten(OwnerOf(p))
  {
    var owner := OwnerOf(p);
    var shown := if owner != [] then Address.Shorten(owner) else UnknownOwner;
    assert owner != [] ==> shown[Address.Min(|owner|, 6)] == '.' && '.' !in UnknownOwner;
    CardView(Progress(RaisedOf(p), GoalOf(p)), TextOr(p.title, Untitled), TextOr(p.description, ""), shown)
  }

  class DashboardPage {
    var userProjects: seq<Listing>
    var stats: Stats

    constructor ()
      ensures userProjects == [] && stats == Stats(0, 0, 0.0, 0)
    {
      userProjects, stats := [], Stats(0, 0, 0.0, 0);
    }

    /**
     * The effect on `account` and `projects`: nothing is recomputed unless an account is
     * connected and the list is non-empty; otherwise the user's projects and their
     * stats replace the old ones.
     */
    method Refresh(account: Option<string>, projects: seq<Option<Listing>>)
      modifies this
      ensures !(Truthy(account) && |projects| > 0) ==> userProjects == old(userProjects) && stats == old(stats)
      ensures Truthy(account) && |projects| > 0 ==>
        userProjects == OwnedBy(account.value, projects) && stats == ComputeStats(userProjects)
    {
      if account.Some? && account.value != [] && |projects| > 0 {
        var filtered := FilterUserProjects(account.value, projects);
        userProjects := filtered;
        stats := ComputeStats(filtered);
      }
    }
  }
}
