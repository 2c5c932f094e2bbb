/**
 * The projects page: a reload when no project is loaded yet, a search over title and
 * description, and six sort orders.
 */
module ProjectsPage {
  import opened Wrappers
  import opened Text
  import opened Listing
  import opened ArrayMethods

  /**
   * `project.title?.toString().toLowerCase().includes(term.toLowerCase())`, and the same
   * for the description; a missing field does not match.
   */
  predicate MatchesTerm(p: Listing, term: string) {
    || (p.title.Some? && Includes(ToLower(p.title.value), ToLower(term)))
    || (p.description.Some? && Includes(ToLower(p.description.value), ToLower(term)))
  }

  function Matching(term: string): Listing -> bool {
    (p: Listing) => MatchesTerm(p, term)
  }

  /** The search filter, applied when the term is not empty. */
  function Searched(projects: seq<Listing>, term: string): (r: seq<Listing>)
    ensures term == [] ==> r == projects
    ensures |r| <= |projects|
  {
    if term != [] then Filter(projects, Matching(term)) else projects
  }

  /**
   * A non-empty term keeps exactly the projects that have a title or a description
   * containing it ignoring case, in their order.
   */
  lemma SearchedKeeps(projects: seq<Listing>, term: string, p: Listing)
    requires term != []
    ensures p in Searched(projects, term) <==>
      p in projects &&
      ((p.title.Some? && exists i :: SliceAt(ToLower(p.title.value), ToLower(term), i)) ||
       (p.description.Some? && exists i :: SliceAt(ToLower(p.description.value), ToLower(term), i)))
    ensures p.title.None? && p.description.None? ==> p !in Searched(projects, term)
  {
    FilterMembers(projects, Matching(term), p);
    if p.title.Some? {
      IncludesIffOccurs(ToLower(p.title.value), ToLower(term));
    }
    if p.description.Some? {
      IncludesIffOccurs(ToLower(p.description.value), ToLower(term));
    }
  }

  /** `Number(p.raised || 0)` and `Number(p.goal || 0)`: only these field names are read. */
  function RaisedOrZero(p: Listing): nat { AmountOr(p.raised, 0) }
  function GoalOrZero(p: Listing): nat { AmountOr(p.goal, 0) }

  function ById(p: Listing): real { p.id as real }
  function ByIdDescending(p: Listing): real { -(p.id as real) }
  function ByRaised(p: Listing): real { RaisedOrZero(p) as real }
  function ByRaisedDescending(p: Listing): real { -(RaisedOrZero(p) as real) }
  function ByGoal(p: Listing): real { GoalOrZero(p) as real }
  function ByGoalDescending(p: Listing): real { -(GoalOrZero(p) as real) }

  /** The sort key for an order the page knows. */
  function KeyFor(order: string): Option<Listing -> real> {
    if order == "newest" then Some(ByIdDescending)
    else if order == "oldest" then Some(ById)
    else if order == "mostFunded" then Some(ByRaisedDescending)
    else if order == "leastFunded" then Some(ByRaised)
    else if order == "goalHighest" then Some(ByGoalDescending)
    else if order == "goalLowest" then Some(ByGoal)
    else None
  }

  /**
   * The `if`/`else if` chain of sorts: a reordering of the list, by descending id for
   * 'newest', ascending id for 'oldest', raised descending and ascending for
   * 'mostFunded' and 'leastFunded', goal descending and ascending for 'goalHighest' and
   * 'goalLowest'; any other order leaves the list as it is.
   */
  function Ordered(projects: seq<Listing>, order: string): (r: seq<Listing>)
    ensures multiset(r) == multiset(projects)
    ensures order == "newest" ==> forall i, j :: 0 <= i < j < |r| ==> r[i].id >= r[j].id
    ensures order == "oldest" ==> forall i, j :: 0 <= i < j < |r| ==> r[i].id <= r[j].id
    ensures order == "mostFunded" ==> forall i, j :: 0 <= i < j < |r| ==> RaisedOrZero(r[i]) >= RaisedOrZero(r[j])
    ensures order == "leastFunded" ==> forall i, j :: 0 <= i < j < |r| ==> RaisedOrZero(r[i]) <= RaisedOrZero(r[j])
    ensures order == "goalHighest" ==> forall i, j :: 0 <= i < j < |r| ==> GoalOrZero(r[i]) >= GoalOrZero(r[j])
    ensures order == "goalLowest" ==> forall i, j :: 0 <= i < j < |r| ==> GoalOrZero(r[i]) <= GoalOrZero(r[j])
    ensures KeyFor(order).None? ==> r == projects
  {
    match KeyFor(order)
    case None => projects
    case Some(key) =>
      SortByIsSorted(projects, key);
      var r := SortBy(projects, key);
      assert forall i, j :: 0 <= i < j < |r| ==> key(r[i]) <= key(r[j]);
      r
  }

  /** Projects tied on the order's key keep the order the search left them in. */
  lemma OrderedIsStable(projects: seq<Listing>, order: string, k: real)
    requires KeyFor(order).Some?
    ensures WithKey(Ordered(projects, order), KeyFor(order).value, k) == WithKey(projects, KeyFor(order).value, k)
  {
    SortByIsStable(projects, KeyFor(order).value, k);
  }

  class Page {
    var searchTerm: string
    var sortOrder: string
    var filteredProjects: seq<Listing>
    var isLoading: bool
    /** How many times `loadBlockchainData` was requested. */
    var reloadRequests: nat

    constructor ()
      ensures searchTerm == [] && sortOrder == "newest" && filteredProjects == []
      ensures !isLoading && reloadRequests == 0
    {
      searchTerm, sortOrder, filteredProjects, isLoading, reloadRequests := [], "newest", [], false, 0;
    }

    /** The effect on `projects`: an empty list starts a reload; anything else does nothing. */
    method ProjectsChanged(projects: seq<Listing>)
      modifies this
      ensures |projects| == 0 ==> isLoading && reloadRequests == old(reloadRequests) + 1
      ensures |projects| > 0 ==> isLoading == old(isLoading) && reloadRequests == old(reloadRequests)
      ensures searchTerm == old(searchTerm) && sortOrder == old(sortOrder) && filteredProjects == old(filteredProjects)
    {
      if |projects| == 0 {
        isLoading := true;
        reloadRequests := reloadRequests + 1;
      }
    }

    /** The reload's `finally`. */
    method ReloadSettled()
      modifies this
      ensures !isLoading && reloadRequests == old(reloadRequests)
      ensures searchTerm == old(searchTerm) && sortOrder == old(sortOrder) && filteredProjects == old(filteredProjects)
    {
      isLoading := false;
    }

    /** The filtering effect: copy, narrow by the search term, sort by the order, show. */
    method Refresh(projects: seq<Listing>)
      modifies this
      ensures filteredProjects == Ordered(Searched(projects, searchTerm), sortOrder)
      ensures searchTerm == old(searchTerm) && sortOrder == old(sortOrder)
      ensures isLoading == old(isLoading) && reloadRequests == old(reloadRequests)
    {
      var filtered := projects;
      if searchTerm != [] {
        filtered := Filter(filtered, Matching(searchTerm));
      }
      filtered := Ordered(filtered, sortOrder);
      filteredProjects := filtered;
    }
  }
}
