/**
 * The discover page: every loaded project gets display defaults and a category, then the
 * list is narrowed by category and by a search term and sorted by the chosen key in the
 * chosen direction.
 */
module Discover {
  import opened Wrappers
  import opened Text
  import opened Listing
  import opened ArrayMethods

  const Categories: seq<string> := [
    "All", "Technology", "Art", "Music", "Film", "Games",
    "Publishing", "Food", "Fashion", "Community", "Education", "Environment"]

  const AllCategories := "All"
  const Untitled := "Untitled Project"

  /**
   * `CATEGORIES[Math.floor(Math.random() * CATEGORIES.length)]`, with 'All' replaced by
   * `CATEGORIES[1]`; `pick` is the random index.
   */
  function CategoryFor(pick: nat): (c: string)
    requires pick < |Categories|
    ensures c in Categories && c != AllCategories
    ensures Categories[pick] != AllCategories ==> c == Categories[pick]
    ensures Categories[pick] == AllCategories ==> c == Categories[1]
  {
    var random := Categories[pick];
    if random != AllCategories then random else Categories[1]
  }

  /** One project after `processProjects`: title and description defaults, and its category. */
  function Processed(p: Listing, pick: nat): (q: Listing)
    requires pick < |Categories|
    ensures q.(title := p.title, description := p.description, category := p.category) == p
    ensures q.title.Some? && q.title.value != [] && (Truthy(p.title) ==> q.title == p.title)
    ensures !Truthy(p.title) ==> q.title == Some(Untitled)
    ensures q.description.Some? && (Truthy(p.description) ==> q.description == p.description)
    ensures !Truthy(p.description) ==> q.description == Some([])
    ensures q.category.Some? && q.category.value in Categories && q.category.value != AllCategories
  {
    p.(title := Some(TextOr(p.title, Untitled)),
       description := Some(TextOr(p.description, "")),
       category := Some(CategoryFor(pick)))
  }

  /** `processProjects`: the same projects in the same order, each given defaults and a category. */
  function ProcessProjects(projects: seq<Listing>, picks: seq<nat>): (r: seq<Listing>)
    requires |picks| == |projects| && forall k :: 0 <= k < |picks| ==> picks[k] < |Categories|
    ensures |r| == |projects|
    ensures forall k :: 0 <= k < |r| ==> r[k] == Processed(projects[k], picks[k])
  {
    seq(|projects|, k requires 0 <= k < |projects| => Processed(projects[k], picks[k]))
  }

  /** `project.category === selectedCategory`. */
  function InCategory(category: string): Listing -> bool {
    (p: Listing) => p.category == Some(category)
  }

  /** The title or the description, lower-cased, contains the lower-cased term. */
  predicate MatchesTerm(p: Listing, term: string) {
    || Includes(ToLower(p.title.GetOr([])), ToLower(term))
    || Includes(ToLower(p.description.GetOr([])), ToLower(term))
  }

  function Matching(term: string): Listing -> bool {
    (p: Listing) => MatchesTerm(p, term)
  }

  /** The category filter, applied unless the category is 'All'. */
  function ByCategory(projects: seq<Listing>, category: string): seq<Listing> {
    if category != AllCategories then Filter(projects, InCategory(category)) else projects
  }

  /** The search filter, applied when the term is not empty. */
  function BySearch(projects: seq<Listing>, term: string): seq<Listing> {
    if term != [] then Filter(projects, Matching(term)) else projects
  }

  /**
   * 'All' keeps every project; any other category keeps exactly the projects carrying
   * it, in order.
   */
  lemma ByCategoryKeeps(projects: seq<Listing>, category: string, p: Listing)
    ensures category == AllCategories ==> ByCategory(projects, category) == projects
    ensures category != AllCategories ==>
      (p in ByCategory(projects, category) <==> p in projects && p.category == Some(category))
  {
    if category != AllCategories {
      FilterMembers(projects, InCategory(category), p);
    }
  }

  /**
   * An empty term keeps every project; any other keeps exactly the projects whose title
   * or description, lower-cased, has the lower-cased term at some offset.
   */
  lemma BySearchKeeps(projects: seq<Listing>, term: string, p: Listing)
    ensures term == [] ==> BySearch(projects, term) == projects
    ensures term != [] ==>
      (p in BySearch(projects, term) <==>
        p in projects &&
        ((exists i :: SliceAt(ToLower(p.title.GetOr([])), ToLower(term), i)) ||
         (exists i :: SliceAt(ToLower(p.description.GetOr([])), ToLower(term), i))))
  {
    if term != [] {
      FilterMembers(projects, Matching(term), p);
      IncludesIffOccurs(ToLower(p.title.GetOr([])), ToLower(term));
      IncludesIffOccurs(ToLower(p.description.GetOr([])), ToLower(term));
    }
  }

  /** A search term matches whatever its letter case: the page lower-cases both sides. */
  lemma SearchIgnoresCase(projects: seq<Listing>, term: string, other: string)
    requires EqualsIgnoreCase(term, other) && term != [] && other != []
    ensures BySearch(projects, term) == BySearch(projects, other)
  {
    assert ToLower(term) == ToLower(other);
    FilterAgreeing(projects, Matching(term), Matching(other));
  }

  datatype Direction = Asc | Desc

  /** `prev === 'asc' ? 'desc' : 'asc'`. */
  function Toggle(d: Direction): (r: Direction)
    ensures r != d
  {
    if d == Asc then Desc else Asc
  }

  /** Toggling twice restores the direction. */
  lemma ToggleTwice(d: Direction)
    ensures Toggle(Toggle(d)) == d
  {
  }

  /** `a.fundingGoal || a.goal || '1'`: a missing or zero goal counts as one wei here. */
  function GoalOrOne(p: Listing): (g: nat)
    ensures g >= 1
  {
    AmountOr(p.fundingGoal, AmountOr(p.goal, 1))
  }

  /**
   * The comparator's key for a sort option: the id for 'newest', the amount raised for
   * 'funding', raised over goal for 'progress', and the same key for every project
   * otherwise; 'desc' negates it.
   */
  function SortKey(option: string, direction: Direction): Listing -> real {
    (p: Listing) =>
      var key :=
        if option == "newest" then p.id as real
        else if option == "funding" then RaisedOf(p) as real
        else if option == "progress" then RaisedOf(p) as real / GoalOrOne(p) as real
        else 0.0;
      if direction == Desc then -key else key
  }

  /** The list the page shows for the given projects, random picks and filter settings. */
  function Shown(projects: seq<Listing>, picks: seq<nat>, term: string, category: string, option: string, direction: Direction): seq<Listing>
    requires |picks| == |projects| && forall k :: 0 <= k < |picks| ==> picks[k] < |Categories|
  {
    SortBy(BySearch(ByCategory(ProcessProjects(projects, picks), category), term), SortKey(option, direction))
  }

  /**
   * What the page shows is a reordering of the filtered list, ordered by the option's
   * key: ascending ids for 'newest' with 'asc', descending ids with 'desc'.
   */
  lemma ShownIsOrderedPermutation(projects: seq<Listing>, picks: seq<nat>, term: string, category: string, option: string, direction: Direction)
    requires |picks| == |projects| && forall k :: 0 <= k < |picks| ==> picks[k] < |Categories|
    ensures var filtered := BySearch(ByCategory(ProcessProjects(projects, picks), category), term);
      var shown := Shown(projects, picks, term, category, option, direction);
      && multiset(shown) == multiset(filtered)
      && SortedBy(shown, SortKey(option, direction))
      && (option == "newest" && direction == Asc ==> forall i, j :: 0 <= i < j < |shown| ==> shown[i].id <= shown[j].id)
      && (option == "newest" && direction == Desc ==> forall i, j :: 0 <= i < j < |shown| ==> shown[i].id >= shown[j].id)
  {
    var filtered := BySearch(ByCategory(ProcessProjects(projects, picks), category), term);
    var key := SortKey(option, direction);
    SortByIsSorted(filtered, key);
    var shown := SortBy(filtered, key);
    if option == "newest" {
      forall i, j | 0 <= i < j < |shown| ensures direction == Asc ==> shown[i].id <= shown[j].id
        ensures direction == Desc ==> shown[i].id >= shown[j].id
      {
        assert key(shown[i]) <= key(shown[j]);
      }
    }
  }

  /** An option the comparator does not know leaves the filtered order as it is. */
  lemma UnknownOptionKeepsOrder(projects: seq<Listing>, picks: seq<nat>, term: string, category: string, option: string, direction: Direction)
    requires |picks| == |projects| && forall k :: 0 <= k < |picks| ==> picks[k] < |Categories|
    requires option != "newest" && option != "funding" && option != "progress"
    ensures Shown(projects, picks, term, category, option, direction) ==
      BySearch(ByCategory(ProcessProjects(projects, picks), category), term)
  {
    var filtered := BySearch(ByCategory(ProcessProjects(projects, picks), category), term);
    SortBySortedIsIdentity(filtered, SortKey(option, direction));
  }

  class DiscoverPage {
    var searchTerm: string
    var selectedCategory: string
    var sortOption: string
    var sortDirection: Direction
    var filteredProjects: seq<Listing>

    constructor ()
      ensures searchTerm == [] && selectedCategory == AllCategories && sortOption == "newest"
      ensures sortDirection == Desc && filteredProjects == []
    {
      searchTerm, selectedCategory, sortOption, sortDirection := [], AllCategories, "newest", Desc;
      filteredProjects := [];
    }

    /**
     * The effect: process the projects, narrow `result` by category and by the search
     * term, sort it, and show it.
     */
    method Refresh(projects: seq<Listing>, picks: seq<nat>)
      requires |picks| == |projects| && forall k :: 0 <= k < |picks| ==> picks[k] < |Categories|
      modifies this
      ensures filteredProjects == Shown(projects, picks, searchTerm, selectedCategory, sortOption, sortDirection)
      ensures searchTerm == old(searchTerm) && selectedCategory == old(selectedCategory)
      ensures sortOption == old(sortOption) && sortDirection == old(sortDirection)
    {
      var result := ProcessProjects(projects, picks);
      if selectedCategory != AllCategories {
        result := Filter(result, InCategory(selectedCategory));
      }
      if searchTerm != [] {
        result := Filter(result, Matching(searchTerm));
      }
      result := SortBy(result, SortKey(sortOption, sortDirection));
      filteredProjects := result;
    }

    /** `toggleSortDirection`: 'asc' and 'desc' swap; nothing else changes. */
    method ToggleSortDirection()
      modifies this
      ensures sortDirection == Toggle(old(sortDirection)) && sortDirection != old(sortDirection)
      ensures searchTerm == old(searchTerm) && selectedCategory == old(selectedCategory)
      ensures sortOption == old(sortOption) && filteredProjects == old(filteredProjects)
    {
      sortDirection := if sortDirection == Asc then Desc else Asc;
    }

    /** `clearFilters`: back to no term, 'All', 'newest' and 'desc'. */
    method ClearFilters()
      modifies this
      ensures searchTerm == [] && selectedCategory == AllCategories && sortOption == "newest" && sortDirection == Desc
      ensures filteredProjects == old(filteredProjects)
    {
      searchTerm, selectedCategory, sortOption, sortDirection := [], AllCategories, "newest", Desc;
    }
  }
}
