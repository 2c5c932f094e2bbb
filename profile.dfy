/**
 * The profile page: decoding each contract record into a display record
 * (`processProjectData`), then walking every project index to collect the account's
 * own projects and the donations it made (`loadUserData`).
 */
module Profile {
  import opened Wrappers
  import opened Text
  import opened Codec

  /**
   * The `description` field as read from a record: absent (or falsy), a string, or a
   * truthy value that is not a string, on which `split` throws.
   */
  datatype DescriptionField = Missing | Str(text: string) | NonString

  /** A record as the contract returns it; any field may be missing. Amounts are wei. */
  datatype RawProject = RawProject(
    owner: Option<string>,
    description: DescriptionField,
    fundingGoal: Option<nat>,
    amountRaised: Option<nat>,
    withdrawn: Option<bool>)

  /** The decoded record the page keeps; `goal` and `raised` alias the two amounts. */
  datatype Project = Project(
    id: nat,
    owner: Option<string>,
    title: string,
    description: string,
    fundingGoal: nat,
    amountRaised: nat,
    goal: nat,
    raised: nat,
    withdrawn: bool)

  const Untitled := "Untitled Project"
  const ErrorTitle := "Error Processing Project"
  const ErrorDescription := "There was an error processing this project's data."
  const UnknownOwner := "Unknown"

  /** `amount || "0"`: a missing amount reads as zero. */
  function AmountOrZero(amount: Option<nat>): nat {
    if amount.Some? then amount.value else 0
  }

  /** The record returned from the `catch` branch when decoding throws. */
  function Placeholder(raw: RawProject, id: nat): Project {
    var owner := if raw.owner.Some? && raw.owner.value != [] then raw.owner.value else UnknownOwner;
    Project(id, Some(owner), ErrorTitle, ErrorDescription, 0, 0, 0, 0, false)
  }

  /** The first line of a decoded packed description is one non-blank line. */
  lemma DecodedTitleIsOneLine(packed: string)
    requires DecodePacked(packed).Some?
    ensures !IsBlank(DecodePacked(packed).value.0) && '\n' !in DecodePacked(packed).value.0
  {
    SplitPartsFree(packed, '\n');
    NonBlankSubset(Split(packed, '\n'), '\n');
  }

  /**
   * `processProjectData(project, id)`: the title is decoded from the packed description
   * (or "Untitled Project"), the other fields pass through with their defaults; a
   * description whose `split` throws yields the error placeholder.
   */
  function ProcessProjectData(raw: RawProject, id: nat): (p: Project)
    ensures p.id == id && p.goal == p.fundingGoal && p.raised == p.amountRaised
    ensures !IsBlank(p.title) && '\n' !in p.title
    ensures raw.description.NonString? ==> p == Placeholder(raw, id)
    ensures !raw.description.NonString? ==>
      && p.owner == raw.owner
      && p.fundingGoal == AmountOrZero(raw.fundingGoal)
      && p.amountRaised == AmountOrZero(raw.amountRaised)
      && p.withdrawn == (raw.withdrawn == Some(true))
  {
    if raw.description.NonString? then
      assert !IsSpace(ErrorTitle[0]);
      Placeholder(raw, id)
    else
      var text := if raw.description.Str? then raw.description.text else "";
      var decoded := DecodePacked(text);
      var title := if decoded.Some? then decoded.value.0 else Untitled;
      var body := if decoded.Some? then decoded.value.1 else "";
      assert !IsBlank(title) && '\n' !in title by {
        if decoded.Some? { DecodedTitleIsOneLine(text); } else { assert !IsSpace(Untitled[0]); }
      }
      var goal := AmountOrZero(raw.fundingGoal);
      var raised := AmountOrZero(raw.amountRaised);
      Project(id, raw.owner, title, body, goal, raised, goal, raised, raw.withdrawn.GetOr(false))
  }

  /**
   * The decoded title is the first line of the description that is not blank, kept
   * untrimmed, and the description becomes the later non-blank lines joined with "\n";
   * with exactly one non-blank line that is "".
   */
  lemma ProcessedTitleAndDescription(raw: RawProject, id: nat)
    requires raw.description.Str? && !IsBlank(raw.description.text)
    ensures var lines := Split(raw.description.text, '\n');
      var k := FirstNonBlank(lines);
      var p := ProcessProjectData(raw, id);
      && k < |lines|
      && p.title == lines[k]
      && p.description == Join(NonBlank(lines[k + 1..]), '\n')
      && (|NonBlankLines(raw.description.text)| == 1 ==> p.description == "")
  {
    var text := raw.description.text;
    DecodeNoneIffBlank(text);
    DecodeTitleIsFirstNonBlankLine(text);
  }

  /** No non-blank line at all (including a missing description) gives "Untitled Project" and "". */
  lemma ProcessedBlankIsUntitled(raw: RawProject, id: nat)
    requires raw.description.Missing? || (raw.description.Str? && IsBlank(raw.description.text))
    ensures ProcessProjectData(raw, id).title == Untitled
    ensures ProcessProjectData(raw, id).description == ""
  {
    if raw.description.Str? {
      DecodeNoneIffBlank(raw.description.text);
    } else {
      DecodeNoneIffBlank("");
    }
  }

  /**
   * What the create form stores decodes back on this page: the title it was given,
   * and its description with the blank lines removed.
   */
  lemma ProcessedCreatedProject(raw: RawProject, id: nat, title: string, body: string)
    requires !IsBlank(title) && '\n' !in title
    requires raw.description == Str(Encode(title, body))
    ensures ProcessProjectData(raw, id).title == title
    ensures ProcessProjectData(raw, id).description == Join(NonBlankLines(body), '\n')
  {
    DecodeEncode(title, body);
  }

  /** A lookup that failed, or one that returned the record and the account's donation to it. */
  datatype Fetch = FetchFailed | Fetched(raw: RawProject, donation: Option<int>)

  datatype Donation = Donation(projectId: nat, amount: int, projectTitle: string)

  /** `owner && owner.toLowerCase() === account.toLowerCase()`. */
  predicate OwnedBy(p: Project, account: string) {
    p.owner.Some? && p.owner.value != [] && EqualsIgnoreCase(p.owner.value, account)
  }

  /** The account's projects among the first `|fetches|` indices, in index order. */
  function UserProjects(account: string, fetches: seq<Fetch>): seq<Project>
    decreases |fetches|
  {
    if fetches == [] then []
    else
      var n := |fetches| - 1;
      UserProjects(account, fetches[..n]) + (if OwnedRecord(account, fetches[n], n) then [ProcessProjectData(fetches[n].raw, n)] else [])
  }

  /** The positive donations among the first `|fetches|` indices, in index order. */
  function UserDonations(account: string, fetches: seq<Fetch>): seq<Donation>
    decreases |fetches|
  {
    if fetches == [] then []
    else
      var n := |fetches| - 1;
      UserDonations(account, fetches[..n]) +
        (if fetches[n].Fetched? && fetches[n].donation.Some? && fetches[n].donation.value > 0
         then [Donation(n, fetches[n].donation.value, ProcessProjectData(fetches[n].raw, n).title)]
         else [])
  }

  /** The record read at index `i` decodes to a project of `account`. */
  predicate OwnedRecord(account: string, f: Fetch, i: nat) {
    f.Fetched? && OwnedBy(ProcessProjectData(f.raw, i), account)
  }

  /** Record `i` was read and decodes to a project of `account`. */
  predicate OwnedAt(account: string, fetches: seq<Fetch>, i: int) {
    0 <= i < |fetches| && OwnedRecord(account, fetches[i], i)
  }

  /** Every entry of `myProjects` is the decoded record at its own index, and the account owns it. */
  lemma {:induction false} UserProjectsSound(account: string, fetches: seq<Fetch>)
    ensures forall j :: 0 <= j < |UserProjects(account, fetches)| ==>
      var p := UserProjects(account, fetches)[j];
      OwnedAt(account, fetches, p.id) && p == ProcessProjectData(fetches[p.id].raw, p.id)
    decreases |fetches|
  {
    if fetches != [] {
      var prefix := fetches[..|fetches| - 1];
      UserProjectsSound(account, prefix);
      assert forall i :: 0 <= i < |prefix| ==> fetches[i] == prefix[i];
    }
  }

  /** Every record read and owned by the account is among `myProjects`. */
  lemma {:induction false} UserProjectsComplete(account: string, fetches: seq<Fetch>)
    ensures forall i :: OwnedAt(account, fetches, i) ==> ProcessProjectData(fetches[i].raw, i) in UserProjects(account, fetches)
    decreases |fetches|
  {
    if fetches != [] {
      var prefix := fetches[..|fetches| - 1];
      var n := |prefix|;
      UserProjectsComplete(account, prefix);
      forall i | OwnedAt(account, fetches, i)
        ensures ProcessProjectData(fetches[i].raw, i) in UserProjects(account, fetches)
      {
        if i < n {
          assert fetches[i] == prefix[i];
        }
      }
    }
  }

  /** `myProjects` is in strictly ascending index order. */
  lemma {:induction false} UserProjectsOrdered(account: string, fetches: seq<Fetch>)
    ensures forall j :: 0 <= j < |UserProjects(account, fetches)| ==> UserProjects(account, fetches)[j].id < |fetches|
    ensures forall j, k :: 0 <= j < k < |UserProjects(account, fetches)| ==>
      UserProjects(account, fetches)[j].id < UserProjects(account, fetches)[k].id
    decreases |fetches|
  {
    if fetches != [] {
      UserProjectsOrdered(account, fetches[..|fetches| - 1]);
    }
  }

  /**
   * `myProjects` holds exactly the decoded records owned by the account, in ascending
   * index order; a record whose lookup failed is skipped and no other is affected.
   */
  lemma UserProjectsExactly(account: string, fetches: seq<Fetch>)
    ensures forall j :: 0 <= j < |UserProjects(account, fetches)| ==>
      var p := UserProjects(account, fetches)[j];
      OwnedAt(account, fetches, p.id) && p == ProcessProjectData(fetches[p.id].raw, p.id)
    ensures forall i :: OwnedAt(account, fetches, i) ==> ProcessProjectData(fetches[i].raw, i) in UserProjects(account, fetches)
    ensures forall j, k :: 0 <= j < k < |UserProjects(account, fetches)| ==>
      UserProjects(account, fetches)[j].id < UserProjects(account, fetches)[k].id
  {
    UserProjectsSound(account, fetches);
    UserProjectsComplete(account, fetches);
    UserProjectsOrdered(account, fetches);
  }

  /** Donation entries come in ascending index order, at most one per index. */
  lemma {:induction false} UserDonationsOrdered(account: string, fetches: seq<Fetch>)
    ensures forall j :: 0 <= j < |UserDonations(account, fetches)| ==> UserDonations(account, fetches)[j].projectId < |fetches|
    ensures forall j, k :: 0 <= j < k < |UserDonations(account, fetches)| ==>
      UserDonations(account, fetches)[j].projectId < UserDonations(account, fetches)[k].projectId
    ensures |UserDonations(account, fetches)| <= |fetches|
    decreases |fetches|
  {
    if fetches != [] {
      UserDonationsOrdered(account, fetches[..|fetches| - 1]);
    }
  }

  /** Every donation entry records an index that was read, its positive amount and its decoded title. */
  lemma {:induction false} UserDonationsExactly(account: string, fetches: seq<Fetch>)
    ensures forall j :: 0 <= j < |UserDonations(account, fetches)| ==>
      var d := UserDonations(account, fetches)[j];
      && d.projectId < |fetches| && d.amount > 0
      && fetches[d.projectId].Fetched? && fetches[d.projectId].donation == Some(d.amount)
      && d.projectTitle == ProcessProjectData(fetches[d.projectId].raw, d.projectId).title
    decreases |fetches|
  {
    if fetches != [] {
      var n := |fetches| - 1;
      var prefix := fetches[..n];
      UserDonationsExactly(account, prefix);
      assert forall i :: 0 <= i < n ==> fetches[i] == prefix[i];
    }
  }

  /** Every record read with a positive donation from the account has its donation entry. */
  lemma {:induction false} UserDonationsComplete(account: string, fetches: seq<Fetch>)
    ensures forall i :: 0 <= i < |fetches| && fetches[i].Fetched? && fetches[i].donation.Some? && fetches[i].donation.value > 0 ==>
      Donation(i, fetches[i].donation.value, ProcessProjectData(fetches[i].raw, i).title) in UserDonations(account, fetches)
    decreases |fetches|
  {
    if fetches != [] {
      var prefix := fetches[..|fetches| - 1];
      UserDonationsComplete(account, prefix);
      assert forall i :: 0 <= i < |prefix| ==> fetches[i] == prefix[i];
    }
  }

  /**
   * The `for` loop of `loadUserData`: index by index, keep the decoded record when the
   * account owns it and note a donation when the account gave a positive amount.
   */
  method CollectUserData(account: string, fetches: seq<Fetch>) returns (projects: seq<Project>, donations: seq<Donation>)
    ensures projects == UserProjects(account, fetches)
    ensures donations == UserDonations(account, fetches)
  {
    projects, donations := [], [];
    var i := 0;
    while i < |fetches|
      invariant 0 <= i <= |fetches|
      invariant projects == UserProjects(account, fetches[..i])
      invariant donations == UserDonations(account, fetches[..i])
    {
      assert fetches[..i + 1][..i] == fetches[..i];
      match fetches[i] {
        case FetchFailed =>
        case Fetched(raw, donation) =>
          var p := ProcessProjectData(raw, i);
          if p.owner.Some? && p.owner.value != [] && ToLower(p.owner.value) == ToLower(account) {
            projects := projects + [p];
          }
          if donation.Some? && donation.value > 0 {
            donations := donations + [Donation(i, donation.value, p.title)];
          }
      }
      i := i + 1;
    }
    assert fetches[..i] == fetches;
  }

  /** The ledger as the page sees it: not reachable (no wallet, or a failed read), or one lookup per index. */
  datatype Ledger = Unreachable | Reachable(fetches: seq<Fetch>)

  const LoadError := "Failed to load your profile data. Please try again."

  class ProfilePage {
    var myProjects: seq<Project>
    var myDonations: seq<Donation>
    var isLoading: bool
    var error: Option<string>

    constructor ()
      ensures myProjects == [] && myDonations == [] && isLoading && error == None
    {
      myProjects, myDonations, isLoading, error := [], [], true, None;
    }

    /**
     * `loadUserData`: replaces both lists when the ledger can be read, and otherwise
     * keeps them and reports the load error; loading ends either way.
     */
    method LoadUserData(account: string, ledger: Ledger)
      modifies this
      ensures !isLoading
      ensures ledger.Unreachable? ==>
        error == Some(LoadError) && myProjects == old(myProjects) && myDonations == old(myDonations)
      ensures ledger.Reachable? ==>
        && error == None
        && myProjects == UserProjects(account, ledger.fetches)
        && myDonations == UserDonations(account, ledger.fetches)
    {
      isLoading := true;
      error := None;
      match ledger {
        case Unreachable =>
          error := Some(LoadError);
        case Reachable(fetches) =>
          var projects, donations := CollectUserData(account, fetches);
          myProjects := projects;
          myDonations := donations;
      }
      isLoading := false;
    }

    /** The effect on `account`: load when an account is connected, otherwise stop loading. */
    method AccountChanged(account: Option<string>, ledger: Ledger)
      modifies this
      ensures !isLoading
      ensures (account.None? || account.value == []) ==>
        myProjects == old(myProjects) && myDonations == old(myDonations) && error == old(error)
      ensures account.Some? && account.value != [] && ledger.Unreachable? ==>
        error == Some(LoadError) && myProjects == old(myProjects) && myDonations == old(myDonations)
      ensures account.Some? && account.value != [] && ledger.Reachable? ==>
        && error == None
        && myProjects == UserProjects(account.value, ledger.fetches)
        && myDonations == UserDonations(account.value, ledger.fetches)
    {
      if account.Some? && account.value != [] {
        LoadUserData(account.value, ledger);
      } else {
        isLoading := false;
      }
    }
  }
}
