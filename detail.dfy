/**
 * The project detail page: the in-place decode of a fetched record, the owner and
 * withdrawal rules, the days-left rule, and the donate and withdraw handlers.
 */
module ProjectDetail {
  import opened Wrappers
  import opened Text
  import opened Codec
  import opened Listing
  import Address
  import Profile

  /**
   * `loadProjectData`'s decode: when the description has a non-blank line, the first
   * one becomes the title unless the record has a title already, and the description is
   * replaced by the other non-blank lines; a missing, empty or blank description leaves
   * the record as it is. (The source re-checks `projectData.description === description`
   * before replacing it; nothing changes it in between, so that test always holds.)
   */
  function DecodeDetail(record: Listing): (r: Listing)
    ensures r.(title := record.title, description := record.description) == record
    ensures Truthy(record.title) ==> r.title == record.title
  {
    if Truthy(record.description) then
      match DecodePacked(record.description.value)
      case Some((title, body)) =>
        record.(title := if Truthy(record.title) then record.title else Some(title), description := Some(body))
      case None => record
    else record
  }

  /**
   * With a non-blank description the detail page decodes as the profile page does: the
   * same title (when the record has none of its own) and the same description.
   */
  lemma DetailAgreesWithProfile(record: Listing, raw: Profile.RawProject, id: nat)
    requires Truthy(record.description) && !IsBlank(record.description.value)
    requires raw.description == Profile.Str(record.description.value)
    ensures var p := Profile.ProcessProjectData(raw, id);
      && DecodeDetail(record).description == Some(p.description)
      && (!Truthy(record.title) ==> DecodeDetail(record).title == Some(p.title))
  {
    DecodeNoneIffBlank(record.description.value);
  }

  /**
   * Unlike the profile page there is no "Untitled Project" fallback: a record with no
   * non-blank description line is kept exactly as fetched.
   */
  lemma DetailBlankUnchanged(record: Listing)
    requires !Truthy(record.description) || IsBlank(record.description.value)
    ensures DecodeDetail(record) == record
  {
    if Truthy(record.description) {
      DecodeNoneIffBlank(record.description.value);
    }
  }

  /** A project created by the form shows the form's title and its non-blank body lines. */
  lemma DetailShowsCreatedProject(record: Listing, title: string, body: string)
    requires !IsBlank(title) && '\n' !in title
    requires record.description == Some(Encode(title, body)) && !Truthy(record.title)
    ensures DecodeDetail(record).title == Some(title)
    ensures DecodeDetail(record).description == Some(Join(NonBlankLines(body), '\n'))
  {
    DecodeEncode(title, body);
  }

  const UnknownAddress := "Unknown"

  /** `formatAddress`: "Unknown" for a missing or empty address, otherwise first six, "...", last four. */
  function FormatAddress(address: Option<string>): (r: string)
    ensures !Truthy(address) <==> r == UnknownAddress
    ensures Truthy(address) ==> r == Address.Shorten(address.value)
  {
    if !Truthy(address) then UnknownAddress
    else
      var a := address.value;
      var r := Address.Shorten(a);
      assert r[Address.Min(|a|, 6)] == '.';
      assert '.' !in UnknownAddress;
      r
  }

  /**
   * `isOwner`: an account is connected, the record names an owner (`owner`, else
   * `creator`), and the two are the same characters up to letter case.
   */
  predicate IsOwner(account: Option<string>, record: Listing) {
    Truthy(account) && OwnerOf(record) != [] && EqualsIgnoreCase(account.value, OwnerOf(record))
  }

  /** Ownership read character by character: equal length, and equal letters ignoring case. */
  lemma IsOwnerByLetters(account: Option<string>, record: Listing)
    ensures IsOwner(account, record) <==>
      && Truthy(account) && OwnerOf(record) != []
      && |account.value| == |OwnerOf(record)|
      && forall i :: 0 <= i < |account.value| ==> LowerChar(account.value[i]) == LowerChar(OwnerOf(record)[i])
  {
    if Truthy(account) && OwnerOf(record) != [] {
      EqualsIgnoreCaseIffLetters(account.value, OwnerOf(record));
    }
  }

  /** An `owner` field hides `creator`; `creator` is consulted only when `owner` is missing or empty. */
  lemma OwnerBeforeCreator(account: Option<string>, record: Listing)
    ensures Truthy(record.owner) ==> (IsOwner(account, record) <==> Truthy(account) && EqualsIgnoreCase(account.value, record.owner.value))
    ensures !Truthy(record.owner) ==> (IsOwner(account, record) <==> Truthy(account) && Truthy(record.creator) && EqualsIgnoreCase(account.value, record.creator.value))
  {
  }

  /** `canWithdraw`: the owner, with at least the goal raised, and not yet withdrawn. */
  predicate CanWithdraw(account: Option<string>, record: Listing) {
    IsOwner(account, record) && RaisedOf(record) >= GoalOf(record) && !record.withdrawn
  }

  /**
   * Withdrawal is offered to the owner of a project that has not been withdrawn exactly
   * when its progress bar is full, or when it has no goal at all.
   */
  lemma CanWithdrawIffFull(account: Option<string>, record: Listing)
    ensures CanWithdraw(account, record) <==>
      && IsOwner(account, record) && !record.withdrawn
      && (GoalOf(record) == 0 || Progress(RaisedOf(record), GoalOf(record)) == 100.0)
  {
  }

  /** `project.daysLeft || 30`: a missing or zero value becomes 30. */
  function DaysLeft(record: Listing): (d: int)
    ensures d != 0
    ensures record.daysLeft.None? || record.daysLeft == Some(0) ==> d == 30
    ensures record.daysLeft.Some? && record.daysLeft.value != 0 ==> d == record.daysLeft.value
  {
    if record.daysLeft.Some? && record.daysLeft.value != 0 then record.daysLeft.value else 30
  }

  /** `daysLeft <= 0`: the project shows "Ended". */
  predicate IsEnded(record: Listing) {
    DaysLeft(record) <= 0
  }

  /** A project ends only when its stored `daysLeft` is negative: zero reads as 30 days left. */
  lemma EndedIffNegative(record: Listing)
    ensures IsEnded(record) <==> record.daysLeft.Some? && record.daysLeft.value < 0
  {
  }

  /** `!donationAmount || parseFloat(donationAmount) <= 0`; `value` is the parse, `None` for NaN. */
  predicate DonationRejected(amount: string, value: Option<real>) {
    amount == [] || (value.Some? && value.value <= 0.0)
  }

  /**
   * The guard lets through every non-empty amount that does not parse (NaN is not
   * `<= 0`), and rejects an amount exactly when it is empty or parses to at most zero.
   */
  lemma DonationGuard(amount: string, value: Option<real>)
    ensures amount != [] && value.None? ==> !DonationRejected(amount, value)
    ensures !DonationRejected(amount, value) <==> amount != [] && (value.None? || value.value > 0.0)
  {
  }

  datatype Status = Succeeded | Errored

  /** What `getProjectDetails` gave: it threw, or it returned a record (or `null`). */
  datatype DetailFetch = LoadFailed | Loaded(data: Option<Listing>)

  const LoadError := "Failed to load project details. Please try again."
  const InvalidAmount := "Please enter a valid donation amount"
  const DonationThanks := "Donation successful! Thank you for your contribution."
  const DonationFailed := "Donation failed. Please try again."
  const WithdrawDone := "Funds withdrawn successfully!"
  const WithdrawFailed := "Withdrawal failed. Please try again."

  class DetailPage {
    const id: string
    var project: Option<Listing>
    var donationAmount: string
    var isLoading: bool
    var error: Option<string>
    var transactionStatus: Option<Status>
    var statusMessage: string
    /** Every `donate(id, amount)` call the page made, in order. */
    var donateCalls: seq<(string, string)>
    /** Every `withdrawFunds(id)` call the page made, in order. */
    var withdrawCalls: seq<string>

    constructor (id: string)
      ensures this.id == id && project.None? && donationAmount == [] && isLoading && error.None?
      ensures transactionStatus.None? && statusMessage == [] && donateCalls == [] && withdrawCalls == []
    {
      this.id := id;
      project, donationAmount, isLoading, error := None, [], true, None;
      transactionStatus, statusMessage, donateCalls, withdrawCalls := None, [], [], [];
    }

    /** `loadProjectData`: keep the decoded record, or report the load error and keep the old one. */
    method LoadProjectData(fetched: DetailFetch)
      modifies this
      ensures !isLoading
      ensures fetched.LoadFailed? ==> error == Some(LoadError) && project == old(project)
      ensures fetched.Loaded? ==>
        error.None? && project == (if fetched.data.Some? then Some(DecodeDetail(fetched.data.value)) else None)
      ensures donationAmount == old(donationAmount) && transactionStatus == old(transactionStatus)
      ensures statusMessage == old(statusMessage)
      ensures donateCalls == old(donateCalls) && withdrawCalls == old(withdrawCalls)
    {
      isLoading := true;
      error := None;
      match fetched {
        case LoadFailed =>
          error := Some(LoadError);
        case Loaded(data) =>
          project := if data.Some? then Some(DecodeDetail(data.value)) else None;
      }
      isLoading := false;
    }

    /**
     * `handleDonate`: a rejected amount sets the error status and calls nothing; an
     * accepted one is passed to `donate` as typed, and on success the field is cleared
     * and the record reloaded, with `loadProjectData`'s effect on the record and error.
     */
    method HandleDonate(value: Option<real>, confirmed: bool, refreshed: DetailFetch)
      modifies this
      ensures DonationRejected(old(donationAmount), value) ==>
        && transactionStatus == Some(Errored) && statusMessage == InvalidAmount
        && donateCalls == old(donateCalls) && project == old(project) && error == old(error)
        && donationAmount == old(donationAmount) && isLoading == old(isLoading)
      ensures !DonationRejected(old(donationAmount), value) ==>
        && donateCalls == old(donateCalls) + [(id, old(donationAmount))]
        && !isLoading
        && (confirmed ==> transactionStatus == Some(Succeeded) && statusMessage == DonationThanks && donationAmount == [])
        && (!confirmed ==>
              transactionStatus == Some(Errored) && statusMessage == DonationFailed &&
              donationAmount == old(donationAmount) && project == old(project) && error == old(error))
      ensures !DonationRejected(old(donationAmount), value) && confirmed && refreshed.LoadFailed? ==>
        error == Some(LoadError) && project == old(project)
      ensures !DonationRejected(old(donationAmount), value) && confirmed && refreshed.Loaded? ==>
        error.None? && project == (if refreshed.data.Some? then Some(DecodeDetail(refreshed.data.value)) else None)
      ensures withdrawCalls == old(withdrawCalls)
    {
      if donationAmount == [] || (value.Some? && value.value <= 0.0) {
        transactionStatus := Some(Errored);
        statusMessage := InvalidAmount;
        return;
      }
      isLoading := true;
      transactionStatus := None;
      donateCalls := donateCalls + [(id, donationAmount)];
      if confirmed {
        donationAmount := [];
        transactionStatus := Some(Succeeded);
        statusMessage := DonationThanks;
        LoadProjectData(refreshed);
      } else {
        transactionStatus := Some(Errored);
        statusMessage := DonationFailed;
      }
      isLoading := false;
    }

    /** `handleWithdraw`: call `withdrawFunds`, report the outcome, reload on success as `loadProjectData` does. */
    method HandleWithdraw(confirmed: bool, refreshed: DetailFetch)
      modifies this
      ensures withdrawCalls == old(withdrawCalls) + [id]
      ensures donateCalls == old(donateCalls) && donationAmount == old(donationAmount)
      ensures !isLoading
      ensures confirmed ==> transactionStatus == Some(Succeeded) && statusMessage == WithdrawDone
      ensures confirmed && refreshed.LoadFailed? ==> error == Some(LoadError) && project == old(project)
      ensures confirmed && refreshed.Loaded? ==>
        error.None? && project == (if refreshed.data.Some? then Some(DecodeDetail(refreshed.data.value)) else None)
      ensures !confirmed ==>
        transactionStatus == Some(Errored) && statusMessage == WithdrawFailed && project == old(project) && error == old(error)
    {
      isLoading := true;
      transactionStatus := None;
      withdrawCalls := withdrawCalls + [id];
      if confirmed {
        transactionStatus := Some(Succeeded);
        statusMessage := WithdrawDone;
        LoadProjectData(refreshed);
      } else {
        transactionStatus := Some(Errored);
        statusMessage := WithdrawFailed;
      }
      isLoading := false;
    }
  }
}
