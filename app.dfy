/**
 * The minimal single-page app: it loads every project record by index into one batch,
 * creates a project from a description and a goal, and shows a withdraw button to the
 * project's owner.
 */
module App {
  import opened Wrappers
  import opened Text

  /** A project record as the contract's `projects(i)` returns it; amounts in wei. */
  datatype Record = Record(owner: string, description: string, fundingGoal: nat, amountRaised: nat, withdrawn: bool)

  /** `{ id: i, ...project }`: the record tagged with its index. */
  datatype Item = Item(id: nat, owner: string, description: string, fundingGoal: nat, amountRaised: nat, withdrawn: bool)

  function Tagged(i: nat, r: Record): (item: Item)
    ensures item.id == i && item.owner == r.owner && item.description == r.description
    ensures item.fundingGoal == r.fundingGoal && item.amountRaised == r.amountRaised && item.withdrawn == r.withdrawn
  {
    Item(i, r.owner, r.description, r.fundingGoal, r.amountRaised, r.withdrawn)
  }

  /**
   * The contract as `loadProjects` sees it: `projectCount()` either throws (`None`) or
   * yields a count, and `projects(i)` either throws or yields a record.
   */
  datatype Ledger = Ledger(count: Option<nat>, records: seq<Option<Record>>)

  /** `contract.projects(i)`: an index past the known records throws. */
  function Fetch(ledger: Ledger, i: nat): Option<Record> {
    if i < |ledger.records| then ledger.records[i] else None
  }

  /** Every index below `count` can be fetched. */
  predicate AllFetchable(ledger: Ledger, count: nat) {
    forall i: nat :: i < count ==> Fetch(ledger, i).Some?
  }

  /**
   * The `for` loop of `loadProjects`: fetch each index in turn and push it tagged with
   * its index; the first fetch that throws abandons the whole batch.
   */
  method AssembleBatch(ledger: Ledger, count: nat) returns (items: Option<seq<Item>>)
    ensures items.Some? <==> AllFetchable(ledger, count)
    ensures items.Some? ==> |items.value| == count
    ensures items.Some? ==> forall i :: 0 <= i < count ==> items.value[i] == Tagged(i, Fetch(ledger, i).value)
  {
    var batch: seq<Item> := [];
    for i := 0 to count
      invariant |batch| == i
      invariant forall j :: 0 <= j < i ==> Fetch(ledger, j).Some? && batch[j] == Tagged(j, Fetch(ledger, j).value)
    {
      var project := Fetch(ledger, i);
      if project.None? {
        return None;
      }
      batch := batch + [Tagged(i, project.value)];
    }
    return Some(batch);
  }

  /** A loaded batch lists every project once, by ascending id starting at zero. */
  lemma BatchIdsAscending(ledger: Ledger, count: nat, items: seq<Item>)
    requires |items| == count
    requires forall i :: 0 <= i < count ==> Fetch(ledger, i).Some? && items[i] == Tagged(i, Fetch(ledger, i).value)
    ensures forall i, j :: 0 <= i < j < |items| ==> items[i].id < items[j].id
    ensures forall i :: 0 <= i < |items| ==> items[i].id == i
  {
    forall i | 0 <= i < |items| ensures items[i].id == i {
      assert items[i] == Tagged(i, Fetch(ledger, i).value);
    }
  }

  /** The Withdraw button's condition as written: `account === proj.owner`, letter case included. */
  predicate WithdrawShownAsWritten(account: Option<string>, item: Item) {
    !item.withdrawn && account == Some(item.owner)
  }

  /**
   * The condition the button evidently intends, as every other page writes it: the
   * connected account is the owner's address, ignoring letter case.
   */
  predicate WithdrawShown(account: Option<string>, item: Item) {
    !item.withdrawn && account.Some? && EqualsIgnoreCase(account.value, item.owner)
  }

  /** Whenever the written condition shows the button, the intended one does too. */
  lemma WithdrawShownAsWrittenIsNarrower(account: Option<string>, item: Item)
    ensures WithdrawShownAsWritten(account, item) ==> WithdrawShown(account, item)
    ensures item.withdrawn ==> !WithdrawShown(account, item) && !WithdrawShownAsWritten(account, item)
    ensures account.None? ==> !WithdrawShown(account, item)
  {
  }

  /**
   * An owner address with an upper-case letter, as the contract returns it in EIP-55
   * mixed case, and the same account lower-cased, as a wallet reports it: the written
   * condition hides the button from the owner, the intended one shows it.
   */
  lemma WithdrawHiddenFromOwner(item: Item)
    requires !item.withdrawn
    requires exists i :: 0 <= i < |item.owner| && 'A' <= item.owner[i] <= 'Z'
    ensures !WithdrawShownAsWritten(Some(ToLower(item.owner)), item)
    ensures WithdrawShown(Some(ToLower(item.owner)), item)
  {
    var i :| 0 <= i < |item.owner| && 'A' <= item.owner[i] <= 'Z';
    assert ToLower(item.owner)[i] != item.owner[i];
    ToLowerIdempotent(item.owner);
  }

  /** The checksummed address from EIP-55's own examples is such an owner. */
  lemma WithdrawHiddenFromChecksummedOwner()
    ensures var item := Item(0, "0x5aAeb6053F3E94C9b9A09f33669435E7Ef1BeAed", "", 1, 1, false);
      !WithdrawShownAsWritten(Some(ToLower(item.owner)), item) && WithdrawShown(Some(ToLower(item.owner)), item)
  {
    var item := Item(0, "0x5aAeb6053F3E94C9b9A09f33669435E7Ef1BeAed", "", 1, 1, false);
    assert 'A' <= item.owner[4] <= 'Z';
    WithdrawHiddenFromOwner(item);
  }

  const FillAllFields := "Please fill all fields"
  const Created := "Project created!"
  const CreateFailed := "Failed to create project."

  /**
   * What happens to a creation: mined, reverted or rejected after it was sent, or
   * refused before sending because the goal is not a decimal amount of ether.
   */
  datatype TxOutcome = Mined | Reverted | BadAmount

  class AppState {
    var projects: seq<Item>
    var description: string
    var goal: string
    /** The `alert` texts, oldest first. */
    var alerts: seq<string>
    /** Every `contract.createProject(description, parseEther(goal))` call sent. */
    var submissions: seq<(string, string)>

    constructor ()
      ensures projects == [] && description == [] && goal == [] && alerts == [] && submissions == []
    {
      projects, description, goal, alerts, submissions := [], [], [], [], [];
    }

    /**
     * `loadProjects`: without a wallet provider, or when the count or any record
     * throws, `projects` stays as it was; otherwise it becomes the tagged batch.
     */
    method LoadProjects(hasProvider: bool, ledger: Ledger)
      modifies this
      ensures description == old(description) && goal == old(goal)
      ensures alerts == old(alerts) && submissions == old(submissions)
      ensures !(hasProvider && ledger.count.Some? && AllFetchable(ledger, ledger.count.value)) ==>
        projects == old(projects)
      ensures hasProvider && ledger.count.Some? && AllFetchable(ledger, ledger.count.value) ==>
        && |projects| == ledger.count.value
        && forall i :: 0 <= i < |projects| ==> projects[i] == Tagged(i, Fetch(ledger, i).value)
    {
      if !hasProvider {
        return;
      }
      if ledger.count.None? {
        return;
      }
      var items := AssembleBatch(ledger, ledger.count.value);
      if items.Some? {
        projects := items.value;
      }
    }

    /**
     * `createProject`: an empty description or goal only raises the fill-in alert.
     * Without a wallet provider, building the provider throws before the `try`, so the
     * handler ends with nothing changed and no alert. Otherwise the call is sent unless
     * the goal cannot be parsed; once it is mined the fields are cleared and the
     * projects reloaded from `ledgerAfter`, and a failure inside the `try` keeps the
     * fields and raises the failure alert. `parseEther` is not modelled: the caller
     * passes `BadAmount` exactly when `goal` is not a decimal amount of ether, and
     * `Mined` or `Reverted` otherwise.
     */
    method CreateProject(outcome: TxOutcome, hasProvider: bool, ledgerAfter: Ledger)
      modifies this
      ensures (old(description) == [] || old(goal) == []) ==>
        && alerts == old(alerts) + [FillAllFields] && submissions == old(submissions)
        && description == old(description) && goal == old(goal) && projects == old(projects)
      ensures old(description) != [] && old(goal) != [] && !hasProvider ==>
        && alerts == old(alerts) && submissions == old(submissions)
        && description == old(description) && goal == old(goal) && projects == old(projects)
      ensures old(description) != [] && old(goal) != [] && hasProvider ==>
        && submissions == old(submissions) + (if outcome == BadAmount then [] else [(old(description), old(goal))])
        && (outcome == Mined ==> alerts == old(alerts) + [Created] && description == [] && goal == [])
        && (outcome != Mined ==>
              alerts == old(alerts) + [CreateFailed] && description == old(description) && goal == old(goal)
              && projects == old(projects))
      ensures old(description) != [] && old(goal) != [] && hasProvider && outcome == Mined ==>
        if ledgerAfter.count.Some? && AllFetchable(ledgerAfter, ledgerAfter.count.value)
        then |projects| == ledgerAfter.count.value
          && forall i :: 0 <= i < |projects| ==> projects[i] == Tagged(i, Fetch(ledgerAfter, i).value)
        else projects == old(projects)
    {
      if description == [] || goal == [] {
        alerts := alerts + [FillAllFields];
        return;
      }
      if !hasProvider {
        return;
      }
      if outcome == BadAmount {
        alerts := alerts + [CreateFailed];
        return;
      }
      submissions := submissions + [(description, goal)];
      if outcome == Reverted {
        alerts := alerts + [CreateFailed];
        return;
      }
      alerts := alerts + [Created];
      description, goal := [], [];
      LoadProjects(hasProvider, ledgerAfter);
    }
  }
}
