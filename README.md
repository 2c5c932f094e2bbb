# Community crowdfunding front end, modelled in Dafny

The repository is a React front end for a community crowdfunding contract. A project on
the ledger has an owner, a packed description, a funding goal, an amount raised and a
withdrawn flag. The pages read these records and reshape them for display:

- The create form packs the title and the description into one description string:
  the title, a blank line, then the body. The profile and detail pages unpack it again
  as the first non-blank line and the remaining non-blank lines.
- The profile, dashboard and project list pages pick out the connected account's
  projects, comparing addresses without regard to letter case.
- The discover and projects pages filter and sort the list.
- The cards show a progress bar capped at 100 %, fallback texts and a shortened owner
  address.
- The navigation bar, the notification context and the settings page each keep a
  small piece of state.
- The minimal app assembles the ledger's records into one batch, creates projects and
  decides when to show the withdraw button.

The model follows the source file by file. Code that only computes a value becomes
functions and lemmas. State that a page's handlers update in place becomes a class
with those fields and methods. A value that comes from outside the page is a
parameter of the operation that reads it. That covers ledger reads, transaction
outcomes, `parseFloat` results, random picks and generated ids.

Amounts are wei as natural numbers. A JavaScript `undefined` or missing field is
`None` of `Wrappers.Option`.

Modules:

- `Wrappers`: `Option` and `Result`.
- `Text`: `trim`, ASCII `toLowerCase`, `split`/`join`, `includes` and `substring`,
  with the laws the pages rely on.
- `Address`: shortening to "first six...last four", and case-insensitive identity.
- `Listing`: the loose project record with its aliased field names, and the guarded
  progress percentage.
- `Codec`: the packed description, with its round trips.
- `Ether`: `formatEther`, and the cards' progress guard as written.
- `ArrayMethods`: `filter`, and a stable sort by a key.
- One module per page or component: `Profile`, `ProjectDetail`, `CreateProject`,
  `TempCreateProject`, `Dashboard`, `Discover`, `ProjectsPage`, `ProjectCard`,
  `LegacyCard`, `Navbar`, `Notifications`, `Settings`, `App`.

## Model

| member | source | states |
|---|---|---|
| Text.Trim | frontend/src/pages/CreateProjectPage.js:25-35 | `trim()` gives the empty string exactly for an all-whitespace input. Otherwise it gives a slice of the input that starts and ends with a non-whitespace character, with only whitespace cut on either side. |
| Text.TrimsToEmpty | frontend/src/pages/CreateProjectPage.js:25 | `!s.trim()` holds exactly for a blank string. |
| Text.TrimKeepsAbsent | frontend/src/pages/CreateProjectPage.js:114 | Trimming never introduces a character the input lacks. |
| Text.Includes | frontend/src/pages/ProjectsPage.js:24-27 | `includes(term)`: the term is a prefix of the text or of one of its suffixes. Its meaning is stated by `Text.IncludesIffOccurs`. |
| Text.ToLower | frontend/src/pages/DashboardPage.js:38-39 | `toLowerCase()` keeps the length and maps each ASCII capital to its lower-case letter. Its meaning for comparisons is stated by `Text.EqualsIgnoreCaseIffLetters`. |
| Text.EqualsIgnoreCaseIffLetters | frontend/src/pages/DashboardPage.js:38-41 | Two strings compare equal ignoring case exactly when they have the same length and agree letter by letter after lower-casing. |
| Text.EqualsIgnoreCase | frontend/src/pages/DashboardPage.js:38-41 | `a.toLowerCase() === b.toLowerCase()`. Its meaning, letter by letter in both directions, is stated by `Text.EqualsIgnoreCaseIffLetters`. |
| Text.IncludesIffOccurs | frontend/src/pages/ProjectsPage.js:24-27 | `includes` holds exactly when the needle occurs at some offset of the text. |
| Text.EqualsIgnoreCaseByLetters | frontend/src/pages/ProfilePage.js:113-114 | Strings of the same length whose characters agree after lower-casing compare equal ignoring case. |
| Text.Split | frontend/src/pages/ProfilePage.js:37 | `split(sep)` always gives at least one part, even for the empty string. |
| Text.SplitPartsFree | frontend/src/pages/ProfilePage.js:37 | No part of a split contains the separator. |
| Text.JoinSplit | frontend/src/pages/ProfilePage.js:37-45 | Joining the parts of a split with the same separator gives the original string back. |
| Text.SplitJoin | frontend/src/pages/ProfilePage.js:45 | Splitting a join of separator-free parts gives the parts back. |
| Text.SplitAround | frontend/src/pages/CreateProjectPage.js:69 | Splitting `a + sep + b` gives the parts of `a` followed by the parts of `b`. |
| Text.SplitHeadIsPrefix | frontend/src/pages/CreateProjectPage.js:114 | The first part of a split is a prefix of the string that contains no separator. |
| Text.Substring | frontend/src/pages/ProjectDetailPage.js:170 | `substring(start, end)` clamps both indices into the string and swaps them when out of order. In range it is the slice between them; both below zero, or both at or past the end, give "". |
| Text.Join | frontend/src/pages/ProfilePage.js:45 | `join(sep)`: the parts with one separator between neighbours. Its meaning is stated by `Text.JoinSplit` and `Text.SplitJoin`. |
| Address.Shorten | frontend/src/pages/ProjectDetailPage.js:168-171 | The result is the first six characters, then "...", then the last four. A shorter address gives what it has to each side. |
| Address.ShortenStandardAddress | frontend/src/components/Navbar.js:31 | A 42-character address shortens to 13 characters: `a[..6] + "..." + a[38..]`. |
| Address.ShortenAtFixedOffset | ProjectCard.js:15-17 | The result is the first six characters, "...", then the characters from index 38 on, or nothing when the address is shorter. |
| Address.FixedOffsetAgreesOnStandardAddress | ProjectCard.js:16 | The fixed offset agrees with "last four" for a 42-character address. It does not for others: a 50-character address gives 21 characters instead of 13. |
| Listing.GoalOf | frontend/src/components/ProjectCard.js:11 | `fundingGoal \|\| goal \|\| "0"`: the goal is zero exactly when both fields are missing or zero. Otherwise it is one of the two fields. |
| Listing.RaisedOf | frontend/src/components/ProjectCard.js:12 | `amountRaised \|\| raised \|\| "0"`, with the same two cases. |
| Listing.OwnerOf | frontend/src/components/ProjectCard.js:22 | `owner \|\| creator \|\| ""`: empty exactly when neither field is truthy. Otherwise it is one of them. |
| Listing.Truthy | frontend/src/components/ProjectCard.js:18-22 | A string field is truthy when present and non-empty. What a fallback on it gives is stated by `Listing.OwnerOf`. |
| Listing.TextOr | frontend/src/components/ProjectCard.js:22 | `field \|\| fallback` on a string. `Listing.OwnerOf` states its meaning: the field when it is truthy, otherwise the fallback. |
| Listing.AmountOr | frontend/src/components/ProjectCard.js:11-12 | `field \|\| fallback` on an amount, where a missing amount and zero are both falsy. `Listing.GoalOf` and `Listing.RaisedOf` state its meaning: zero exactly when both fields are missing or zero, otherwise one of them. |
| Listing.Progress | frontend/src/pages/ProjectDetailPage.js:160-162 | The percentage lies in 0..100. It is 0 for a zero goal. For a positive goal it is 100 exactly when the amount raised reaches the goal. |
| Listing.ProgressMonotone | frontend/src/pages/ProjectDetailPage.js:162 | Raising more never shows less progress. |
| Codec.Encode | frontend/src/pages/CreateProjectPage.js:69 | The lines of `title + "\n\n" + body` are the title's lines, one empty line, then the body's lines. |
| Codec.NonBlank | frontend/src/pages/ProfilePage.js:37 | `filter(line => line.trim())` keeps only non-blank lines and never adds any. |
| Codec.FirstNonBlank | frontend/src/pages/ProfilePage.js:39-41 | The index of the first non-blank line; every line before it is blank. |
| Codec.NonBlankConcat | frontend/src/pages/ProfilePage.js:37 | Filtering blank lines works piece by piece. |
| Codec.NonBlankKeepsNonBlank | frontend/src/pages/ProfilePage.js:37 | A list with no blank line is kept whole. |
| Codec.NonBlankFromFirst | frontend/src/pages/ProfilePage.js:37-45 | The filtered lines begin at the first non-blank line. |
| Codec.DecodePacked | frontend/src/pages/ProfilePage.js:37-48 | The unpacking of a packed description into a title and a body. What it yields is stated by `Codec.DecodeTitleIsFirstNonBlankLine`, `Codec.DecodeNoneIffBlank` and the round trips below. |
| Codec.DecodeTitleIsFirstNonBlankLine | frontend/src/pages/ProfilePage.js:39-48 | A decoded title is the first non-blank line of the packed text. The decoded body is the later non-blank lines, joined by newlines. |
| Codec.DecodeNoneIffBlank | frontend/src/pages/ProfilePage.js:39-52 | Decoding finds no title exactly when the packed text is blank. |
| Codec.DecodeEncode | frontend/src/pages/ProfilePage.js:37-48 | Packing a one-line, non-blank title with a body, then unpacking, gives the title and the body's non-blank lines. |
| Codec.DecodeEncodeExact | frontend/src/pages/ProfilePage.js:37-48 | When the body has no blank line the round trip is exact. |
| Codec.DecodeIsStable | frontend/src/pages/ProjectDetailPage.js:27-44 | Packing a decoded pair and decoding it again gives the same pair. |
| Codec.NonBlankSubset | frontend/src/pages/ProfilePage.js:37 | Filtering keeps lines free of a character if they were free of it. |
| Ether.FormatEther | frontend/src/components/ProjectCard.js:11-12 | `formatEther` gives the whole ethers, a ".", then at least one fractional digit. |
| Ether.FormatEtherZero | frontend/src/components/ProjectCard.js:11 | Zero wei formats as "0.0". |
| Ether.FormatEtherIsNeverBareZero | frontend/src/components/ProjectCard.js:13 | No amount formats as "0". |
| Ether.CardProgressAsWritten | frontend/src/components/ProjectCard.js:11-15 | The cards' progress exactly as written, with the `formatEther(goal) === "0"` guard and the NaN and Infinity of a zero divisor. Its behaviour is stated by `Ether.CardProgressAgreesAboveZero` and `Ether.CardProgressOnZeroGoal`. |
| Ether.CardProgressAgreesAboveZero | frontend/src/pages/DashboardPage.js:192-196 | With a positive goal, the written guard gives exactly `Listing.Progress`. |
| Ether.CardProgressOnZeroGoal | frontend/src/pages/DashboardPage.js:192-196 | With a zero goal, the written guard gives NaN (nothing raised) or 100 (something raised), where `Progress` gives 0. |
| ArrayMethods.Filter | frontend/src/pages/DiscoverPage.js:64-75 | A filter never lengthens the list. |
| ArrayMethods.FilterMembers | frontend/src/pages/DiscoverPage.js:64-75 | An element survives a filter exactly when it was in the list and passes the test. |
| ArrayMethods.FilterConcat | frontend/src/context/NotificationContext.js:24 | Filtering a concatenation filters each part. |
| ArrayMethods.FilterAgreeing | frontend/src/pages/DiscoverPage.js:69-74 | Two tests that agree on every element filter alike. |
| ArrayMethods.FilterKeepsAll | frontend/src/context/NotificationContext.js:24 | A test every element passes keeps the list whole. |
| ArrayMethods.SortBy | frontend/src/pages/DiscoverPage.js:78-108 | Sorting by a key keeps the same elements with the same multiplicities. |
| ArrayMethods.SortByIsSorted | frontend/src/pages/DiscoverPage.js:78-108 | The sorted list is in ascending key order. |
| ArrayMethods.SortByIsStable | frontend/src/pages/DiscoverPage.js:78-108 | Elements with equal keys keep their relative order. |
| ArrayMethods.SortBySortedIsIdentity | frontend/src/pages/DiscoverPage.js:103-104 | A list already in key order is left as it is. |
| Profile.ProcessProjectData | frontend/src/pages/ProfilePage.js:21-69 | The id is kept, `goal`/`raised` mirror `fundingGoal`/`amountRaised`, and the title is non-blank with no newline. A non-string description gives the error placeholder. Otherwise owner, amounts and withdrawn flag pass through. |
| Profile.Placeholder | frontend/src/pages/ProfilePage.js:56-67 | The record returned by the `catch` branch: the owner or "Unknown", the error title and description, zero amounts, not withdrawn. `Profile.ProcessProjectData` states that a description whose `split` throws yields exactly this record. |
| Profile.DecodedTitleIsOneLine | frontend/src/pages/ProfilePage.js:39-41 | A decoded title is a single non-blank line. |
| Profile.ProcessedTitleAndDescription | frontend/src/pages/ProfilePage.js:36-48 | For a non-blank description, the title is the first non-blank line and the description is the rest joined. |
| Profile.ProcessedBlankIsUntitled | frontend/src/pages/ProfilePage.js:49-52 | A missing or blank description gives "Untitled Project" and "". |
| Profile.ProcessedCreatedProject | frontend/src/pages/ProfilePage.js:36-48 | A project packed by the create form shows its own title and its body's non-blank lines. |
| Profile.UserProjects | frontend/src/pages/ProfilePage.js:98-117 | The projects the loop keeps, index by index. What it holds is stated by the `UserProjects` lemmas below. |
| Profile.UserDonations | frontend/src/pages/ProfilePage.js:119-133 | The donation entries the loop records, index by index. What it holds is stated by the `UserDonations` lemmas below. |
| Profile.OwnedBy | frontend/src/pages/ProfilePage.js:113-114 | The owner is set, non-empty and equal to the account ignoring case. `Profile.UserProjectsExactly` and `Profile.UserProjectsComplete` state that the user's projects are exactly the records passing this test. |
| Profile.UserProjectsExactly | frontend/src/pages/ProfilePage.js:98-117 | The user's projects are exactly the fetched records whose owner equals the account ignoring case, in ascending id order. |
| Profile.UserProjectsSound | frontend/src/pages/ProfilePage.js:110-117 | Every kept project is the decoded record at its own index, and its owner equals the account ignoring case. |
| Profile.UserProjectsComplete | frontend/src/pages/ProfilePage.js:98-117 | Every fetched record whose owner equals the account ignoring case is kept. |
| Profile.UserProjectsOrdered | frontend/src/pages/ProfilePage.js:98-117 | Kept projects come in strictly ascending index order. |
| Profile.UserDonationsExactly | frontend/src/pages/ProfilePage.js:119-133 | Each donation entry comes from a fetched record with a positive donation and carries that record's index, amount and processed title. |
| Profile.UserDonationsComplete | frontend/src/pages/ProfilePage.js:98-136 | Every record that was read and carries a positive donation from the account has its entry, with its index, amount and processed title. A failed read skips only its own record. |
| Profile.UserDonationsOrdered | frontend/src/pages/ProfilePage.js:98-136 | Donation entries come in strictly ascending index order, at most one per record. |
| Profile.CollectUserData | frontend/src/pages/ProfilePage.js:98-137 | The loop collects exactly the user's projects and donations, skipping records whose fetch failed. |
| Profile.ProfilePage.constructor | frontend/src/pages/ProfilePage.js:10-15 | Empty lists, loading, no error. |
| Profile.ProfilePage.LoadUserData | frontend/src/pages/ProfilePage.js:72-147 | An unreachable ledger sets the load error and keeps the lists. A reachable one replaces both lists with the collected data. Either way loading ends. |
| Profile.ProfilePage.AccountChanged | frontend/src/pages/ProfilePage.js:150-156 | Without an account only loading ends. With one the data are reloaded: an unreachable ledger sets the load error and keeps both lists, a reachable one replaces both lists with the collected projects and donations. |
| ProjectDetail.DecodeDetail | frontend/src/pages/ProjectDetailPage.js:27-44 | Only the title and description change, and an existing title is kept. |
| ProjectDetail.DetailAgreesWithProfile | frontend/src/pages/ProjectDetailPage.js:27-44 | The detail page unpacks a description as the profile page does. |
| ProjectDetail.DetailBlankUnchanged | frontend/src/pages/ProjectDetailPage.js:27 | A record with a missing or blank description is shown as loaded. |
| ProjectDetail.DetailShowsCreatedProject | frontend/src/pages/ProjectDetailPage.js:31-42 | A record packed by the create form shows the form's title and body. |
| ProjectDetail.FormatAddress | frontend/src/pages/ProjectDetailPage.js:168-171 | "Unknown" exactly for a missing or empty address. Otherwise the shortened address. |
| ProjectDetail.IsOwner | frontend/src/pages/ProjectDetailPage.js:175-176 | `isOwner`: an account is connected, the record names an owner (`owner`, else `creator`), and the two are equal ignoring case. Stated letter by letter by `ProjectDetail.IsOwnerByLetters`. |
| ProjectDetail.IsOwnerByLetters | frontend/src/pages/ProjectDetailPage.js:175-176 | The viewer owns the project exactly when the account and the owner (else the creator) agree letter by letter ignoring case. |
| ProjectDetail.OwnerBeforeCreator | frontend/src/pages/ProjectDetailPage.js:175 | The creator is consulted only when there is no owner. |
| ProjectDetail.CanWithdraw | frontend/src/pages/ProjectDetailPage.js:177 | `canWithdraw`: the owner, at least the goal raised, not withdrawn. Related to the progress bar by `ProjectDetail.CanWithdrawIffFull`. |
| ProjectDetail.CanWithdrawIffFull | frontend/src/pages/ProjectDetailPage.js:177 | Withdrawal is offered exactly to the owner of a project that is not withdrawn and whose progress is full, or whose goal is zero. |
| ProjectDetail.DaysLeft | frontend/src/pages/ProjectDetailPage.js:180 | `daysLeft \|\| 30`: never zero. A missing or zero value gives 30. |
| ProjectDetail.IsEnded | frontend/src/pages/ProjectDetailPage.js:181-182 | `daysLeft <= 0` after the fallback to 30. Stated in terms of the stored value by `ProjectDetail.EndedIffNegative`. |
| ProjectDetail.EndedIffNegative | frontend/src/pages/ProjectDetailPage.js:181-182 | The project shows as ended exactly when it carries a negative day count. |
| ProjectDetail.DonationRejected | frontend/src/pages/ProjectDetailPage.js:61 | The donate guard: an empty amount, or one that parses to at most zero. Stated both ways by `ProjectDetail.DonationGuard`. |
| ProjectDetail.DonationGuard | frontend/src/pages/ProjectDetailPage.js:61 | A donation passes the guard exactly when the amount is non-empty and is not a number at most zero. NaN passes. |
| ProjectDetail.DetailPage.constructor | frontend/src/pages/ProjectDetailPage.js:8-18 | No project, loading, no status and no calls. |
| ProjectDetail.DetailPage.LoadProjectData | frontend/src/pages/ProjectDetailPage.js:20-53 | A failed load sets the error and keeps the project. A successful one shows the decoded record. Loading ends either way. |
| ProjectDetail.DetailPage.HandleDonate | frontend/src/pages/ProjectDetailPage.js:59-82 | A rejected amount only sets the error status, keeping the project and the page error. Otherwise one donate call is made. Success clears the amount and reloads: a failed reload sets the load error and keeps the project, a good one clears the error and shows the decoded record. Failure sets the error status and keeps the amount, the project and the page error. |
| ProjectDetail.DetailPage.HandleWithdraw | frontend/src/pages/ProjectDetailPage.js:84-99 | One withdraw call. Success sets the success status and reloads: a failed reload sets the load error and keeps the project, a good one clears the error and shows the decoded record. Failure sets the error status and keeps the project and the page error. |
| CreateProject.ValidateForm | frontend/src/pages/CreateProjectPage.js:22-45 | The map it builds is exactly `FormErrors` of the fields. The form is valid exactly when that map is empty, and exactly when it is `Acceptable`. |
| CreateProject.FormErrors | frontend/src/pages/CreateProjectPage.js:22-43 | Each field is in error exactly under its source condition, with the source's message: "required" for a blank title or description or an empty goal, otherwise the length or amount message. The map is empty exactly when the form is `Acceptable`. |
| CreateProject.NonNumericGoalPasses | frontend/src/pages/CreateProjectPage.js:39 | A goal that does not parse as a number passes validation. |
| CreateProject.FullDescription | frontend/src/pages/CreateProjectPage.js:69 | The packed text has the title, two newlines and the body. Its lines are the title's, one empty line, then the body's. |
| CreateProject.SubmittedTitleDecodes | frontend/src/pages/CreateProjectPage.js:69 | A valid one-line title comes back as the title when the profile page decodes the packed text. |
| CreateProject.ShapeErrorMessage | frontend/src/pages/CreateProjectPage.js:109-115 | No message gives the default failure. A message containing "UNSUPPORTED_OPERATION" gives the network hint. |
| CreateProject.ShapedMessageIsTrimmedHead | frontend/src/pages/CreateProjectPage.js:113-114 | Any other message becomes the trimmed text before its first "(". It has no "(" and no surrounding whitespace, and is empty exactly when only whitespace precedes the "(". |
| CreateProject.Page.constructor | frontend/src/pages/CreateProjectPage.js:11-20 | An empty form, no errors and nothing submitted. |
| CreateProject.Page.CreateProject | frontend/src/pages/CreateProjectPage.js:47-122 | Without an account only the wallet error is set. Otherwise the field errors become exactly `FormErrors` of the form as it was. An invalid form changes nothing else. A valid one is sent; success reloads, toasts and clears the form, and failure keeps the form and shows the shaped message. |
| CreateProject.Page.Submit | frontend/src/pages/CreateProjectPage.js:59-121 | The sending part of `createProject`, per outcome. |
| TempCreateProject.Page.constructor | temp/CreateProjectPage.js:10-18 | An empty form, no errors and nothing submitted. |
| TempCreateProject.Page.CreateProject | temp/CreateProjectPage.js:45-101 | The same as the current form: the field errors become exactly `FormErrors` of the form, and an invalid form changes nothing else. A valid form is sent without the reload and with the "Redirecting to projects page" toast. |
| Dashboard.Selected | frontend/src/pages/DashboardPage.js:31-45 | An entry is kept when it is present, has an owner, and its owner equals the account ignoring case. |
| Dashboard.OwnedBy | frontend/src/pages/DashboardPage.js:28-51 | The selected entries in list order. What it holds is stated by `Dashboard.OwnedByMembers`, `Dashboard.OwnedByConcat` and `Dashboard.OwnedByAreOwned`. |
| Dashboard.FilterUserProjects | frontend/src/pages/DashboardPage.js:28-51 | The loop keeps exactly the selected entries, in order. |
| Dashboard.OwnedByConcat | frontend/src/pages/DashboardPage.js:30-51 | Selection works piece by piece. |
| Dashboard.OwnedByMembers | frontend/src/pages/DashboardPage.js:30-51 | A project is kept exactly when some entry holds it and its owner equals the account ignoring case. |
| Dashboard.OwnedByAreOwned | frontend/src/pages/DashboardPage.js:31-44 | Every kept project has an owner matching the account. There are never more kept projects than entries. |
| Dashboard.TotalRaised | frontend/src/pages/DashboardPage.js:57-63 | The sum of the amounts raised, `amountRaised` else `raised`. Bounded by `Dashboard.TotalRaisedBound`. |
| Dashboard.Completed | frontend/src/pages/DashboardPage.js:65-70 | A project is completed when it has raised at least its goal. |
| Dashboard.CountCompleted | frontend/src/pages/DashboardPage.js:65-70 | The count of fully funded projects is at most the count of projects. |
| Dashboard.ComputeStats | frontend/src/pages/DashboardPage.js:57-78 | `totalProjects` is the list length and `completedProjects` is at most that. The average times the count is the total. An empty list gives zeros. |
| Dashboard.CountCompletedBounds | frontend/src/pages/DashboardPage.js:65-70 | All projects funded gives the full count; none funded gives zero. |
| Dashboard.TotalRaisedBound | frontend/src/pages/DashboardPage.js:57-63 | The total is at most the count times any bound on the amounts. |
| Dashboard.AverageBound | frontend/src/pages/DashboardPage.js:73-76 | The average lies between zero and the largest amount. |
| Dashboard.Card | frontend/src/pages/DashboardPage.js:191-206 | Progress lies in 0..100 and is 0 for a zero goal. A set title is shown as is, otherwise "Untitled Project". A set description is shown as is, otherwise "". The owner is shortened, or "Unknown" exactly when neither `owner` nor `creator` is set. |
| Dashboard.DashboardPage.constructor | frontend/src/pages/DashboardPage.js:8-15 | No projects, zero stats. |
| Dashboard.DashboardPage.Refresh | frontend/src/pages/DashboardPage.js:17-80 | Without an account or projects nothing changes. Otherwise the user's projects and their stats are replaced. |
| Discover.CategoryFor | frontend/src/pages/DiscoverPage.js:43-44 | The assigned category is the picked one, or "Technology" when the pick is "All". It is always one of the list's and never "All". |
| Discover.Processed | frontend/src/pages/DiscoverPage.js:35-53 | Only title, description and category change. A set title and description are kept; otherwise they become "Untitled Project" and "". The category is a real one, never "All". |
| Discover.ProcessProjects | frontend/src/pages/DiscoverPage.js:32-55 | The same projects in the same order, each processed. |
| Discover.ByCategory | frontend/src/pages/DiscoverPage.js:63-66 | The category filter. What it keeps is stated by `Discover.ByCategoryKeeps`. |
| Discover.BySearch | frontend/src/pages/DiscoverPage.js:68-75 | The search filter. What it keeps is stated by `Discover.BySearchKeeps`. |
| Discover.InCategory | frontend/src/pages/DiscoverPage.js:64-66 | `project.category === selectedCategory`. `Discover.ByCategoryKeeps` states what the category filter built on it keeps. |
| Discover.MatchesTerm | frontend/src/pages/DiscoverPage.js:69-73 | The lower-cased title or description includes the lower-cased term. `Discover.BySearchKeeps` states it as an occurrence at some offset, in both directions. |
| Discover.ByCategoryKeeps | frontend/src/pages/DiscoverPage.js:64-66 | "All" keeps every project. Any other category keeps exactly the projects carrying it. |
| Discover.BySearchKeeps | frontend/src/pages/DiscoverPage.js:69-75 | An empty term keeps everything. Any other keeps exactly the projects whose lower-cased title or description contains the lower-cased term. |
| Discover.SearchIgnoresCase | frontend/src/pages/DiscoverPage.js:70-73 | Terms equal ignoring case select the same projects. |
| Discover.Toggle | frontend/src/pages/DiscoverPage.js:114 | Toggling changes the direction. |
| Discover.ToggleTwice | frontend/src/pages/DiscoverPage.js:113-115 | Toggling twice restores it. |
| Discover.SortKey | frontend/src/pages/DiscoverPage.js:77-108 | The comparator as a key: the id, the amount raised or raised over goal, negated for "desc", and the same for every project under another option. Its orders are stated by `Discover.ShownIsOrderedPermutation`. |
| Discover.Shown | frontend/src/pages/DiscoverPage.js:59-111 | The list shown: processed, filtered by category, then by search, then sorted. Stated by `Discover.ShownIsOrderedPermutation` and `Discover.UnknownOptionKeepsOrder`. |
| Discover.GoalOrOne | frontend/src/pages/DiscoverPage.js:95-97 | The progress sort's goal is never zero. |
| Discover.ShownIsOrderedPermutation | frontend/src/pages/DiscoverPage.js:57-111 | The shown list is a reordering of the filtered list, in the option's key order, with ids ascending for "newest"/"asc" and descending for "newest"/"desc". |
| Discover.UnknownOptionKeepsOrder | frontend/src/pages/DiscoverPage.js:103-104 | An unknown sort option leaves the filtered order as it is. |
| Discover.DiscoverPage.constructor | frontend/src/pages/DiscoverPage.js:22-28 | No term, "All", "newest", "desc". |
| Discover.DiscoverPage.Refresh | frontend/src/pages/DiscoverPage.js:57-111 | The shown list is process, filter, search, then sort. |
| Discover.DiscoverPage.ToggleSortDirection | frontend/src/pages/DiscoverPage.js:113-115 | Only the direction flips. |
| Discover.DiscoverPage.ClearFilters | frontend/src/pages/DiscoverPage.js:117-122 | The filters return to their initial values. |
| ProjectsPage.MatchesTerm | frontend/src/pages/ProjectsPage.js:24-27 | A project matches when its title or description, lower-cased, includes the lower-cased term. A missing field does not match. |
| ProjectsPage.Searched | frontend/src/pages/ProjectsPage.js:23-28 | An empty term keeps the list, and searching never lengthens it. |
| ProjectsPage.SearchedKeeps | frontend/src/pages/ProjectsPage.js:23-28 | A term keeps exactly the projects with a title or description containing it ignoring case. A project with neither field is dropped. |
| ProjectsPage.KeyFor | frontend/src/pages/ProjectsPage.js:31-44 | The sort key of each of the six known orders, and none for another. Its orders are stated by `ProjectsPage.Ordered`. |
| ProjectsPage.RaisedOrZero | frontend/src/pages/ProjectsPage.js:37-39 | `Number(p.raised \|\| 0)`: only `raised` is read. `ProjectsPage.Ordered` states the two funding orders by it. |
| ProjectsPage.GoalOrZero | frontend/src/pages/ProjectsPage.js:41-43 | `Number(p.goal \|\| 0)`: only `goal` is read. `ProjectsPage.Ordered` states the two goal orders by it. |
| ProjectsPage.ById | frontend/src/pages/ProjectsPage.js:35 | The key of "oldest": ascending id. `ProjectsPage.Ordered` states the resulting order. |
| ProjectsPage.ByIdDescending | frontend/src/pages/ProjectsPage.js:33 | The key of "newest": descending id. `ProjectsPage.Ordered` states the resulting order. |
| ProjectsPage.ByRaised | frontend/src/pages/ProjectsPage.js:39 | The key of "leastFunded": ascending raised amount. `ProjectsPage.Ordered` states the resulting order. |
| ProjectsPage.ByRaisedDescending | frontend/src/pages/ProjectsPage.js:37 | The key of "mostFunded": descending raised amount. `ProjectsPage.Ordered` states the resulting order. |
| ProjectsPage.ByGoal | frontend/src/pages/ProjectsPage.js:43 | The key of "goalLowest": ascending goal. `ProjectsPage.Ordered` states the resulting order. |
| ProjectsPage.ByGoalDescending | frontend/src/pages/ProjectsPage.js:41 | The key of "goalHighest": descending goal. `ProjectsPage.Ordered` states the resulting order. |
| ProjectsPage.Ordered | frontend/src/pages/ProjectsPage.js:30-44 | Each of the six orders is a reordering sorted by its key: id, `raised` or `goal`, ascending or descending. Any other order leaves the list as it is. |
| ProjectsPage.OrderedIsStable | frontend/src/pages/ProjectsPage.js:30-44 | Projects tied on the key keep their order. |
| ProjectsPage.Page.constructor | frontend/src/pages/ProjectsPage.js:7-10 | No term, "newest", nothing shown, not loading. |
| ProjectsPage.Page.ProjectsChanged | frontend/src/pages/ProjectsPage.js:12-17 | An empty list starts one reload and sets loading. Otherwise nothing changes. |
| ProjectsPage.Page.ReloadSettled | frontend/src/pages/ProjectsPage.js:15 | Loading ends. |
| ProjectsPage.Page.Refresh | frontend/src/pages/ProjectsPage.js:19-47 | The shown list is the search followed by the order. |
| ProjectCard.Card | frontend/src/components/ProjectCard.js:10-25 | Progress lies in 0..100: 0 for a zero goal, and full exactly when the goal is reached. "Untitled Project" and "No description" are the fallbacks. The owner is shortened, or "Unknown" exactly when neither `owner` nor `creator` is set. |
| ProjectCard.ProgressAsWritten | frontend/src/components/ProjectCard.js:11-15 | With a positive goal the written guard gives the card's progress. With a zero goal it does not. |
| ProjectCard.AgreesWithDashboardCard | frontend/src/components/ProjectCard.js:18-25 | The same progress, title and owner as the dashboard's card. Only the description fallback differs. |
| LegacyCard.GoalOrZero | ProjectCard.js:8 | The goal is read from `goal` only. |
| LegacyCard.RaisedOrZero | ProjectCard.js:9 | The amount raised is read from `raised` only. |
| LegacyCard.Card | ProjectCard.js:8-41 | Progress comes from `goal`/`raised` and lies in 0..100. "Untitled" and "No description" are the fallbacks. The creator is shortened at the fixed offset, or "Unknown" exactly when absent. |
| LegacyCard.AlternateNamesIgnored | ProjectCard.js:8-17 | `fundingGoal`, `amountRaised` and `owner` do not affect the card. |
| LegacyCard.CreatorOnStandardAddress | ProjectCard.js:15-17 | A 42-character creator shows as 13 characters, like every other page's owner. |
| LegacyCard.ProgressAsWritten | ProjectCard.js:8-12 | With a positive goal the written guard gives the card's progress. With a zero goal it does not. |
| Navbar.FormatAddress | frontend/src/components/Navbar.js:29-32 | "" exactly for a missing or empty address. Otherwise the shortened address. |
| Navbar.FormatStandardAddress | frontend/src/components/Navbar.js:31 | A 42-character account shows as 13 characters. |
| Navbar.NavbarState.constructor | frontend/src/components/Navbar.js:8-9 | Menu closed, not scrolled. |
| Navbar.NavbarState.HandleScroll | frontend/src/components/Navbar.js:15-17 | `isScrolled` holds exactly when the offset is past 10. |
| Navbar.NavbarState.LocationChanged | frontend/src/components/Navbar.js:24-26 | A route change closes the menu. |
| Navbar.NavbarState.ToggleMenu | frontend/src/components/Navbar.js:150 | The button flips the menu. |
| Navbar.ToggleMenuTwice | frontend/src/components/Navbar.js:150 | Two presses restore the menu. |
| Notifications.Stored | frontend/src/context/NotificationContext.js:19 | The stored toast carries the generated id unless the payload has its own. Every other key comes from the payload. |
| Notifications.RemovedKeeps | frontend/src/context/NotificationContext.js:24 | Removal drops exactly the toasts with that id. |
| Notifications.RemoveAbsent | frontend/src/context/NotificationContext.js:24 | Removing an absent id changes nothing. |
| Notifications.RemovedConcat | frontend/src/context/NotificationContext.js:24 | The survivors keep their order. |
| Notifications.Removed | frontend/src/context/NotificationContext.js:24 | `prev.filter(n => n.id !== id)`. `Notifications.RemovedKeeps` states which toasts survive, and `Notifications.RemovedConcat` that they keep their order. |
| Notifications.AddThenRemove | frontend/src/context/NotificationContext.js:17-25 | Adding under a fresh generated id, then removing the returned id, restores the list. |
| Notifications.ReturnedIdMissesPayloadId | frontend/src/context/NotificationContext.js:18-20 | A payload with its own id is stored under it. Removing the returned id then leaves the toast in place. |
| Notifications.WithDefaults | frontend/src/context/NotificationContext.js:27-41 | The helper's type and message apply unless the options carry their own, which win. |
| Notifications.HelperDefaults | frontend/src/context/NotificationContext.js:27-29 | Without options a toast has the helper's type and the given message. |
| Notifications.UseNotification | frontend/src/context/NotificationContext.js:6-12 | Outside a provider the hook fails with its message. Inside, it returns the context. |
| Notifications.NotificationProvider.constructor | frontend/src/context/NotificationContext.js:15 | No toasts. |
| Notifications.NotificationProvider.AddNotification | frontend/src/context/NotificationContext.js:17-21 | One toast is appended, earlier ones are unchanged, and the generated id is returned. |
| Notifications.NotificationProvider.RemoveNotification | frontend/src/context/NotificationContext.js:23-25 | The list becomes the toasts without that id. |
| Notifications.NotificationProvider.ShowSuccess | frontend/src/context/NotificationContext.js:27-29 | Appends a "success" toast. |
| Notifications.NotificationProvider.ShowError | frontend/src/context/NotificationContext.js:31-33 | Appends an "error" toast. |
| Notifications.NotificationProvider.ShowWarning | frontend/src/context/NotificationContext.js:35-37 | Appends a "warning" toast. |
| Notifications.NotificationProvider.ShowInfo | frontend/src/context/NotificationContext.js:39-41 | Appends an "info" toast. |
| Settings.FlipNotification | frontend/src/pages/SettingsPage.js:27-32 | Exactly the named notification key flips. |
| Settings.NotificationsByKeys | frontend/src/pages/SettingsPage.js:10-15 | The record is determined by its four keys. |
| Settings.FlipNotificationTwice | frontend/src/pages/SettingsPage.js:28-31 | Flipping a key twice restores the record. |
| Settings.FlipNotificationCommutes | frontend/src/pages/SettingsPage.js:28-31 | Flips of two keys commute. |
| Settings.NotificationValue | frontend/src/pages/SettingsPage.js:30 | `prev[setting]` on the notification record. `Settings.NotificationsByKeys` states that these four values determine the record, and `Settings.FlipNotification` that a toggle negates exactly one of them. |
| Settings.FlipPrivacy | frontend/src/pages/SettingsPage.js:34-39 | Exactly the named privacy key flips. |
| Settings.PrivacyByKeys | frontend/src/pages/SettingsPage.js:17-21 | The record is determined by its three keys. |
| Settings.FlipPrivacyTwice | frontend/src/pages/SettingsPage.js:35-38 | Flipping a key twice restores the record. |
| Settings.PrivacyValue | frontend/src/pages/SettingsPage.js:37 | `prev[setting]` on the privacy record. `Settings.PrivacyByKeys` states that these three values determine the record, and `Settings.FlipPrivacy` that a toggle negates exactly one of them. |
| Settings.Defaults | frontend/src/pages/SettingsPage.js:10-21 | Every notification key except marketing is on by default, and every privacy key is on. |
| Settings.SettingsPage.constructor | frontend/src/pages/SettingsPage.js:10-24 | Defaults and empty profile fields. |
| Settings.SettingsPage.HandleNotificationChange | frontend/src/pages/SettingsPage.js:27-32 | Only the notification record changes, by one flip. |
| Settings.SettingsPage.HandlePrivacyChange | frontend/src/pages/SettingsPage.js:34-39 | Only the privacy record changes, by one flip. |
| Settings.SettingsPage.ResetSettings | frontend/src/pages/SettingsPage.js:51-69 | Both records return to their defaults, the name and bio are cleared, and one success toast is shown. |
| App.Tagged | frontend/src/App.js:32 | `{ id: i, ...project }` carries the index and every field of the record. |
| App.AssembleBatch | frontend/src/App.js:27-35 | A batch comes back exactly when every index below the count can be fetched. It then has `count` items, item `i` being record `i` tagged with `i`. |
| App.BatchIdsAscending | frontend/src/App.js:30-33 | The batch's ids are 0, 1, 2, … in ascending order. |
| App.AppState.constructor | frontend/src/App.js:6-9 | No projects, empty fields. |
| App.AppState.LoadProjects | frontend/src/App.js:20-39 | Without a provider, or when any read throws, the projects are kept. Otherwise they become the batch. |
| App.AppState.CreateProject | frontend/src/App.js:42-60 | An empty description or goal only raises the alert. Without a wallet provider the handler throws before its `try`: no alert, no call, nothing changes. A mined creation clears both fields and reloads. A failure inside the `try` keeps the fields and raises the failure alert. |
| App.WithdrawShownAsWritten | frontend/src/App.js:133 | The button's condition as written: not withdrawn, and the account is the owner's exact spelling. |
| App.WithdrawShown | frontend/src/App.js:133 | The intended condition: not withdrawn, and the account equals the owner ignoring case. |
| App.WithdrawShownAsWrittenIsNarrower | frontend/src/App.js:133 | The written condition shows the button only when the intended one does. Neither shows it for a withdrawn project. |
| App.WithdrawHiddenFromOwner | frontend/src/App.js:133 | For an owner with an upper-case letter and the same account lower-cased, the written condition hides the button and the intended one shows it. |
| App.WithdrawHiddenFromChecksummedOwner | frontend/src/App.js:133 | The checksummed example address from EIP-55 is such an owner. |

## Left out

- Rendering is not modelled: JSX, class names, themes, icons, links and the `navigate` redirects.
- Floating point is not modelled. Amounts are exact wei and progress is an exact rational.
  - `formatEther`/`parseFloat` round trips and `toFixed(3)` are not modelled beyond `Ether.FormatEther`'s shape.
  - The sort keys of the discover page are exact, not doubles.
- Ledger calls, wallet prompts and transaction waits are parameters: a fetch result, a ledger value or an outcome. Their time order and overlapping refreshes are not modelled.
- `Math.random` is a parameter: category picks, generated notification ids and the cards' `daysRemaining` mock.
- Timers are not modelled: the save-profile delay, redirect delays and toast auto-close.
- `saveProfile` in the settings page only shows a toast after a timer. It is not modelled.
- The profile page's balance read (`getBalance`/`formatEther`) and the address copy to the clipboard are left out. Both are I/O.
- The settings toggles take a key of the record. A key outside the record is not modelled: `!undefined` would add it as `true`.
- Notifications.WithDefaults, Notifications.Stored: a key explicitly set to `undefined` is treated as absent, whereas a JavaScript spread overrides with `undefined`. In `WithDefaults` such an options key keeps the helper's value here. In `Stored`, a payload carrying `id: undefined` makes `{ id, ...notification }` store an undefined id in the source, while the model stores the generated id.
- App.AppState.CreateProject: the reload after a mined creation is not awaited in the source. The model runs it at once.
- App.AppState.CreateProject: `ethers.utils.parseEther(goal)` is not modelled. The caller chooses the outcome, and `BadAmount` stands for a goal that is not a decimal amount of ether, so the contract does not tie that outcome to the goal text.
- App.AppState.CreateProject, App.AppState.LoadProjects: the model follows the ethers v5 API that `App.js` calls (`ethers.providers.Web3Provider`, `ethers.utils.parseEther`). The other pages call the v6 API, and the dependency manifest is not part of this model. Under v6, `ethers.providers` is undefined, so both handlers would throw before their `try` even with a wallet.
- App.AppState.LoadProjects: the contract record is assumed to have no `id` member of its own, which would override the index.
- `Array.prototype.sort` is modelled on values as a stable insertion sort (`ArrayMethods.SortBy`), not in place. JavaScript guarantees a stable sort.
- `toString()` on non-string titles and descriptions is not modelled: string fields are strings or missing. The profile page's error path is triggered by a non-string description (`Profile.DescriptionField.NonString`).
- `toLowerCase` is modelled for ASCII letters only, which covers hexadecimal addresses.
- CreateProject.ValidateForm, TempCreateProject.Page.CreateProject, Text.Substring, Address.Shorten: lengths and offsets count code points, whereas JavaScript `.length` and `substring` count UTF-16 code units. A character outside the Basic Multilingual Plane (an emoji) counts once here and twice in the source, so a title of three emoji is too short here but long enough in the source.
- The donate and withdraw calls of the minimal app, and the `connectWallet` prompt, are I/O and not modelled.
- The home, about, footer and logo components, the spinner and the toast component hold no logic beyond markup. `Notification.js` is not part of this model.
- Profile.ProcessProjectData: the placeholder is stated one way. A non-string description gives the placeholder, but a user title may coincide with the placeholder's title.

## Findings

| source | as written | input that shows it | evidently intended | confidence | as-written member | corrected member |
|---|---|---|---|---|---|---|
| frontend/src/components/ProjectCard.js:11-15, frontend/src/pages/DashboardPage.js:192-196, ProjectCard.js:8-12 | `goalAmount === "0" ? 0 : Math.min(100, raised / goal * 100)` compares the output of `formatEther` with "0", and `formatEther` never returns "0" | a project with a zero goal: the goal formats as "0.0", and nothing raised gives NaN (something raised gives 100) | 0 % for a zero goal, as the detail page's numeric `goal === 0` check gives | not executed; high | Ether.CardProgressAsWritten (Ether.CardProgressOnZeroGoal) | Listing.Progress (used by Dashboard.Card, ProjectCard.Card, LegacyCard.Card) |
| frontend/src/App.js:133 | `account === proj.owner` compares addresses case-sensitively | owner "0x5aAeb6053F3E94C9b9A09f33669435E7Ef1BeAed" as the contract returns it, account in lower case as a wallet reports it | the owner sees the button whatever the letter case, as every other page compares addresses ignoring case | not executed; medium | App.WithdrawShownAsWritten (App.WithdrawHiddenFromChecksummedOwner) | App.WithdrawShown (App.WithdrawShownAsWrittenIsNarrower) |
