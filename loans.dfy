/** The loan page (app/dashboard/loans/page.tsx): record normalisation, the search/status/tab filter,
    the status badge, the pending-only action menu and the approve/reject list update. */
module Loans {
  import opened Text
  import opened Lists

  /** A loan as the backend returns it. The creation timestamp is formatted outside the model. */
  datatype RawLoan = RawLoan(
    id: string, userId: string, amount: int, duration: int, status: string, purpose: string,
    interestFee: int, totalPaid: int, paidMonths: int, totalDue: int)

  /** A loan as the page keeps it in its `loans` list (the page spells the last key `totaldue`). */
  datatype Loan = Loan(
    id: string, fullId: string, user: string, amount: int, term: int, status: string, date: string,
    purpose: string, interest: int, totalPaid: int, paidMonth: int, totaldue: int)

  /** The statuses the tabs and the status filter offer, besides "all". */
  const LoanStatuses: set<string> := {"pending", "approved", "ongoing", "completed", "rejected"}

  /** The shortened id shown in the table: "L-" and the first 8 characters, upper-cased. */
  function DisplayId(rawId: string): (r: string)
    ensures |r| == 2 + (if |rawId| < 8 then |rawId| else 8) && |r| <= 10
    ensures r[..2] == "L-"
    ensures forall i :: 0 <= i < |r| - 2 ==> r[i + 2] == UpperChar(rawId[i])
  {
    "L-" + ToUpper(Prefix(rawId, 8))
  }

  /** `transformLoanData`; `userName` is what the per-loan user lookup returned and `date` the
      formatted creation day. */
  function TransformLoanData(loan: RawLoan, userName: string, date: string): (r: Loan)
    ensures r.id == DisplayId(loan.id) && r.fullId == loan.id
    ensures r.status == ToLower(loan.status) && r.term == loan.duration
    ensures r.user == userName && r.amount == loan.amount && r.date == date && r.purpose == loan.purpose
    ensures r.interest == loan.interestFee && r.totalPaid == loan.totalPaid
    ensures r.paidMonth == loan.paidMonths && r.totaldue == loan.totalDue
  {
    Loan(DisplayId(loan.id), loan.id, userName, loan.amount, loan.duration, ToLower(loan.status), date,
         loan.purpose, loan.interestFee, loan.totalPaid, loan.paidMonths, loan.totalDue)
  }

  /** A fetched loan with what its user lookup returned (the name, or "Unknown User" when the lookup
      failed) and its formatted creation day. */
  datatype FetchedLoan = FetchedLoan(raw: RawLoan, userName: string, date: string)

  /** `fetchLoans`' `loanData.map(...)`: every fetched loan transformed, in order. */
  function TransformLoans(fetched: seq<FetchedLoan>): (r: seq<Loan>)
    ensures |r| == |fetched|
    ensures forall i :: 0 <= i < |fetched| ==>
      r[i] == TransformLoanData(fetched[i].raw, fetched[i].userName, fetched[i].date)
    ensures forall i, k :: 0 <= i < |r| && 0 <= k < |r[i].status| ==> !IsUpper(r[i].status[k])
  {
    if fetched == [] then []
    else
      [TransformLoanData(fetched[0].raw, fetched[0].userName, fetched[0].date)] + TransformLoans(fetched[1..])
  }

  /** The normalised status never holds an upper-case letter, so a loan fetched as "PENDING" shows up
      under the lower-case "pending" filter and tab. */
  lemma NormalisedStatusIsLowerCase(loan: RawLoan, userName: string, date: string)
    ensures forall i :: 0 <= i < |TransformLoanData(loan, userName, date).status| ==>
      !IsUpper(TransformLoanData(loan, userName, date).status[i])
    ensures loan.status == "PENDING" ==> TransformLoanData(loan, userName, date).status == "pending"
  {
  }

  /** Two backend ids that agree on their first 8 characters up to case share a display id. */
  lemma {:induction false} DisplayIdCollides(a: string, b: string)
    requires |a| >= 8 && |b| >= 8
    requires forall i :: 0 <= i < 8 ==> UpperChar(a[i]) == UpperChar(b[i])
    ensures DisplayId(a) == DisplayId(b)
  {
    var da, db := DisplayId(a), DisplayId(b);
    assert |da| == |db| == 10;
    assert forall i :: 0 <= i < 10 ==> da[i] == db[i] by {
      assert da[..2] == db[..2];
    }
  }

  predicate MatchesSearch(loan: Loan, searchTerm: string) {
    var term := ToLower(searchTerm);
    Includes(ToLower(loan.id), term) || Includes(ToLower(loan.user), term) || Includes(ToLower(loan.purpose), term)
  }

  predicate MatchesStatus(loan: Loan, statusFilter: string) {
    statusFilter == "all" || loan.status == statusFilter
  }

  predicate MatchesTab(loan: Loan, activeTab: string) {
    || activeTab == "all"
    || (activeTab == "pending" && loan.status == "pending")
    || (activeTab == "approved" && loan.status == "approved")
    || (activeTab == "ongoing" && loan.status == "ongoing")
    || (activeTab == "completed" && loan.status == "completed")
    || (activeTab == "rejected" && loan.status == "rejected")
  }

  /** The tab test is an equality test restricted to the five known statuses: any other tab shows nothing. */
  lemma MatchesTabIff(loan: Loan, activeTab: string)
    ensures MatchesTab(loan, activeTab) <==> activeTab == "all" || (activeTab in LoanStatuses && loan.status == activeTab)
  {
  }

  predicate Shown(loan: Loan, searchTerm: string, statusFilter: string, activeTab: string) {
    MatchesSearch(loan, searchTerm) && MatchesStatus(loan, statusFilter) && MatchesTab(loan, activeTab)
  }

  function ShownUnder(searchTerm: string, statusFilter: string, activeTab: string): Loan -> bool {
    (loan: Loan) => Shown(loan, searchTerm, statusFilter, activeTab)
  }

  /** `filteredLoans`: the loans the table lists, in their original order. */
  function FilteredLoans(loans: seq<Loan>, searchTerm: string, statusFilter: string, activeTab: string): (r: seq<Loan>)
    ensures IsSubsequence(r, loans)
    ensures forall l :: l in r ==>
      Includes(ToLower(l.id), ToLower(searchTerm)) || Includes(ToLower(l.user), ToLower(searchTerm))
      || Includes(ToLower(l.purpose), ToLower(searchTerm))
    ensures forall l :: l in r ==> (statusFilter == "all" || l.status == statusFilter) && MatchesTab(l, activeTab)
    ensures forall l :: l in loans && Shown(l, searchTerm, statusFilter, activeTab) ==> l in r
    ensures forall l :: multiset(r)[l] == if Shown(l, searchTerm, statusFilter, activeTab) then multiset(loans)[l] else 0
  {
    FilterIsSubsequence(loans, ShownUnder(searchTerm, statusFilter, activeTab));
    FilterCounts(loans, ShownUnder(searchTerm, statusFilter, activeTab));
    Filter(loans, ShownUnder(searchTerm, statusFilter, activeTab))
  }

  /** With an empty search, status "all" and tab "all", every loan is listed, in order. */
  lemma DefaultViewShowsAll(loans: seq<Loan>)
    ensures FilteredLoans(loans, "", "all", "all") == loans
  {
    forall l | l in loans ensures Shown(l, "", "all", "all") {
      IncludesEmpty(ToLower(l.id));
    }
    FilterKeepsAll(loans, ShownUnder("", "all", "all"));
  }

  datatype Colour = Yellow | Blue | Red | Purple | Green

  datatype Icon = Clock | ThumbsUp | ThumbsDown | FileText | Check

  datatype Badge = Badge(text: string, colour: Colour, icon: Icon)

  /** The `switch` of `getStatusBadge`, on an already lower-cased status. */
  function BadgeFor(lowered: string): (r: Option<Badge>)
    ensures r.Some? <==> lowered in LoanStatuses
    ensures r.Some? ==> r.value.text == Capitalize(lowered)
  {
    match lowered
    case "pending" => Some(Badge("Pending", Yellow, Clock))
    case "approved" => Some(Badge("Approved", Blue, ThumbsUp))
    case "rejected" => Some(Badge("Rejected", Red, ThumbsDown))
    case "ongoing" => Some(Badge("Ongoing", Purple, FileText))
    case "completed" => Some(Badge("Completed", Green, Check))
    case _ => None
  }

  /** `getStatusBadge`: the status is lower-cased before it is matched; unknown statuses get no badge. */
  function StatusBadge(status: string): (r: Option<Badge>)
    ensures r.Some? <==> ToLower(status) in LoanStatuses
  {
    BadgeFor(ToLower(status))
  }

  /** The badge ignores case: "APPROVED" and "approved" get the same badge. */
  lemma StatusBadgeIgnoresCase(status: string)
    ensures StatusBadge(status) == StatusBadge(ToLower(status))
  {
    ToLowerIdempotent(status);
  }

  /** The status each badge colour stands for. */
  function StatusOfColour(colour: Colour): string {
    match colour
    case Yellow => "pending"
    case Blue => "approved"
    case Red => "rejected"
    case Purple => "ongoing"
    case Green => "completed"
  }

  /** A known status can be read back from its badge's colour. */
  lemma BadgeColourIdentifiesStatus(status: string)
    requires status in LoanStatuses
    ensures BadgeFor(status).Some? && StatusOfColour(BadgeFor(status).value.colour) == status
  {
  }

  lemma KnownStatusStartsLower(status: string)
    requires status in LoanStatuses
    ensures |status| > 0 && IsLower(status[0])
  {
  }

  /** The five statuses get five badges with different texts and colours. */
  lemma StatusBadgesDistinct(a: string, b: string)
    requires a in LoanStatuses && b in LoanStatuses && a != b
    ensures BadgeFor(a).Some? && BadgeFor(b).Some?
    ensures BadgeFor(a).value.text != BadgeFor(b).value.text
    ensures BadgeFor(a).value.colour != BadgeFor(b).value.colour
  {
    BadgeColourIdentifiesStatus(a);
    BadgeColourIdentifiesStatus(b);
    KnownStatusStartsLower(a);
    KnownStatusStartsLower(b);
    if BadgeFor(a).value.text == BadgeFor(b).value.text {
      CapitalizeInjective(a, b);
    }
  }

  datatype MenuItem = ViewDetails | Approve | Reject

  /** The row's action menu: approve and reject are offered only for a loan whose status is exactly "pending". */
  function MenuItems(loan: Loan): (r: seq<MenuItem>)
    ensures |r| > 0 && r[0] == ViewDetails
    ensures Approve in r <==> loan.status == "pending"
    ensures Reject in r <==> loan.status == "pending"
  {
    [ViewDetails] + (if loan.status == "pending" then [Approve, Reject] else [])
  }

  datatype Action = ApproveAction | RejectAction

  /** The status the action writes: upper-case, unlike the lower-case statuses the filters compare with. */
  function NewStatus(actionType: Option<Action>): (r: string)
    ensures r == "APPROVED" <==> actionType == Some(ApproveAction)
    ensures r == "APPROVED" || r == "REJECTED"
  {
    if actionType == Some(ApproveAction) then "APPROVED" else "REJECTED"
  }

  function IdIs(id: string): Loan -> bool {
    (loan: Loan) => loan.id == id
  }

  function WithStatus(status: string): Loan -> Loan {
    (loan: Loan) => loan.(status := status)
  }

  /** The list update after a successful PATCH: every loan whose display id is `id` gets `status`. */
  function SetStatus(loans: seq<Loan>, id: string, status: string): (r: seq<Loan>)
    ensures |r| == |loans|
    ensures forall i :: 0 <= i < |loans| && loans[i].id == id ==> r[i] == loans[i].(status := status)
    ensures forall i :: 0 <= i < |loans| && loans[i].id != id ==> r[i] == loans[i]
  {
    ReplaceWhere(loans, IdIs(id), WithStatus(status))
  }

  /** A loan that was approved or rejected is never offered another action. */
  lemma ActedLoanNotActionable(loans: seq<Loan>, id: string, action: Option<Action>, i: int)
    requires 0 <= i < |loans| && loans[i].id == id
    ensures Approve !in MenuItems(SetStatus(loans, id, NewStatus(action))[i])
    ensures Reject !in MenuItems(SetStatus(loans, id, NewStatus(action))[i])
  {
  }

  /** The statuses the actions write are none of the five statuses the filters and tabs offer. */
  lemma WrittenStatusNotOffered(action: Option<Action>)
    ensures NewStatus(action) !in LoanStatuses && NewStatus(action) != "all"
  {
    var st := NewStatus(action);
    assert IsUpper(st[0]);
    assert forall v :: v in LoanStatuses ==> IsLower(v[0]);
  }

  /** Because the update writes upper-case statuses, a loan that was approved or rejected drops out of
      every status filter and every tab except "all". */
  lemma ActedLoanLeavesStatusViews(loans: seq<Loan>, id: string, action: Option<Action>, i: int, searchTerm: string, view: string)
    requires 0 <= i < |loans| && loans[i].id == id
    requires view in LoanStatuses
    ensures SetStatus(loans, id, NewStatus(action))[i] !in FilteredLoans(SetStatus(loans, id, NewStatus(action)), searchTerm, view, "all")
    ensures SetStatus(loans, id, NewStatus(action))[i] !in FilteredLoans(SetStatus(loans, id, NewStatus(action)), searchTerm, "all", view)
  {
    var acted := SetStatus(loans, id, NewStatus(action));
    assert acted[i].status == NewStatus(action);
    WrittenStatusNotOffered(action);
    assert view != "all" && acted[i].status != view;
    MatchesTabIff(acted[i], view);
  }

  /** The status approval writes gets the "Approved" badge ... */
  lemma ApprovedBadge()
    ensures StatusBadge("APPROVED") == Some(Badge("Approved", Blue, ThumbsUp))
  {
    LowerLiteral("APPROVED", "approved");
  }

  /** ... and the one rejection writes gets the "Rejected" badge. */
  lemma RejectedBadge()
    ensures StatusBadge("REJECTED") == Some(Badge("Rejected", Red, ThumbsDown))
  {
    LowerLiteral("REJECTED", "rejected");
  }

  /** ... while its badge, which lower-cases first, still reads "Approved" or "Rejected". */
  lemma ActedLoanBadge(loans: seq<Loan>, id: string, action: Option<Action>, i: int)
    requires 0 <= i < |loans| && loans[i].id == id
    ensures StatusBadge(SetStatus(loans, id, NewStatus(action))[i].status)
      == if action == Some(ApproveAction) then Some(Badge("Approved", Blue, ThumbsUp)) else Some(Badge("Rejected", Red, ThumbsDown))
  {
    assert SetStatus(loans, id, NewStatus(action))[i].status == NewStatus(action);
    if action == Some(ApproveAction) {
      ApprovedBadge();
    } else {
      RejectedBadge();
    }
  }

  /** The page's own state: the list, the filter inputs, the selection and the dialog flags. */
  class LoansPage {
    var loans: seq<Loan>
    var searchTerm: string
    var statusFilter: string
    var activeTab: string
    var isDetailsOpen: bool
    var selectedLoan: Option<string>
    var isActionDialogOpen: bool
    var actionType: Option<Action>

    constructor ()
      ensures loans == [] && searchTerm == "" && statusFilter == "all" && activeTab == "all"
      ensures !isDetailsOpen && selectedLoan == None && !isActionDialogOpen && actionType == None
    {
      loans := [];
      searchTerm, statusFilter, activeTab := "", "all", "all";
      isDetailsOpen, selectedLoan := false, None;
      isActionDialogOpen, actionType := false, None;
    }

    /** The end of `fetchLoans`: when the GET succeeded the loans become the fetched ones, transformed;
        when it failed (None) the list stays as it was. */
    method Loaded(fetched: Option<seq<FetchedLoan>>)
      modifies this
      ensures loans == if fetched.Some? then TransformLoans(fetched.value) else old(loans)
      ensures searchTerm == old(searchTerm) && statusFilter == old(statusFilter) && activeTab == old(activeTab)
      ensures isDetailsOpen == old(isDetailsOpen) && selectedLoan == old(selectedLoan)
      ensures isActionDialogOpen == old(isActionDialogOpen) && actionType == old(actionType)
    {
      if fetched.Some? {
        loans := TransformLoans(fetched.value);
      }
    }

    /** The "View Details" menu item. */
    method OpenDetails(loan: Loan)
      modifies this
      ensures selectedLoan == Some(loan.id) && isDetailsOpen
      ensures loans == old(loans) && isActionDialogOpen == old(isActionDialogOpen) && actionType == old(actionType)
      ensures searchTerm == old(searchTerm) && statusFilter == old(statusFilter) && activeTab == old(activeTab)
    {
      selectedLoan := Some(loan.id);
      isDetailsOpen := true;
    }

    /** The "Approve" and "Reject" menu items, which exist only in the menu of a pending loan. */
    method ChooseAction(loan: Loan, action: Action)
      requires action == ApproveAction ==> Approve in MenuItems(loan)
      requires action == RejectAction ==> Reject in MenuItems(loan)
      modifies this
      ensures selectedLoan == Some(loan.id) && actionType == Some(action) && isActionDialogOpen
      ensures loans == old(loans) && isDetailsOpen == old(isDetailsOpen)
      ensures searchTerm == old(searchTerm) && statusFilter == old(statusFilter) && activeTab == old(activeTab)
    {
      selectedLoan := Some(loan.id);
      actionType := Some(action);
      isActionDialogOpen := true;
    }

    /** `handleLoanAction`. `patchSucceeded` is the outcome of the PATCH request, which the method
        returns as `patch` (the backend id of the first loan with the selected display id, and the new
        status). With no selection (none, or the falsy empty id), or a selection no loan has, it returns
        before touching anything. */
    method HandleLoanAction(patchSucceeded: bool) returns (patch: Option<(string, string)>)
      modifies this
      ensures old(selectedLoan).None? || old(selectedLoan).value == "" || FindIndex(old(loans), IdIs(old(selectedLoan).value)).None? ==>
        patch == None && unchanged(this)
      ensures old(selectedLoan).Some? && old(selectedLoan).value != "" && FindIndex(old(loans), IdIs(old(selectedLoan).value)).Some? ==>
        var sel := old(selectedLoan).value;
        && patch == Some((old(loans)[FindIndex(old(loans), IdIs(sel)).value].fullId, NewStatus(old(actionType))))
        && loans == (if patchSucceeded then SetStatus(old(loans), sel, NewStatus(old(actionType))) else old(loans))
        && !isActionDialogOpen && selectedLoan == None && actionType == None
        && isDetailsOpen == old(isDetailsOpen)
        && searchTerm == old(searchTerm) && statusFilter == old(statusFilter) && activeTab == old(activeTab)
    {
      if selectedLoan.None? || selectedLoan.value == "" {
        return None;
      }
      var sel := selectedLoan.value;
      var found := FindIndex(loans, IdIs(sel));
      if found.None? {
        return None;
      }
      var newStatus := NewStatus(actionType);
      patch := Some((loans[found.value].fullId, newStatus));
      if patchSucceeded {
        loans := SetStatus(loans, sel, newStatus);
      }
      isActionDialogOpen := false;
      selectedLoan := None;
      actionType := None;
    }
  }
}
