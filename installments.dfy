/** The installment page (app/dashboard/installments/page.tsx): the sample installments, the
    search/status filter, the status badge, the unpaid-only payment action and the payment dialog's
    choices and default amount. */
module Installments {
  import opened Text
  import opened Lists

  datatype Installment = Installment(
    id: string, loanId: string, user: string, amount: int, dueDate: string, status: string, paidDate: Option<string>)

  /** The page's constant sample data. */
  const Installments: seq<Installment> := [
    Installment("INS-001", "L-2023-002", "Jane Smith", 500, "2023-08-10", "paid", Some("2023-08-08")),
    Installment("INS-002", "L-2023-004", "Emily Davis", 450, "2023-08-15", "pending", None),
    Installment("INS-003", "L-2023-002", "Jane Smith", 500, "2023-09-10", "pending", None),
    Installment("INS-004", "L-2023-004", "Emily Davis", 450, "2023-09-15", "pending", None),
    Installment("INS-005", "L-2023-007", "David Miller", 400, "2023-08-12", "paid", Some("2023-08-10")),
    Installment("INS-006", "L-2023-007", "David Miller", 400, "2023-09-12", "pending", None),
    Installment("INS-007", "L-2023-008", "Lisa Taylor", 500, "2023-08-20", "overdue", None),
    Installment("INS-008", "L-2023-008", "Lisa Taylor", 500, "2023-09-20", "pending", None)
  ]

  predicate MatchesSearch(installment: Installment, searchTerm: string) {
    var term := ToLower(searchTerm);
    || Includes(ToLower(installment.id), term)
    || Includes(ToLower(installment.loanId), term)
    || Includes(ToLower(installment.user), term)
  }

  predicate MatchesStatus(installment: Installment, statusFilter: string) {
    statusFilter == "all" || installment.status == statusFilter
  }

  predicate Shown(installment: Installment, searchTerm: string, statusFilter: string) {
    MatchesSearch(installment, searchTerm) && MatchesStatus(installment, statusFilter)
  }

  function ShownUnder(searchTerm: string, statusFilter: string): Installment -> bool {
    (installment: Installment) => Shown(installment, searchTerm, statusFilter)
  }

  /** `filteredInstallments`, over any list of installments: the ones the table lists, in order. */
  function FilteredInstallments(installments: seq<Installment>, searchTerm: string, statusFilter: string): (r: seq<Installment>)
    ensures IsSubsequence(r, installments)
    ensures forall x :: x in r ==>
      || Includes(ToLower(x.id), ToLower(searchTerm))
      || Includes(ToLower(x.loanId), ToLower(searchTerm))
      || Includes(ToLower(x.user), ToLower(searchTerm))
    ensures forall x :: x in r ==> statusFilter == "all" || x.status == statusFilter
    ensures forall x :: x in installments && Shown(x, searchTerm, statusFilter) ==> x in r
    ensures forall x :: multiset(r)[x] == if Shown(x, searchTerm, statusFilter) then multiset(installments)[x] else 0
  {
    FilterIsSubsequence(installments, ShownUnder(searchTerm, statusFilter));
    FilterCounts(installments, ShownUnder(searchTerm, statusFilter));
    Filter(installments, ShownUnder(searchTerm, statusFilter))
  }

  /** With an empty search and status "all", every installment is listed, in order. */
  lemma DefaultViewShowsAll(installments: seq<Installment>)
    ensures FilteredInstallments(installments, "", "all") == installments
  {
    forall x | x in installments ensures Shown(x, "", "all") {
      IncludesEmpty(ToLower(x.id));
    }
    FilterKeepsAll(installments, ShownUnder("", "all"));
  }

  /** ... so on first render the table shows all eight sample installments. */
  lemma InitialViewShowsAllSamples()
    ensures |FilteredInstallments(Installments, "", "all")| == 8
  {
    DefaultViewShowsAll(Installments);
  }

  datatype Colour = Green | Yellow | Red

  datatype Icon = Check | Calendar | Cross

  datatype Badge = Badge(text: string, colour: Colour, icon: Icon)

  const BadgeStatuses: set<string> := {"paid", "pending", "overdue"}

  /** `getStatusBadge`: an exact, case-sensitive switch; any other status gets no badge. */
  function StatusBadge(status: string): (r: Option<Badge>)
    ensures r.Some? <==> status in BadgeStatuses
    ensures r.Some? ==> r.value.text == Capitalize(status)
  {
    match status
    case "paid" => Some(Badge("Paid", Green, Check))
    case "pending" => Some(Badge("Pending", Yellow, Calendar))
    case "overdue" => Some(Badge("Overdue", Red, Cross))
    case _ => None
  }

  /** The three statuses get three badges with different texts, colours and icons. */
  lemma StatusBadgesDistinct(a: string, b: string)
    requires a in BadgeStatuses && b in BadgeStatuses && a != b
    ensures StatusBadge(a).Some? && StatusBadge(b).Some?
    ensures StatusBadge(a).value.text != StatusBadge(b).value.text
    ensures StatusBadge(a).value.colour != StatusBadge(b).value.colour
    ensures StatusBadge(a).value.icon != StatusBadge(b).value.icon
  {
  }

  /** Unlike the loan badge, this one does not lower-case: "Paid" and "PAID" get no badge. */
  lemma StatusBadgeIsCaseSensitive()
    ensures StatusBadge("Paid") == None && StatusBadge("PAID") == None
  {
  }

  /** Every sample installment has a badge. */
  lemma SamplesHaveBadges()
    ensures forall x :: x in Installments ==> StatusBadge(x.status).Some?
  {
  }

  datatype MenuItem = RecordPayment | ViewDetails

  /** The row's action menu: "Record Payment" is offered exactly when the installment is not paid. */
  function MenuItems(installment: Installment): (r: seq<MenuItem>)
    ensures ViewDetails in r && r[|r| - 1] == ViewDetails
    ensures RecordPayment in r <==> installment.status != "paid"
  {
    (if installment.status != "paid" then [RecordPayment] else []) + [ViewDetails]
  }

  function Unpaid(installment: Installment): bool {
    installment.status != "paid"
  }

  /** The installments the payment dialog offers: the unpaid ones, in their original order. */
  function PaymentChoices(installments: seq<Installment>): (r: seq<Installment>)
    ensures IsSubsequence(r, installments)
    ensures forall x :: x in r <==> x in installments && x.status != "paid"
    ensures forall x :: multiset(r)[x] == if x.status != "paid" then multiset(installments)[x] else 0
  {
    FilterIsSubsequence(installments, Unpaid);
    FilterCounts(installments, Unpaid);
    Filter(installments, Unpaid)
  }

  /** The dialog offers exactly the installments whose menu offers "Record Payment". */
  lemma ChoicesMatchMenu(installments: seq<Installment>, x: Installment)
    requires x in installments
    ensures x in PaymentChoices(installments) <==> RecordPayment in MenuItems(x)
  {
  }

  function IdIs(id: string): Installment -> bool {
    (installment: Installment) => installment.id == id
  }

  /** The amount field's default: with a selection, the amount of the first installment with that id
      (None when there is none); with no selection, or an empty one, nothing. */
  function DefaultAmount(installments: seq<Installment>, selected: Option<string>): (r: Option<int>)
    ensures selected.None? || selected.value == "" ==> r.None?
    ensures r.Some? ==> exists i :: 0 <= i < |installments| && installments[i].id == selected.value && installments[i].amount == r.value
                                   && (forall j :: 0 <= j < i ==> installments[j].id != selected.value)
    ensures selected.Some? && selected.value != "" && (exists i :: 0 <= i < |installments| && installments[i].id == selected.value) ==> r.Some?
  {
    if selected.None? || selected.value == "" then None
    else match FindIndex(installments, IdIs(selected.value))
      case None => None
      case Some(i) => Some(installments[i].amount)
  }

  /** The dialog's installment selector starts at the selected id, or at nothing. */
  function DefaultChoice(selected: Option<string>): (r: string)
    ensures selected.Some? ==> r == selected.value
    ensures selected.None? ==> r == ""
  {
    if selected.Some? then selected.value else ""
  }

  /** A payment started from INS-002's menu fills in its amount, 450. */
  lemma SampleDefaultAmount()
    ensures DefaultAmount(Installments, Some("INS-002")) == Some(450)
  {
    var s, p := Installments, IdIs("INS-002");
    assert !p(s[0]) by {
      assert s[0].id[6] != '2';
    }
    FindIndexIs(s, p, 1);
  }

  /** The page's own state. The installments are a constant, so no handler can change them. */
  class InstallmentsPage {
    var searchTerm: string
    var statusFilter: string
    var isRecordPaymentOpen: bool
    var selectedInstallment: Option<string>

    constructor ()
      ensures searchTerm == "" && statusFilter == "all" && !isRecordPaymentOpen && selectedInstallment == None
    {
      searchTerm, statusFilter := "", "all";
      isRecordPaymentOpen, selectedInstallment := false, None;
    }

    /** The header's "Record Payment" button: opens the dialog and leaves the selection as it is. */
    method OpenRecordPayment()
      modifies this
      ensures isRecordPaymentOpen
      ensures selectedInstallment == old(selectedInstallment)
      ensures searchTerm == old(searchTerm) && statusFilter == old(statusFilter)
    {
      isRecordPaymentOpen := true;
    }

    /** A row's "Record Payment" item, which exists only for an unpaid installment. */
    method ChooseRecordPayment(installment: Installment)
      requires RecordPayment in MenuItems(installment)
      modifies this
      ensures selectedInstallment == Some(installment.id) && isRecordPaymentOpen
      ensures searchTerm == old(searchTerm) && statusFilter == old(statusFilter)
    {
      selectedInstallment := Some(installment.id);
      isRecordPaymentOpen := true;
    }

    /** `handleRecordPayment`: records nothing; it closes the dialog and clears the selection. */
    method HandleRecordPayment()
      modifies this
      ensures !isRecordPaymentOpen && selectedInstallment == None
      ensures searchTerm == old(searchTerm) && statusFilter == old(statusFilter)
    {
      isRecordPaymentOpen := false;
      selectedInstallment := None;
    }
  }
}
