/** The report page (app/dashboard/reports/page.tsx): the sample reports and templates, the
    search/type filter, the type label and colour, and the format icon. The page changes no data:
    its only state is the search and type inputs, so it is modelled by functions alone. */
module Reports {
  import opened Text
  import opened Lists

  datatype Report = Report(id: string, name: string, kind: string, createdAt: string, createdBy: string, format: string)

  datatype Template = Template(id: string, name: string, description: string, kind: string)

  /** The page's constant sample reports. */
  const Reports: seq<Report> := [
    Report("REP-001", "Monthly Loan Summary - July 2023", "loan", "2023-08-01", "Admin", "xlsx"),
    Report("REP-002", "User Growth Report - Q2 2023", "user", "2023-07-15", "Admin", "xlsx"),
    Report("REP-003", "Payment Collection Report - July 2023", "payment", "2023-08-02", "Admin", "pdf"),
    Report("REP-004", "Loan Disbursement Report - July 2023", "loan", "2023-08-02", "Admin", "xlsx"),
    Report("REP-005", "Overdue Payments Report - July 2023", "payment", "2023-08-03", "Admin", "pdf")
  ]

  /** The page's constant report templates. */
  const Templates: seq<Template> := [
    Template("TPL-001", "Monthly Loan Summary", "Summary of all loans processed in a month", "loan"),
    Template("TPL-002", "User Growth Report", "Analysis of user growth over a period", "user"),
    Template("TPL-003", "Payment Collection Report", "Summary of all payments collected in a period", "payment"),
    Template("TPL-004", "Loan Disbursement Report", "Details of all loans disbursed in a period", "loan"),
    Template("TPL-005", "Overdue Payments Report", "List of all overdue payments", "payment")
  ]

  /** The types the type filter offers, besides "all". */
  const ReportTypes: set<string> := {"loan", "user", "payment"}

  predicate MatchesSearch(report: Report, searchTerm: string) {
    Includes(ToLower(report.id), ToLower(searchTerm)) || Includes(ToLower(report.name), ToLower(searchTerm))
  }

  predicate MatchesType(report: Report, typeFilter: string) {
    typeFilter == "all" || report.kind == typeFilter
  }

  predicate Shown(report: Report, searchTerm: string, typeFilter: string) {
    MatchesSearch(report, searchTerm) && MatchesType(report, typeFilter)
  }

  function ShownUnder(searchTerm: string, typeFilter: string): Report -> bool {
    (report: Report) => Shown(report, searchTerm, typeFilter)
  }

  /** `filteredReports`, over any list of reports: the ones the table lists, in order. */
  function FilteredReports(reports: seq<Report>, searchTerm: string, typeFilter: string): (r: seq<Report>)
    ensures IsSubsequence(r, reports)
    ensures forall x :: x in r ==>
      Includes(ToLower(x.id), ToLower(searchTerm)) || Includes(ToLower(x.name), ToLower(searchTerm))
    ensures forall x :: x in r ==> typeFilter == "all" || x.kind == typeFilter
    ensures forall x :: x in reports && Shown(x, searchTerm, typeFilter) ==> x in r
    ensures forall x :: multiset(r)[x] == if Shown(x, searchTerm, typeFilter) then multiset(reports)[x] else 0
  {
    FilterIsSubsequence(reports, ShownUnder(searchTerm, typeFilter));
    FilterCounts(reports, ShownUnder(searchTerm, typeFilter));
    Filter(reports, ShownUnder(searchTerm, typeFilter))
  }

  /** With an empty search and type "all", every report is listed, in order. */
  lemma DefaultViewShowsAll(reports: seq<Report>)
    ensures FilteredReports(reports, "", "all") == reports
  {
    forall x | x in reports ensures Shown(x, "", "all") {
      IncludesEmpty(ToLower(x.id));
    }
    FilterKeepsAll(reports, ShownUnder("", "all"));
  }

  /** ... so on first render the table lists all five sample reports. */
  lemma InitialViewShowsAllSamples()
    ensures FilteredReports(Reports, "", "all") == Reports && |Reports| == 5
  {
    DefaultViewShowsAll(Reports);
  }

  /** When every report has one of the offered types, the three type filters split what "all" lists:
      for any search, their counts add up to the count under "all". */
  lemma {:induction false} TypeFiltersPartition(reports: seq<Report>, searchTerm: string)
    requires forall x :: x in reports ==> x.kind in ReportTypes
    ensures |FilteredReports(reports, searchTerm, "all")|
         == |FilteredReports(reports, searchTerm, "loan")| + |FilteredReports(reports, searchTerm, "user")|
          + |FilteredReports(reports, searchTerm, "payment")|
  {
    var all, loan := ShownUnder(searchTerm, "all"), ShownUnder(searchTerm, "loan");
    var user, payment := ShownUnder(searchTerm, "user"), ShownUnder(searchTerm, "payment");
    forall x | x in reports
      ensures all(x) <==> loan(x) || user(x) || payment(x)
      ensures !(loan(x) && user(x)) && !(loan(x) && payment(x)) && !(user(x) && payment(x))
    {
    }
    FilterSplitsThree(reports, all, loan, user, payment);
  }

  /** Every sample report and template has one of the offered types. */
  lemma SampleTypesAreOffered()
    ensures forall x :: x in Reports ==> x.kind in ReportTypes
    ensures forall t :: t in Templates ==> t.kind in ReportTypes
  {
  }

  /** The type label of reports and templates is the type capitalised: the three offered types are
      labelled "Loan", "User" and "Payment". */
  lemma TypeLabels()
    ensures Capitalize("loan") == "Loan" && Capitalize("user") == "User" && Capitalize("payment") == "Payment"
  {
    assert UpperChar('l') == 'L' && UpperChar('u') == 'U' && UpperChar('p') == 'P';
  }

  datatype Colour = Blue | Green | Purple

  /** The type pill's colour, for reports and templates alike. */
  function TypeColour(kind: string): (r: Colour)
    ensures r == Blue <==> kind == "loan"
    ensures r == Green <==> kind == "user"
    ensures r == Purple <==> kind != "loan" && kind != "user"
  {
    if kind == "loan" then Blue else if kind == "user" then Green else Purple
  }

  datatype FormatIcon = Spreadsheet | TextFile

  /** The format cell: a spreadsheet icon exactly for "xlsx", a text icon otherwise, and the format
      shown in capitals. */
  function FormatCell(format: string): (r: (FormatIcon, string))
    ensures r.0 == Spreadsheet <==> format == "xlsx"
    ensures |r.1| == |format| && forall i :: 0 <= i < |format| ==> r.1[i] == UpperChar(format[i])
  {
    (if format == "xlsx" then Spreadsheet else TextFile, ToUpper(format))
  }

  /** Of the samples, the loan and user reports are spreadsheets and the payment reports are not. */
  lemma SampleFormats()
    ensures forall x :: x in Reports ==> (FormatCell(x.format).0 == Spreadsheet <==> x.kind != "payment")
  {
  }
}
