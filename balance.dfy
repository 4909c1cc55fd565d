/** The balance page (app/dashboard/balance/page.tsx): the user-name lookup map, transaction and
    balance normalisation, the search/type filter, the copy-then-sort, the table's row source and the
    add-transaction form. */
module Balance {
  import opened Text
  import opened Lists
  import opened Sorting

  const UnknownUser: string := "Unknown User"

  datatype RawUser = RawUser(id: string, name: string)

  /** No later user in the list has the same id as user `i`. */
  predicate LastWithId(users: seq<RawUser>, i: int)
    requires 0 <= i < |users|
  {
    forall j :: i < j < |users| ==> users[j].id != users[i].id
  }

  /** The `usersMap` reduce, written from its last step: the map built from all users but the last,
      with the last user's id then set to their name. */
  function UsersMap(users: seq<RawUser>): (r: map<string, string>)
    ensures forall i :: 0 <= i < |users| ==> users[i].id in r
  {
    if users == [] then map[]
    else UsersMap(users[..|users| - 1])[users[|users| - 1].id := users[|users| - 1].name]
  }

  /** The map's keys are exactly the users' ids, and each id maps to the name of the last user with it. */
  lemma {:induction false} UsersMapSpec(users: seq<RawUser>)
    ensures forall id :: id in UsersMap(users) <==> exists i :: 0 <= i < |users| && users[i].id == id
    ensures forall i :: 0 <= i < |users| && LastWithId(users, i) ==>
      users[i].id in UsersMap(users) && UsersMap(users)[users[i].id] == users[i].name
  {
    if users != [] {
      var init, last := users[..|users| - 1], users[|users| - 1];
      UsersMapSpec(init);
      var m := UsersMap(users);
      assert m == UsersMap(init)[last.id := last.name];
      forall id ensures id in m <==> exists i :: 0 <= i < |users| && users[i].id == id {
        if id in m && id != last.id {
          var i :| 0 <= i < |init| && init[i].id == id;
          assert users[i].id == id;
        }
        if id in m && id == last.id {
          assert users[|users| - 1].id == id;
        }
        if exists i :: 0 <= i < |users| && users[i].id == id {
          var i :| 0 <= i < |users| && users[i].id == id;
          if i < |users| - 1 {
            assert init[i].id == id;
          }
        }
      }
      forall i | 0 <= i < |users| && LastWithId(users, i)
        ensures users[i].id in m && m[users[i].id] == users[i].name
      {
        if i < |users| - 1 {
          assert users[i] == init[i];
          assert LastWithId(init, i);
          assert users[i].id != last.id;
        }
      }
    }
  }

  /** `usersMap[userId] || "Unknown User"`: an absent id, and also an empty name, fall back. */
  function LookupName(m: map<string, string>, userId: string): (r: string)
    ensures userId in m && m[userId] != "" ==> r == m[userId]
    ensures userId !in m || m[userId] == "" ==> r == UnknownUser
  {
    if userId in m && m[userId] != "" then m[userId] else UnknownUser
  }

  /** The name shown for a user id is the name of the last user with that id, or "Unknown User"
      when no user has it or that name is empty. */
  lemma NameShownForUser(users: seq<RawUser>, userId: string)
    ensures (forall i :: 0 <= i < |users| ==> users[i].id != userId) ==> LookupName(UsersMap(users), userId) == UnknownUser
    ensures forall i :: 0 <= i < |users| && users[i].id == userId && LastWithId(users, i) ==>
      LookupName(UsersMap(users), userId) == (if users[i].name == "" then UnknownUser else users[i].name)
  {
    UsersMapSpec(users);
  }

  /** A transaction as the backend returns it; `user` is present only if the backend sends one. */
  datatype RawTransaction = RawTransaction(
    id: string, userId: string, amount: int, kind: string, date: int, description: string, user: Option<string>)

  /** The fields normalisation adds to a fetched transaction (formatted amount and dates are left out). */
  datatype TxDisplay = TxDisplay(userName: string, formattedId: string)

  /** A transaction in the page's list: fetched ones carry their display fields, one appended after a
      POST is the backend's response as it came and carries none. */
  datatype Transaction = Transaction(raw: RawTransaction, display: Option<TxDisplay>)

  /** One element of the `transactionsRes.data.map(...)` normalisation. */
  function NormaliseTransaction(m: map<string, string>, t: RawTransaction): (r: Transaction)
    ensures r.raw == t && r.display.Some?
    ensures r.display.value.userName == LookupName(m, t.userId)
    ensures |r.display.value.formattedId| == (if |t.id| < 8 then |t.id| else 8)
    ensures StartsWith(t.id, r.display.value.formattedId)
  {
    Transaction(t, Some(TxDisplay(LookupName(m, t.userId), Prefix(t.id, 8))))
  }

  function NormaliseTransactions(m: map<string, string>, ts: seq<RawTransaction>): (r: seq<Transaction>)
    ensures |r| == |ts|
    ensures forall i :: 0 <= i < |ts| ==> r[i] == NormaliseTransaction(m, ts[i])
  {
    if ts == [] then [] else [NormaliseTransaction(m, ts[0])] + NormaliseTransactions(m, ts[1..])
  }

  datatype RawBalance = RawBalance(id: string, userId: string, totalBalance: int, updatedAt: string)

  /** A balance row: the spread of the raw balance with `id` shortened and `user` added. */
  datatype BalanceRow = BalanceRow(id: string, userId: string, totalBalance: int, updatedAt: string, user: string)

  function NormaliseBalance(m: map<string, string>, b: RawBalance): (r: BalanceRow)
    ensures |r.id| == (if |b.id| < 8 then |b.id| else 8) && StartsWith(b.id, r.id)
    ensures r.user == LookupName(m, b.userId)
    ensures r.userId == b.userId && r.totalBalance == b.totalBalance && r.updatedAt == b.updatedAt
  {
    BalanceRow(Prefix(b.id, 8), b.userId, b.totalBalance, b.updatedAt, LookupName(m, b.userId))
  }

  function NormaliseBalances(m: map<string, string>, bs: seq<RawBalance>): (r: seq<BalanceRow>)
    ensures |r| == |bs|
    ensures forall i :: 0 <= i < |bs| ==> r[i] == NormaliseBalance(m, bs[i])
  {
    if bs == [] then [] else [NormaliseBalance(m, bs[0])] + NormaliseBalances(m, bs[1..])
  }

  /** Thrown while rendering: `transaction.user.toLowerCase()` on a transaction without `user`. */
  datatype RenderError = UserIsUndefined(transactionId: string)

  /** `matchesSearch` as JavaScript evaluates it: the `user` test runs only when the id test fails,
      and it throws (None) when the transaction has no `user`. */
  function SearchOutcome(t: Transaction, searchTerm: string): (r: Option<bool>)
    ensures r.None? <==> !Includes(ToLower(t.raw.id), ToLower(searchTerm)) && t.raw.user.None?
    ensures r == Some(true) <==>
      || Includes(ToLower(t.raw.id), ToLower(searchTerm))
      || (t.raw.user.Some? && (Includes(ToLower(t.raw.user.value), ToLower(searchTerm))
                                || Includes(ToLower(t.raw.description), ToLower(searchTerm))))
  {
    var term := ToLower(searchTerm);
    if Includes(ToLower(t.raw.id), term) then Some(true)
    else match t.raw.user
      case None => None
      case Some(u) => Some(Includes(ToLower(u), term) || Includes(ToLower(t.raw.description), term))
  }

  predicate MatchesType(t: Transaction, typeFilter: string) {
    typeFilter == "all" || t.raw.kind == typeFilter
  }

  predicate Kept(t: Transaction, searchTerm: string, typeFilter: string) {
    SearchOutcome(t, searchTerm) == Some(true) && MatchesType(t, typeFilter)
  }

  function KeptUnder(searchTerm: string, typeFilter: string): Transaction -> bool {
    (t: Transaction) => Kept(t, searchTerm, typeFilter)
  }

  /** `filteredTransactions`, one element after another: the first element whose search test throws
      aborts the render. */
  function FilteredTransactions(ts: seq<Transaction>, searchTerm: string, typeFilter: string): (r: Result<seq<Transaction>, RenderError>)
    ensures r.Err? <==> exists t :: t in ts && SearchOutcome(t, searchTerm).None?
    ensures r.Ok? ==> r.value == Filter(ts, KeptUnder(searchTerm, typeFilter))
  {
    if ts == [] then Ok([])
    else match SearchOutcome(ts[0], searchTerm)
      case None => Err(UserIsUndefined(ts[0].raw.id))
      case Some(hit) =>
        match FilteredTransactions(ts[1..], searchTerm, typeFilter)
        case Err(e) => Err(e)
        case Ok(rest) => Ok((if hit && MatchesType(ts[0], typeFilter) then [ts[0]] else []) + rest)
  }

  /** When the filter does not throw, it keeps, in order, exactly the transactions that pass the
      search and the type test. */
  lemma FilteredTransactionsKeepMatches(ts: seq<Transaction>, searchTerm: string, typeFilter: string)
    ensures FilteredTransactions(ts, searchTerm, typeFilter).Ok? ==>
      var r := FilteredTransactions(ts, searchTerm, typeFilter).value;
      && IsSubsequence(r, ts)
      && (forall t :: t in r ==> SearchOutcome(t, searchTerm) == Some(true) && (typeFilter == "all" || t.raw.kind == typeFilter))
      && (forall t :: t in ts && Kept(t, searchTerm, typeFilter) ==> t in r)
      && (forall t :: multiset(r)[t] == if Kept(t, searchTerm, typeFilter) then multiset(ts)[t] else 0)
  {
    FilterIsSubsequence(ts, KeptUnder(searchTerm, typeFilter));
    FilterCounts(ts, KeptUnder(searchTerm, typeFilter));
  }

  /** An empty search and type "all" list every transaction, in order, and never throw. */
  lemma DefaultViewShowsAll(ts: seq<Transaction>)
    ensures FilteredTransactions(ts, "", "all") == Ok(ts)
  {
    forall t | t in ts ensures Kept(t, "", "all") {
      IncludesEmpty(ToLower(t.raw.id));
    }
    FilterKeepsAll(ts, KeptUnder("", "all"));
  }

  /** Normalisation sets `userName`, never `user`: a fetched list without `user` fields makes any
      search term that is missing from some transaction's id throw. */
  lemma SearchOnNormalisedListThrows(m: map<string, string>, raws: seq<RawTransaction>, searchTerm: string, typeFilter: string, k: int)
    requires 0 <= k < |raws| && raws[k].user.None?
    requires !Includes(ToLower(raws[k].id), ToLower(searchTerm))
    ensures FilteredTransactions(NormaliseTransactions(m, raws), searchTerm, typeFilter).Err?
  {
    var ts := NormaliseTransactions(m, raws);
    assert ts[k] in ts && SearchOutcome(ts[k], searchTerm).None?;
  }

  /** The type filter offers "withdrawal" while transactions are typed "withdraw": that choice lists nothing. */
  lemma WithdrawalFilterListsNothing(ts: seq<Transaction>, searchTerm: string)
    requires forall t :: t in ts ==> t.raw.kind == "deposit" || t.raw.kind == "withdraw"
    ensures FilteredTransactions(ts, searchTerm, "withdrawal").Ok? ==> FilteredTransactions(ts, searchTerm, "withdrawal") == Ok([])
  {
    FilterKeepsNone(ts, KeptUnder(searchTerm, "withdrawal"));
  }

  datatype SortField = ByDate | ByAmount

  datatype SortDirection = Asc | Desc

  function SortKey(t: Transaction, field: SortField): int {
    if field == ByDate then t.raw.date else t.raw.amount
  }

  /** The comparator handed to `sort`: `a - b` on the key for "asc", `b - a` for "desc". */
  function Compare(a: Transaction, b: Transaction, field: SortField, dir: SortDirection): int {
    if dir == Asc then SortKey(a, field) - SortKey(b, field) else SortKey(b, field) - SortKey(a, field)
  }

  /** Both comparators are differences of one integer rank, the key or its negation. */
  function Rank(field: SortField, dir: SortDirection): Transaction -> int {
    (t: Transaction) => if dir == Asc then SortKey(t, field) else -SortKey(t, field)
  }

  function SameKey(field: SortField, k: int): Transaction -> bool {
    (t: Transaction) => SortKey(t, field) == k
  }

  /** `sortedTransactions`: a stable sort of a copy of the filtered list under `Compare`. */
  function SortedTransactions(ts: seq<Transaction>, field: SortField, dir: SortDirection): (r: seq<Transaction>)
    ensures multiset(r) == multiset(ts)
    ensures forall i, j :: 0 <= i < j < |r| ==> Compare(r[i], r[j], field, dir) <= 0
    ensures dir == Asc ==> forall i, j :: 0 <= i < j < |r| ==> SortKey(r[i], field) <= SortKey(r[j], field)
    ensures dir == Desc ==> forall i, j :: 0 <= i < j < |r| ==> SortKey(r[i], field) >= SortKey(r[j], field)
  {
    var r := SortByKey(ts, Rank(field, dir));
    assert forall i, j :: 0 <= i < j < |r| ==> Rank(field, dir)(r[i]) <= Rank(field, dir)(r[j]);
    r
  }

  /** Stability in both directions: transactions with equal keys keep their filtered order. */
  lemma {:induction false} SortedTransactionsStable(ts: seq<Transaction>, field: SortField, dir: SortDirection, k: int)
    ensures Filter(SortedTransactions(ts, field, dir), SameKey(field, k)) == Filter(ts, SameKey(field, k))
  {
    var rank := Rank(field, dir);
    var rk := if dir == Asc then k else -k;
    var r := SortedTransactions(ts, field, dir);
    SortIsStable(ts, rank, rk);
    assert forall t :: SameKey(field, k)(t) == KeyIs(rank, rk)(t);
    FilterSamePredicate(r, SameKey(field, k), KeyIs(rank, rk));
    FilterSamePredicate(ts, SameKey(field, k), KeyIs(rank, rk));
  }

  /** The transactions table: the empty-list message when the sorted list is empty, and otherwise the
      rows of `transactions` itself, neither filtered nor sorted. */
  function TableRows(transactions: seq<Transaction>, sorted: seq<Transaction>): (r: seq<Transaction>)
    ensures sorted == [] ==> r == []
    ensures sorted != [] ==> r == transactions
  {
    if |sorted| == 0 then [] else transactions
  }

  /** So the rows on screen never depend on the sort field or direction. */
  lemma RowsIgnoreSortOrder(transactions: seq<Transaction>, filtered: seq<Transaction>, f1: SortField, d1: SortDirection, f2: SortField, d2: SortDirection)
    ensures TableRows(transactions, SortedTransactions(filtered, f1, d1)) == TableRows(transactions, SortedTransactions(filtered, f2, d2))
    ensures TableRows(transactions, SortedTransactions(filtered, f1, d1)) == if filtered == [] then [] else transactions
  {
    var r1 := SortedTransactions(filtered, f1, d1);
    var r2 := SortedTransactions(filtered, f2, d2);
    assert |multiset(r1)| == |multiset(filtered)| == |multiset(r2)|;
  }

  /** The POST body of a new transaction (the request time is left out). */
  datatype TxRequest = TxRequest(userId: string, amount: string, kind: string)

  /** What the POST came back with: a response with its status code, or a thrown error. */
  datatype PostOutcome = Responded(status: int, body: RawTransaction) | Failed

  datatype Fetched = Fetched(users: seq<RawUser>, transactions: seq<RawTransaction>, balances: seq<RawBalance>)

  class BalancePage {
    var searchTerm: string
    var typeFilter: string
    var sortField: SortField
    var sortDirection: SortDirection
    var isAddTransaction: bool
    var users: seq<RawUser>
    var transactions: seq<Transaction>
    var userBalances: seq<BalanceRow>
    var selectedUserId: string
    var amount: string
    var kind: string
    var loading: bool

    constructor ()
      ensures searchTerm == "" && typeFilter == "all" && sortField == ByDate && sortDirection == Desc
      ensures !isAddTransaction && users == [] && transactions == [] && userBalances == []
      ensures selectedUserId == "" && amount == "" && kind == "deposit" && !loading
    {
      searchTerm, typeFilter := "", "all";
      sortField, sortDirection := ByDate, Desc;
      isAddTransaction := false;
      users, transactions, userBalances := [], [], [];
      selectedUserId, amount, kind := "", "", "deposit";
      loading := false;
    }

    /** The end of `fetchData`: on success the lists are set from the normalised responses, on
        failure they stay as they were; either way loading ends. */
    method Loaded(fetched: Option<Fetched>)
      modifies this
      ensures fetched.Some? ==>
        var m := UsersMap(fetched.value.users);
        && users == fetched.value.users
        && transactions == NormaliseTransactions(m, fetched.value.transactions)
        && userBalances == NormaliseBalances(m, fetched.value.balances)
      ensures fetched.None? ==> users == old(users) && transactions == old(transactions) && userBalances == old(userBalances)
      ensures !loading
      ensures searchTerm == old(searchTerm) && typeFilter == old(typeFilter)
      ensures sortField == old(sortField) && sortDirection == old(sortDirection) && isAddTransaction == old(isAddTransaction)
      ensures selectedUserId == old(selectedUserId) && amount == old(amount) && kind == old(kind)
    {
      if fetched.Some? {
        var m := UsersMap(fetched.value.users);
        users, transactions := fetched.value.users, NormaliseTransactions(m, fetched.value.transactions);
        userBalances := NormaliseBalances(m, fetched.value.balances);
      }
      loading := false;
    }

    /** The sort-direction menu item flips the direction. */
    method ToggleSortDirection()
      modifies this`sortDirection
      ensures sortDirection == if old(sortDirection) == Asc then Desc else Asc
    {
      sortDirection := if sortDirection == Asc then Desc else Asc;
    }

    /** `handleSubmit`. It returns the POST body it sent, if any, and the alert it raised, if any. */
    method HandleSubmit(response: PostOutcome) returns (request: Option<TxRequest>, alert: Option<string>)
      modifies this
      ensures old(selectedUserId) == "" || old(amount) == "" || old(kind) == "" ==>
        request == None && alert == Some("Please fill in all fields.") && unchanged(this)
      ensures old(selectedUserId) != "" && old(amount) != "" && old(kind) != "" ==>
        && request == Some(TxRequest(old(selectedUserId), old(amount), old(kind)))
        && !loading
        && users == old(users) && userBalances == old(userBalances)
        && searchTerm == old(searchTerm) && typeFilter == old(typeFilter)
        && sortField == old(sortField) && sortDirection == old(sortDirection)
        && (if response.Responded? && response.status == 201 then
              && transactions == old(transactions) + [Transaction(response.body, None)]
              && !isAddTransaction && selectedUserId == "" && amount == "" && kind == "deposit"
              && alert == None
            else
              && transactions == old(transactions) && isAddTransaction == old(isAddTransaction)
              && selectedUserId == old(selectedUserId) && amount == old(amount) && kind == old(kind)
              && alert == (if response.Failed? then Some("Failed to add transaction.") else None))
    {
      if selectedUserId == "" || amount == "" || kind == "" {
        return None, Some("Please fill in all fields.");
      }
      request := Some(TxRequest(selectedUserId, amount, kind));
      alert := None;
      match response {
        case Responded(status, body) =>
          if status == 201 {
            transactions := transactions + [Transaction(body, None)];
            isAddTransaction := false;
            selectedUserId := "";
            amount := "";
            kind := "deposit";
          }
        case Failed =>
          alert := Some("Failed to add transaction.");
      }
      loading := false;
    }
  }
}
