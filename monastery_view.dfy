/** The monastery screen: the page gate, the row lists of its two views
    (general overheads and monastery expenses), their search and category
    filters, the count and average shown above them, and the permission
    guards on the edit and delete actions. */
module MonasteryView {
  import opened Wrappers
  import opened Js
  import opened AccessTypes
  import RentalsView

  /** The two tabs of the screen. */
  datatype View = OverheadsView | ExpensesView

  /** A general overhead. `status` is whatever the backend sent; only the
      boolean `true` marks an active row. `amount` is `Number(item.amount)`. */
  datatype Overhead = Overhead(
    id: string,
    name: string,
    description: Option<string>,
    amount: real,
    date: string,
    status: Json)

  /** A monastery expense (`Name`, `descripción` and `category` as the
      backend spells them). */
  datatype Expense = Expense(
    id: string,
    name: string,
    descripcion: string,
    category: string,
    amount: real,
    date: string)

  /** The overhead query's data: an array, or some other value. An absent or
      falsy value is `None` at the use site. */
  datatype OverheadData = OverheadArray(items: seq<Overhead>) | OverheadOther

  /** The expense query's data: a bare array; an object with a `data`
      property, which is an array (`Some`) or not (`None`); or any other
      value. */
  datatype ExpenseData =
    | ExpenseArray(items: seq<Expense>)
    | ExpenseEnvelope(data: Option<seq<Expense>>)
    | ExpenseOther

  /** The text filters of each tab. The date and amount bounds are decided by
      the `RangeTests` the caller passes. */
  datatype OverheadFilters = OverheadFilters(searchTerm: string, dateFrom: string, dateTo: string,
                                             minAmount: string, maxAmount: string)
  datatype ExpenseFilters = ExpenseFilters(searchTerm: string, category: string, dateFrom: string, dateTo: string,
                                           minAmount: string, maxAmount: string)

  /** `new Date(item.date) >= new Date(dateFrom)` and its three siblings,
      which compare dates and floating-point amounts. */
  datatype RangeTests<!T> = RangeTests(onOrAfter: T -> bool, onOrBefore: T -> bool,
                                      atLeast: T -> bool, atMost: T -> bool)

  // ------------------------------------------------------------ gate

  /** `userWithPermissions?.role?.name === 'Admin'`: only the lower-case
      `role` is looked at. */
  predicate IsAdmin(user: Option<User>): (r: bool)
    ensures r ==> user.Some? && user.value.role.Some?
    ensures user.Some? && user.value.role.None? ==> !r
    ensures r ==> user.value.role.value.name == "Admin"
  {
    user.Some? && user.value.role.Some? && user.value.role.value.name == "Admin"
  }

  /** `canX || isAdmin`, the test every guarded action makes. */
  predicate Allowed(canAct: bool, isAdmin: bool) {
    canAct || isAdmin
  }

  /** An error whose message names a 403. */
  predicate IsForbidden(error: Option<string>) {
    error.Some? && (Includes(error.value, "403") || Includes(error.value, "Forbidden"))
  }

  /** What the screen renders before its views. */
  datatype Screen = LoadingScreen | RestrictedScreen | ContentScreen

  /** The early returns: still loading permissions (an admin does not
      wait), a 403 from either query, no read permission and no admin. */
  function ScreenShown(permissionsLoading: bool, isAdmin: bool, overheadError: Option<string>,
                       expenseError: Option<string>, canView: bool): (s: Screen)
    ensures s == LoadingScreen <==> permissionsLoading && !isAdmin
    ensures s == ContentScreen <==>
      (!permissionsLoading || isAdmin) && !IsForbidden(overheadError) && !IsForbidden(expenseError) && Allowed(canView, isAdmin)
  {
    if permissionsLoading && !isAdmin then LoadingScreen
    else if IsForbidden(overheadError) || IsForbidden(expenseError) then RestrictedScreen
    else if !canView && !isAdmin then RestrictedScreen
    else ContentScreen
  }

  // ------------------------------------------------------------ rows

  /** `s.filter(p)` */
  function Filter<T(!new)>(s: seq<T>, p: T -> bool): (r: seq<T>)
    ensures |r| <= |s|
    ensures forall x :: x in r <==> x in s && p(x)
    ensures multiset(r) <= multiset(s)
  {
    if s == [] then []
    else
      var rest := Filter(s[1..], p);
      assert s == [s[0]] + s[1..];
      assert forall x :: x in s <==> x == s[0] || x in s[1..];
      if p(s[0]) then [s[0]] + rest else rest
  }

  /** `overhead.status === true` */
  predicate Active(o: Overhead) {
    o.status == JBool(true)
  }

  /** `overheadRows`: the active overheads, only on the overheads tab. */
  function OverheadRows(view: View, data: Option<OverheadData>): (r: seq<Overhead>)
    ensures view != OverheadsView || data.None? || data.value.OverheadOther? ==> r == []
    ensures view == OverheadsView && data.Some? && data.value.OverheadArray? ==>
      multiset(r) <= multiset(data.value.items) &&
      forall o :: o in r <==> o in data.value.items && Active(o)
  {
    if view != OverheadsView then []
    else match data
      case None => []
      case Some(OverheadOther) => []
      case Some(OverheadArray(items)) => Filter(items, Active)
  }

  /** `expenseRows`: on the expenses tab, the array inside `{data: [...]}`
      or the bare array; anything else gives no rows. */
  function ExpenseRows(view: View, data: Option<ExpenseData>): (r: seq<Expense>)
    ensures view != ExpensesView || data.None? ==> r == []
    ensures view == ExpensesView && data.Some? ==>
      r == match data.value
           case ExpenseArray(items) => items
           case ExpenseEnvelope(inner) => if inner.Some? then inner.value else []
           case ExpenseOther => []
  {
    if view != ExpensesView then []
    else match data
      case None => []
      case Some(ExpenseArray(items)) => items
      case Some(ExpenseEnvelope(inner)) => if inner.Some? then inner.value else []
      case Some(ExpenseOther) => []
  }

  // ------------------------------------------------------------ filters

  /** The overhead search: the name, or a non-empty description, contains
      the term, ignoring ASCII case. */
  predicate OverheadMatches(o: Overhead, term: string) {
    Includes(ToLower(o.name), ToLower(term)) ||
    (o.description.Some? && o.description.value != "" && Includes(ToLower(o.description.value), ToLower(term)))
  }

  /** The expense search: the name or the description contains the term,
      ignoring ASCII case. */
  predicate ExpenseMatches(e: Expense, term: string) {
    Includes(ToLower(e.name), ToLower(term)) || Includes(ToLower(e.descripcion), ToLower(term))
  }

  /** Whether a row passes each date and amount filter that is set. */
  predicate InRanges<T>(dateFrom: string, dateTo: string, minAmount: string, maxAmount: string,
                        tests: RangeTests<T>, x: T) {
    (dateFrom == "" || tests.onOrAfter(x)) && (dateTo == "" || tests.onOrBefore(x)) &&
    (minAmount == "" || tests.atLeast(x)) && (maxAmount == "" || tests.atMost(x))
  }

  /** Whether an overhead passes every filter that is set. */
  predicate OverheadKept(filters: OverheadFilters, tests: RangeTests<Overhead>, o: Overhead) {
    (filters.searchTerm == "" || OverheadMatches(o, filters.searchTerm)) &&
    InRanges(filters.dateFrom, filters.dateTo, filters.minAmount, filters.maxAmount, tests, o)
  }

  /** Whether an expense passes the search and category filters that are set. */
  predicate ExpenseTextKept(filters: ExpenseFilters, e: Expense) {
    (filters.searchTerm == "" || ExpenseMatches(e, filters.searchTerm)) &&
    (filters.category == "" || e.category == filters.category)
  }

  /** Whether an expense passes every filter that is set. */
  predicate ExpenseKept(filters: ExpenseFilters, tests: RangeTests<Expense>, e: Expense) {
    ExpenseTextKept(filters, e) && InRanges(filters.dateFrom, filters.dateTo, filters.minAmount, filters.maxAmount, tests, e)
  }

  /** `filteredOverheadData` before its sort: each filter that is set
      narrows `filtered` in turn, and what is left is the rows passing
      every filter, in their order. */
  method FilterOverheads(view: View, rows: seq<Overhead>, filters: OverheadFilters, tests: RangeTests<Overhead>)
    returns (filtered: seq<Overhead>)
    ensures view != OverheadsView ==> filtered == []
    ensures multiset(filtered) <= multiset(rows)
    ensures forall o :: o in filtered <==> view == OverheadsView && o in rows && OverheadKept(filters, tests, o)
    ensures view == OverheadsView ==> filtered == Filter(rows, o => OverheadKept(filters, tests, o))
  {
    if view != OverheadsView || |rows| == 0 {
      return [];
    }
    filtered := rows;
    ghost var search: Overhead -> bool := o => filters.searchTerm == "" || OverheadMatches(o, filters.searchTerm);
    if filters.searchTerm != "" {
      filtered := Filter(filtered, (o: Overhead) => OverheadMatches(o, filters.searchTerm));
    }
    NarrowFirst(rows, (o: Overhead) => OverheadMatches(o, filters.searchTerm), filters.searchTerm != "", search);
    filtered := NarrowByRanges(rows, filtered, filters.dateFrom, filters.dateTo, filters.minAmount, filters.maxAmount,
                               tests, search, o => OverheadKept(filters, tests, o));
  }

  /** `filteredExpenseData` before its sort. */
  method FilterExpenses(view: View, rows: seq<Expense>, filters: ExpenseFilters, tests: RangeTests<Expense>)
    returns (filtered: seq<Expense>)
    ensures view != ExpensesView ==> filtered == []
    ensures multiset(filtered) <= multiset(rows)
    ensures forall e :: e in filtered <==> view == ExpensesView && e in rows && ExpenseKept(filters, tests, e)
    ensures view == ExpensesView ==> filtered == Filter(rows, e => ExpenseKept(filters, tests, e))
  {
    if view != ExpensesView || |rows| == 0 {
      return [];
    }
    filtered := rows;
    ghost var search: Expense -> bool := e => filters.searchTerm == "" || ExpenseMatches(e, filters.searchTerm);
    if filters.searchTerm != "" {
      filtered := Filter(filtered, (e: Expense) => ExpenseMatches(e, filters.searchTerm));
    }
    NarrowFirst(rows, (e: Expense) => ExpenseMatches(e, filters.searchTerm), filters.searchTerm != "", search);
    ghost var prev := filtered;
    ghost var text: Expense -> bool := e => ExpenseTextKept(filters, e);
    if filters.category != "" {
      filtered := Filter(filtered, (e: Expense) => e.category == filters.category);
    }
    NarrowStep(rows, prev, search, (e: Expense) => e.category == filters.category, filters.category != "", text);
    filtered := NarrowByRanges(rows, filtered, filters.dateFrom, filters.dateTo, filters.minAmount, filters.maxAmount,
                               tests, text, e => ExpenseKept(filters, tests, e));
  }

  /** The four range filters, shared by both tabs: each one that is set
      narrows `filtered`, which already holds the `rows` passing `kept`;
      the result is the `rows` passing `final`, which is `kept` and every
      range that is set. */
  method NarrowByRanges<T(!new)>(ghost rows: seq<T>, rows0: seq<T>, dateFrom: string, dateTo: string,
                                 minAmount: string, maxAmount: string, tests: RangeTests<T>,
                                 ghost kept: T -> bool, ghost final: T -> bool)
    returns (filtered: seq<T>)
    requires rows0 == Filter(rows, kept)
    requires forall x :: final(x) == (kept(x) && InRanges(dateFrom, dateTo, minAmount, maxAmount, tests, x))
    ensures multiset(filtered) <= multiset(rows)
    ensures forall x :: x in filtered <==> x in rows && kept(x) && InRanges(dateFrom, dateTo, minAmount, maxAmount, tests, x)
    ensures filtered == Filter(rows, final)
  {
    filtered := rows0;
    ghost var k1: T -> bool := x => kept(x) && (dateFrom == "" || tests.onOrAfter(x));
    if dateFrom != "" {
      filtered := Filter(filtered, tests.onOrAfter);
    }
    NarrowStep(rows, rows0, kept, tests.onOrAfter, dateFrom != "", k1);
    ghost var prev := filtered;
    ghost var k2: T -> bool := x => k1(x) && (dateTo == "" || tests.onOrBefore(x));
    if dateTo != "" {
      filtered := Filter(filtered, tests.onOrBefore);
    }
    NarrowStep(rows, prev, k1, tests.onOrBefore, dateTo != "", k2);
    prev := filtered;
    ghost var k3: T -> bool := x => k2(x) && (minAmount == "" || tests.atLeast(x));
    if minAmount != "" {
      filtered := Filter(filtered, tests.atLeast);
    }
    NarrowStep(rows, prev, k2, tests.atLeast, minAmount != "", k3);
    prev := filtered;
    if maxAmount != "" {
      filtered := Filter(filtered, tests.atMost);
    }
    NarrowStep(rows, prev, k3, tests.atMost, maxAmount != "", final);
  }

  /** The first filter of a chain: when it is set it keeps the rows passing
      `test`, and otherwise every row. */
  lemma NarrowFirst<T(!new)>(rows: seq<T>, test: T -> bool, on: bool, next: T -> bool)
    requires forall x :: next(x) == (!on || test(x))
    ensures (if on then Filter(rows, test) else rows) == Filter(rows, next)
  {
    if on {
      FilterSame(rows, test, next);
    } else {
      FilterExtremes(rows, next);
    }
  }

  /** A later filter of a chain: applied (or skipped) on the rows passing
      `kept`, it leaves the rows passing `kept` and, when set, `test`. */
  lemma NarrowStep<T(!new)>(rows: seq<T>, prev: seq<T>, kept: T -> bool, test: T -> bool, on: bool, next: T -> bool)
    requires prev == Filter(rows, kept)
    requires forall x :: next(x) == (kept(x) && (!on || test(x)))
    ensures (if on then Filter(prev, test) else prev) == Filter(rows, next)
  {
    if on {
      FilterTwice(rows, kept, test, next);
    } else {
      FilterSame(rows, kept, next);
    }
  }

  /** Filtering twice is filtering once by both tests. */
  lemma {:induction false} FilterTwice<T(!new)>(s: seq<T>, p: T -> bool, q: T -> bool, r: T -> bool)
    requires forall x :: r(x) == (p(x) && q(x))
    ensures Filter(Filter(s, p), q) == Filter(s, r)
  {
    if s != [] {
      FilterTwice(s[1..], p, q, r);
      if p(s[0]) {
        assert Filter(s, p) == [s[0]] + Filter(s[1..], p);
        assert ([s[0]] + Filter(s[1..], p))[1..] == Filter(s[1..], p);
      }
    }
  }

  /** Two tests that agree everywhere filter alike. */
  lemma {:induction false} FilterSame<T(!new)>(s: seq<T>, p: T -> bool, q: T -> bool)
    requires forall x :: p(x) == q(x)
    ensures Filter(s, p) == Filter(s, q)
  {
    if s != [] {
      FilterSame(s[1..], p, q);
    }
  }

  // ------------------------------------------------------------ stats

  /** The figures above a tab. */
  datatype Stats = Stats(total: nat, totalAmount: real, avgAmount: real)

  function SumAmounts(amounts: seq<real>): real {
    if amounts == [] then 0.0 else amounts[0] + SumAmounts(amounts[1..])
  }

  /** `overheadStats` / `expenseStats` over the amounts of the filtered rows. */
  function StatsOf(amounts: seq<real>): (s: Stats)
    ensures s.total == |amounts|
    ensures s.totalAmount == SumAmounts(amounts)
    ensures |amounts| == 0 ==> s.avgAmount == 0.0
    ensures |amounts| > 0 ==> s.avgAmount * (|amounts| as real) == s.totalAmount
  {
    var total := SumAmounts(amounts);
    Stats(|amounts|, total, if |amounts| > 0 then total / (|amounts| as real) else 0.0)
  }

  function OverheadAmounts(rows: seq<Overhead>): (r: seq<real>)
    ensures |r| == |rows| && forall i :: 0 <= i < |rows| ==> r[i] == rows[i].amount
  {
    seq(|rows|, i requires 0 <= i < |rows| => rows[i].amount)
  }

  function ExpenseAmounts(rows: seq<Expense>): (r: seq<real>)
    ensures |r| == |rows| && forall i :: 0 <= i < |rows| ==> r[i] == rows[i].amount
  {
    seq(|rows|, i requires 0 <= i < |rows| => rows[i].amount)
  }

  // ------------------------------------------------------------ handlers

  /** Which dialogs are open. */
  datatype Dialogs = Dialogs(createOverhead: bool, editOverhead: bool, deleteOverhead: bool,
                             createExpense: bool, editExpense: bool, deleteExpense: bool)

  /** A failed delete: its HTTP status, when there is one, and its message. */
  datatype MutationError = MutationError(status: Option<int>, message: string)

  /** A status of 403, or a message naming one. */
  predicate IsPermissionError(e: MutationError): (r: bool)
    ensures e.status == Some(403) ==> r
    ensures e.status != Some(403) ==> (r <==> exists i :: OccursAt(e.message, "403", i) || OccursAt(e.message, "Forbidden", i))
  {
    e.status == Some(403) || Includes(e.message, "403") || Includes(e.message, "Forbidden")
  }

  const EditOverheadDenied := "editar este gasto general"
  const DeleteOverheadDenied := "eliminar este gasto general"
  const DeleteOverheadRevoked := "eliminar este gasto general (permisos revocados)"
  const CreateExpenseDenied := "crear gastos del monasterio"
  const EditExpenseDenied := "editar este gasto del monasterio"
  const DeleteExpenseDenied := "eliminar este gasto del monasterio"
  const DeleteExpenseRevoked := "eliminar este gasto del monasterio (permisos revocados)"

  /** The screen state the handlers change. */
  class MonasteryScreen {
    var activeView: View
    var showAccessDenied: bool
    var accessDeniedAction: string
    var selectedOverhead: Option<Overhead>
    var selectedExpense: Option<Expense>
    var dialogs: Dialogs

    constructor()
      ensures activeView == ExpensesView && !showAccessDenied && accessDeniedAction == ""
      ensures selectedOverhead.None? && selectedExpense.None?
      ensures dialogs == Dialogs(false, false, false, false, false, false)
    {
      activeView := ExpensesView;
      showAccessDenied := false;
      accessDeniedAction := "";
      selectedOverhead := None;
      selectedExpense := None;
      dialogs := Dialogs(false, false, false, false, false, false);
    }

    /** `handleAccessDenied` */
    method HandleAccessDenied(action: string)
      modifies this
      ensures showAccessDenied && accessDeniedAction == action
      ensures activeView == old(activeView) && dialogs == old(dialogs)
      ensures selectedOverhead == old(selectedOverhead) && selectedExpense == old(selectedExpense)
    {
      accessDeniedAction := action;
      showAccessDenied := true;
    }

    /** `handleOpenEditOverheadModal` */
    method OpenEditOverhead(o: Overhead, canEdit: bool, isAdmin: bool)
      modifies this
      ensures Allowed(canEdit, isAdmin) ==>
        selectedOverhead == Some(o) && dialogs == old(dialogs).(editOverhead := true) &&
        showAccessDenied == old(showAccessDenied) && accessDeniedAction == old(accessDeniedAction)
      ensures !Allowed(canEdit, isAdmin) ==>
        selectedOverhead == old(selectedOverhead) && dialogs == old(dialogs) &&
        showAccessDenied && accessDeniedAction == EditOverheadDenied
      ensures activeView == old(activeView) && selectedExpense == old(selectedExpense)
    {
      if !canEdit && !isAdmin {
        HandleAccessDenied(EditOverheadDenied);
        return;
      }
      selectedOverhead := Some(o);
      dialogs := dialogs.(editOverhead := true);
    }

    /** `handleOpenDeleteOverheadModal` */
    method OpenDeleteOverhead(o: Overhead, canDelete: bool, isAdmin: bool)
      modifies this
      ensures Allowed(canDelete, isAdmin) ==>
        selectedOverhead == Some(o) && dialogs == old(dialogs).(deleteOverhead := true) &&
        showAccessDenied == old(showAccessDenied) && accessDeniedAction == old(accessDeniedAction)
      ensures !Allowed(canDelete, isAdmin) ==>
        selectedOverhead == old(selectedOverhead) && dialogs == old(dialogs) &&
        showAccessDenied && accessDeniedAction == DeleteOverheadDenied
      ensures activeView == old(activeView) && selectedExpense == old(selectedExpense)
    {
      if !canDelete && !isAdmin {
        HandleAccessDenied(DeleteOverheadDenied);
        return;
      }
      selectedOverhead := Some(o);
      dialogs := dialogs.(deleteOverhead := true);
    }

    /** `handleDeleteOverheadConfirm`: the permission is checked again; the
        id sent to the delete mutation is returned, and `result` is what the
        mutation answered. */
    method ConfirmDeleteOverhead(canDelete: bool, isAdmin: bool, result: Result<(), MutationError>)
      returns (deletedId: Option<string>)
      modifies this
      ensures deletedId.Some? <==> old(selectedOverhead).Some? && Allowed(canDelete, isAdmin)
      ensures deletedId.Some? ==> deletedId.value == old(selectedOverhead).value.id
      ensures deletedId.None? && old(selectedOverhead).Some? ==>
        showAccessDenied && accessDeniedAction == DeleteOverheadRevoked &&
        selectedOverhead == old(selectedOverhead) && dialogs == old(dialogs)
      ensures deletedId.Some? && (result.Success? || IsPermissionError(result.error)) ==>
        selectedOverhead.None? && dialogs == old(dialogs).(deleteOverhead := false)
      ensures deletedId.Some? && result.Success? ==>
        showAccessDenied == old(showAccessDenied) && accessDeniedAction == old(accessDeniedAction)
      ensures deletedId.Some? && result.Failure? && IsPermissionError(result.error) ==>
        showAccessDenied && accessDeniedAction == DeleteOverheadRevoked
      ensures old(selectedOverhead).None? || (deletedId.Some? && result.Failure? && !IsPermissionError(result.error)) ==>
        selectedOverhead == old(selectedOverhead) && dialogs == old(dialogs) &&
        showAccessDenied == old(showAccessDenied) && accessDeniedAction == old(accessDeniedAction)
      ensures activeView == old(activeView) && selectedExpense == old(selectedExpense)
    {
      if selectedOverhead.None? {
        return None;
      }
      if !canDelete && !isAdmin {
        HandleAccessDenied(DeleteOverheadRevoked);
        return None;
      }
      deletedId := Some(selectedOverhead.value.id);
      if result.Success? {
        dialogs := dialogs.(deleteOverhead := false);
        selectedOverhead := None;
      } else if IsPermissionError(result.error) {
        dialogs := dialogs.(deleteOverhead := false);
        selectedOverhead := None;
        HandleAccessDenied(DeleteOverheadRevoked);
      }
    }

    /** `handleOpenCreateExpenseModal` */
    method OpenCreateExpense(canCreate: bool, isAdmin: bool)
      modifies this
      ensures Allowed(canCreate, isAdmin) ==>
        dialogs == old(dialogs).(createExpense := true) &&
        showAccessDenied == old(showAccessDenied) && accessDeniedAction == old(accessDeniedAction)
      ensures !Allowed(canCreate, isAdmin) ==>
        dialogs == old(dialogs) && showAccessDenied && accessDeniedAction == CreateExpenseDenied
      ensures activeView == old(activeView)
      ensures selectedOverhead == old(selectedOverhead) && selectedExpense == old(selectedExpense)
    {
      if !canCreate && !isAdmin {
        HandleAccessDenied(CreateExpenseDenied);
        return;
      }
      dialogs := dialogs.(createExpense := true);
    }

    /** `handleOpenEditExpenseModal` */
    method OpenEditExpense(e: Expense, canEdit: bool, isAdmin: bool)
      modifies this
      ensures Allowed(canEdit, isAdmin) ==>
        selectedExpense == Some(e) && dialogs == old(dialogs).(editExpense := true) &&
        showAccessDenied == old(showAccessDenied) && accessDeniedAction == old(accessDeniedAction)
      ensures !Allowed(canEdit, isAdmin) ==>
        selectedExpense == old(selectedExpense) && dialogs == old(dialogs) &&
        showAccessDenied && accessDeniedAction == EditExpenseDenied
      ensures activeView == old(activeView) && selectedOverhead == old(selectedOverhead)
    {
      if !canEdit && !isAdmin {
        HandleAccessDenied(EditExpenseDenied);
        return;
      }
      selectedExpense := Some(e);
      dialogs := dialogs.(editExpense := true);
    }

    /** `handleOpenDeleteExpenseModal` */
    method OpenDeleteExpense(e: Expense, canDelete: bool, isAdmin: bool)
      modifies this
      ensures Allowed(canDelete, isAdmin) ==>
        selectedExpense == Some(e) && dialogs == old(dialogs).(deleteExpense := true) &&
        showAccessDenied == old(showAccessDenied) && accessDeniedAction == old(accessDeniedAction)
      ensures !Allowed(canDelete, isAdmin) ==>
        selectedExpense == old(selectedExpense) && dialogs == old(dialogs) &&
        showAccessDenied && accessDeniedAction == DeleteExpenseDenied
      ensures activeView == old(activeView) && selectedOverhead == old(selectedOverhead)
    {
      if !canDelete && !isAdmin {
        HandleAccessDenied(DeleteExpenseDenied);
        return;
      }
      selectedExpense := Some(e);
      dialogs := dialogs.(deleteExpense := true);
    }

    /** `handleDeleteExpenseConfirm`, the same shape as the overhead one. */
    method ConfirmDeleteExpense(canDelete: bool, isAdmin: bool, result: Result<(), MutationError>)
      returns (deletedId: Option<string>)
      modifies this
      ensures deletedId.Some? <==> old(selectedExpense).Some? && Allowed(canDelete, isAdmin)
      ensures deletedId.Some? ==> deletedId.value == old(selectedExpense).value.id
      ensures deletedId.None? && old(selectedExpense).Some? ==>
        showAccessDenied && accessDeniedAction == DeleteExpenseRevoked &&
        selectedExpense == old(selectedExpense) && dialogs == old(dialogs)
      ensures deletedId.Some? && (result.Success? || IsPermissionError(result.error)) ==>
        selectedExpense.None? && dialogs == old(dialogs).(deleteExpense := false)
      ensures deletedId.Some? && result.Success? ==>
        showAccessDenied == old(showAccessDenied) && accessDeniedAction == old(accessDeniedAction)
      ensures deletedId.Some? && result.Failure? && IsPermissionError(result.error) ==>
        showAccessDenied && accessDeniedAction == DeleteExpenseRevoked
      ensures old(selectedExpense).None? || (deletedId.Some? && result.Failure? && !IsPermissionError(result.error)) ==>
        selectedExpense == old(selectedExpense) && dialogs == old(dialogs) &&
        showAccessDenied == old(showAccessDenied) && accessDeniedAction == old(accessDeniedAction)
      ensures activeView == old(activeView) && selectedOverhead == old(selectedOverhead)
    {
      if selectedExpense.None? {
        return None;
      }
      if !canDelete && !isAdmin {
        HandleAccessDenied(DeleteExpenseRevoked);
        return None;
      }
      deletedId := Some(selectedExpense.value.id);
      if result.Success? {
        dialogs := dialogs.(deleteExpense := false);
        selectedExpense := None;
      } else if IsPermissionError(result.error) {
        dialogs := dialogs.(deleteExpense := false);
        selectedExpense := None;
        HandleAccessDenied(DeleteExpenseRevoked);
      }
    }
  }

  // ------------------------------------------------------------ lemmas

  /** Filtering keeps the rows' order: the filter of a concatenation is the
      concatenation of the filters. */
  lemma {:induction false} FilterConcat<T(!new)>(a: seq<T>, b: seq<T>, p: T -> bool)
    ensures Filter(a + b, p) == Filter(a, p) + Filter(b, p)
  {
    if a == [] {
      assert a + b == b;
    } else {
      assert (a + b)[1..] == a[1..] + b;
      FilterConcat(a[1..], b, p);
    }
  }

  /** A filter that every row passes returns the rows unchanged, and one
      that no row passes returns nothing. */
  lemma {:induction false} FilterExtremes<T(!new)>(s: seq<T>, p: T -> bool)
    ensures (forall i :: 0 <= i < |s| ==> p(s[i])) ==> Filter(s, p) == s
    ensures (forall i :: 0 <= i < |s| ==> !p(s[i])) ==> Filter(s, p) == []
  {
    if s != [] {
      FilterExtremes(s[1..], p);
      if forall i :: 0 <= i < |s| ==> p(s[i]) {
        assert forall i :: 0 <= i < |s[1..]| ==> p(s[1..][i]) by {
          assert forall i :: 0 <= i < |s[1..]| ==> s[1..][i] == s[i + 1];
        }
        assert s == [s[0]] + s[1..];
      }
      if forall i :: 0 <= i < |s| ==> !p(s[i]) {
        assert forall i :: 0 <= i < |s[1..]| ==> !p(s[1..][i]) by {
          assert forall i :: 0 <= i < |s[1..]| ==> s[1..][i] == s[i + 1];
        }
      }
    }
  }

  /** The overhead rows are the active rows in the order the query gave
      them: prepending an active row prepends it, an inactive one is
      dropped. */
  lemma ActiveRowsInOrder(o: Overhead, items: seq<Overhead>)
    ensures Active(o) ==>
      OverheadRows(OverheadsView, Some(OverheadArray([o] + items))) == [o] + OverheadRows(OverheadsView, Some(OverheadArray(items)))
    ensures !Active(o) ==>
      OverheadRows(OverheadsView, Some(OverheadArray([o] + items))) == OverheadRows(OverheadsView, Some(OverheadArray(items)))
  {
    FilterConcat([o], items, Active);
    assert Filter([o], Active) == if Active(o) then [o] else [];
  }

  /** A status that is the string "true" or the number 1 does not count as
      active. */
  lemma StrictStatus(o: Overhead)
    requires o.status == JStr("true") || o.status == JNum(Finite(1.0))
    ensures OverheadRows(OverheadsView, Some(OverheadArray([o]))) == []
  {
    assert Filter([o], Active) == Filter([o][1..], Active);
  }

  /** With no filter set, the filtered list is all the rows of the tab. */
  lemma NoFilterKeepsAll(filters: ExpenseFilters, tests: RangeTests<Expense>, e: Expense)
    requires filters == ExpenseFilters("", "", "", "", "", "")
    ensures ExpenseKept(filters, tests, e)
  {
  }

  /** The category filter is exact: a different letter case does not match. */
  lemma CategoryIsExact(filters: ExpenseFilters, tests: RangeTests<Expense>, e: Expense)
    requires filters.category == "Luz" && e.category == "luz"
    ensures !ExpenseKept(filters, tests, e)
  {
    assert filters.category[0] != e.category[0];
  }

  /** The search ignores letter case in both the term and the fields. */
  lemma SearchIgnoresCase(e: Expense, term: string)
    ensures ExpenseMatches(e, term) <==> ExpenseMatches(e, ToLower(term))
    ensures ExpenseMatches(e, term) <==> ExpenseMatches(e.(name := ToLower(e.name), descripcion := ToLower(e.descripcion)), term)
  {
    assert ToLower(ToLower(term)) == ToLower(term);
    assert ToLower(ToLower(e.name)) == ToLower(e.name);
    assert ToLower(ToLower(e.descripcion)) == ToLower(e.descripcion);
  }

  lemma {:induction false} SumOfConcat(a: seq<real>, b: seq<real>)
    ensures SumAmounts(a + b) == SumAmounts(a) + SumAmounts(b)
  {
    if a == [] {
      assert a + b == b;
    } else {
      assert (a + b)[1..] == a[1..] + b;
      SumOfConcat(a[1..], b);
    }
  }

  lemma SumRemoveAt(b: seq<real>, i: nat)
    requires i < |b|
    ensures SumAmounts(b) == b[i] + SumAmounts(b[..i] + b[i + 1..])
  {
    var pre, post := b[..i], b[i + 1..];
    assert b == pre + ([b[i]] + post);
    SumOfConcat(pre, [b[i]] + post);
    assert SumAmounts([b[i]] + post) == b[i] + SumAmounts(post) by {
      assert ([b[i]] + post)[1..] == post;
    }
    SumOfConcat(pre, post);
  }

  lemma MultisetRemoveAt<T>(a: seq<T>, b: seq<T>, i: nat)
    requires multiset(a) == multiset(b) && a != [] && i < |b| && b[i] == a[0]
    ensures multiset(a[1..]) == multiset(b[..i] + b[i + 1..])
  {
    assert b == b[..i] + [b[i]] + b[i + 1..];
    assert multiset(b) == multiset(b[..i]) + multiset([b[i]]) + multiset(b[i + 1..]);
    assert a == [a[0]] + a[1..];
    assert multiset(a[1..]) == multiset(a) - multiset{a[0]};
  }

  lemma {:induction false} SumIgnoresOrder(a: seq<real>, b: seq<real>)
    requires multiset(a) == multiset(b)
    ensures SumAmounts(a) == SumAmounts(b)
    decreases |a|
  {
    if a != [] {
      assert a[0] in multiset(b);
      var i :| 0 <= i < |b| && b[i] == a[0];
      MultisetRemoveAt(a, b, i);
      SumIgnoresOrder(a[1..], b[..i] + b[i + 1..]);
      SumRemoveAt(b, i);
    } else {
      assert |b| == |multiset(b)| == 0;
    }
  }

  /** The figures do not depend on the order of the rows, so the in-place
      sort of the filtered list leaves them as they are. */
  lemma StatsIgnoreOrder(a: seq<real>, b: seq<real>)
    requires multiset(a) == multiset(b)
    ensures StatsOf(a) == StatsOf(b)
  {
    assert |a| == |multiset(a)| == |b|;
    SumIgnoresOrder(a, b);
  }

  /** With no rows the count is 0, the sum is 0 and the average is 0, not
      a division by zero. */
  lemma EmptyStats()
    ensures StatsOf([]) == Stats(0, 0.0, 0.0)
  {
  }

  /** A user whose role is "Admin" is an admin here and on the rentals
      screen; one whose role arrives only as `Role` is an admin there but not
      here. */
  lemma AdminNarrowerThanRentals(user: Option<User>)
    ensures IsAdmin(user) ==> RentalsView.IsAdmin(user)
    ensures var r := RoleInfo("r1", "Admin", "", true, None, None, None);
      var u := Some(User("u1", "Ana", "ana@example.com", "r1", true, None, None, None, Some(r)));
      RentalsView.IsAdmin(u) && !IsAdmin(u)
  {
  }

  /** An admin is let through the gate once there is no 403, whatever the
      read permission and its loading state; a 403 hides the content even
      from an admin. */
  lemma AdminGate(permissionsLoading: bool, overheadError: Option<string>, expenseError: Option<string>, canView: bool)
    ensures !IsForbidden(overheadError) && !IsForbidden(expenseError) ==>
      ScreenShown(permissionsLoading, true, overheadError, expenseError, canView) == ContentScreen
    ensures IsForbidden(overheadError) ==>
      ScreenShown(permissionsLoading, true, overheadError, expenseError, canView) == RestrictedScreen
  {
  }
}
