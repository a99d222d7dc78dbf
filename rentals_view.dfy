/** The rentals screen: places of the selected location, twenty per page,
    a page bar of at most five numbers with ellipses, and the delete guard
    that lets an administrator through without the delete permission. */
module RentalsView {
  import opened Wrappers
  import opened AccessTypes
  import opened Js
  import ModulesMap
  import Login

  const PlacesPerPage: nat := 20
  const MaxPagesToShow: nat := 5

  /** `Math.ceil(count / placesPerPage)`: the fewest pages of twenty that
      hold every place. */
  function TotalPages(count: nat): (n: nat)
    ensures n * PlacesPerPage >= count
    ensures count > 0 ==> (n - 1) * PlacesPerPage < count
    ensures n == 0 <==> count == 0
  {
    (count + PlacesPerPage - 1) / PlacesPerPage
  }

  /** `places.slice((page - 1) * 20, page * 20)`: a page shows at most twenty
      places, exactly those whose index falls in it. */
  function CurrentPlaces<T>(places: seq<T>, page: int): (r: seq<T>)
    ensures page >= 1 ==> |r| <= PlacesPerPage
    ensures page >= 1 ==> forall k :: 0 <= k < |r| ==>
      (page - 1) * PlacesPerPage + k < |places| && r[k] == places[(page - 1) * PlacesPerPage + k]
    ensures page >= 1 && (page - 1) * PlacesPerPage < |places| ==>
      |r| == Min(PlacesPerPage, |places| - (page - 1) * PlacesPerPage)
  {
    Slice(places, page * PlacesPerPage - PlacesPerPage, page * PlacesPerPage)
  }

  /** An entry of the page bar. */
  datatype PageItem = Num(n: int) | Ellipsis

  function WindowStart(currentPage: int): int {
    Max(1, currentPage - MaxPagesToShow / 2)
  }

  function WindowEnd(currentPage: int, totalPages: int): int {
    Min(totalPages, WindowStart(currentPage) + MaxPagesToShow - 1)
  }

  /** The numbers `from..to`, inclusive. */
  function Range(from: int, to: int): (r: seq<PageItem>)
    ensures |r| == Max(to - from + 1, 0)
    ensures forall k :: 0 <= k < |r| ==> r[k] == Num(from + k)
  {
    if from > to then [] else seq(to - from + 1, k requires 0 <= k <= to - from => Num(from + k))
  }

  /** The page bar as the source lays it out: at most nine entries, and
      every number in it is page 1 or a page that exists. */
  function PageWindow(currentPage: int, totalPages: int): (w: seq<PageItem>)
    ensures |w| <= MaxPagesToShow + 4
    ensures forall k :: 0 <= k < |w| && w[k].Num? ==> w[k].n == 1 || 1 <= w[k].n <= totalPages
  {
    var start := WindowStart(currentPage);
    var end := WindowEnd(currentPage, totalPages);
    var lead := if start > 1 then [Num(1), Ellipsis] else [];
    var tail := if end < totalPages then [Ellipsis, Num(totalPages)] else [];
    var w := lead + Range(start, end) + tail;
    assert forall k :: 0 <= k < |w| ==>
      w[k] == if k < |lead| then lead[k] else if k < |lead| + |Range(start, end)| then Range(start, end)[k - |lead|]
              else tail[k - |lead| - |Range(start, end)|];
    w
  }

  /** `renderPageNumbers`, which pushes the entries one by one. */
  method RenderPageNumbers(currentPage: int, totalPages: int) returns (items: seq<PageItem>)
    ensures items == PageWindow(currentPage, totalPages)
  {
    items := [];
    var start := Max(1, currentPage - MaxPagesToShow / 2);
    var end := Min(totalPages, start + MaxPagesToShow - 1);
    if start > 1 {
      items := items + [Num(1), Ellipsis];
    }
    ghost var prefix := items;
    var i := start;
    while i <= end
      invariant start <= i <= Max(start, end + 1)
      invariant items == prefix + Range(start, i - 1)
    {
      assert Range(start, i) == Range(start, i - 1) + [Num(i)];
      items := items + [Num(i)];
      i := i + 1;
    }
    assert Range(start, i - 1) == Range(start, end);
    if end < totalPages {
      items := items + [Ellipsis, Num(totalPages)];
    }
  }

  /** `isAdmin`: either casing of the role is named `Admin`; a user
      without a role is never one. */
  predicate IsAdmin(user: Option<User>): (r: bool)
    ensures r ==> user.Some? && (user.value.role.Some? || user.value.Role.Some?)
  {
    user.Some? &&
    ((user.value.role.Some? && user.value.role.value.name == "Admin") ||
     (user.value.Role.Some? && user.value.Role.value.name == "Admin"))
  }

  /** The `hasPermission || isAdmin` pattern every protected action of the
      dashboard's screens follows. */
  predicate AllowedOrAdmin(hasPermission: bool, user: Option<User>) {
    hasPermission || IsAdmin(user)
  }

  /** A location as the selector hands it over (a fresh object each time). */
  datatype Location = Location(id: string, nombre: string)

  /** The screen state the handlers change. */
  class RentalsScreen {
    var currentPage: int
    var selectedLocation: Option<Location>
    var forceRefetchKey: int

    constructor()
      ensures currentPage == 1 && selectedLocation.None? && forceRefetchKey == 0
    {
      currentPage := 1;
      selectedLocation := None;
      forceRefetchKey := 0;
    }

    /** `handlePageChange`; `placeCount` is the length of the list shown. */
    method HandlePageChange(page: int, placeCount: nat)
      modifies this
      ensures currentPage == if 0 < page <= TotalPages(placeCount) then page else old(currentPage)
      ensures selectedLocation == old(selectedLocation) && forceRefetchKey == old(forceRefetchKey)
    {
      if page > 0 && page <= TotalPages(placeCount) {
        currentPage := page;
      }
    }

    /** `handleSelectLocation`, followed by the effect that resets the page
        whenever a location is selected. */
    method HandleSelectLocation(location: Location)
      modifies this
      ensures forceRefetchKey == old(forceRefetchKey) + 1
      ensures selectedLocation == Some(location)
      ensures currentPage == 1
    {
      forceRefetchKey := forceRefetchKey + 1;
      selectedLocation := Some(location);
      currentPage := 1;
    }

    /** `handleDeletePlace`: `confirmed` is the user's answer to the
        confirmation and `deleteSucceeds` the mutation's outcome. Returns
        whether the delete mutation was called. */
    method HandleDeletePlace(canDelete: bool, user: Option<User>, confirmed: bool, deleteSucceeds: bool)
      returns (deleteCalled: bool)
      modifies this
      ensures deleteCalled <==> AllowedOrAdmin(canDelete, user) && confirmed
      ensures currentPage == if deleteCalled && deleteSucceeds then 1 else old(currentPage)
      ensures selectedLocation == old(selectedLocation) && forceRefetchKey == old(forceRefetchKey)
    {
      if !canDelete && !IsAdmin(user) {
        return false;
      }
      if !confirmed {
        return false;
      }
      deleteCalled := true;
      if deleteSucceeds {
        currentPage := 1;
      }
    }
  }

  // ------------------------------------------------------------ lemmas

  /** Every place is on exactly one page: the place at index `i` is shown by
      page `i / 20 + 1`, which exists, at position `i % 20`, and any page
      position that shows index `i` is that one. */
  lemma PlaceOnOnePage<T>(places: seq<T>, i: int, page: int, k: int)
    requires 0 <= i < |places|
    ensures var p := i / PlacesPerPage + 1;
      1 <= p <= TotalPages(|places|) && i % PlacesPerPage < |CurrentPlaces(places, p)| &&
      CurrentPlaces(places, p)[i % PlacesPerPage] == places[i]
    ensures page >= 1 && 0 <= k < |CurrentPlaces(places, page)| && (page - 1) * PlacesPerPage + k == i ==>
      page == i / PlacesPerPage + 1 && k == i % PlacesPerPage
  {
    var p := i / PlacesPerPage + 1;
    assert (p - 1) * PlacesPerPage + i % PlacesPerPage == i;
    assert (p - 1) * PlacesPerPage < |places|;
  }

  /** The pages `1..n` laid end to end. */
  function Pages<T>(places: seq<T>, n: nat): seq<T> {
    if n == 0 then [] else Pages(places, n - 1) + CurrentPlaces(places, n)
  }

  /** Laying the pages `1..TotalPages` end to end gives back every place in
      order: nothing is skipped or shown twice. */
  lemma {:induction false} PagesCoverPlaces<T>(places: seq<T>)
    ensures Pages(places, TotalPages(|places|)) == places
  {
    PagesPrefix(places, TotalPages(|places|));
  }

  lemma {:induction false} PagesPrefix<T>(places: seq<T>, n: nat)
    ensures Pages(places, n) == places[..Min(n * PlacesPerPage, |places|)]
  {
    if n > 0 {
      PagesPrefix(places, n - 1);
      var lo := Min((n - 1) * PlacesPerPage, |places|);
      var hi := Min(n * PlacesPerPage, |places|);
      assert CurrentPlaces(places, n) == places[lo..hi];
      assert places[..lo] + places[lo..hi] == places[..hi];
    }
  }

  /** The numeric part of the bar holds at most five numbers, and holds the
      current page whenever it is a real page. */
  lemma WindowNumbers(currentPage: int, totalPages: int)
    ensures |Range(WindowStart(currentPage), WindowEnd(currentPage, totalPages))| <= MaxPagesToShow
    ensures 1 <= currentPage <= totalPages ==>
      Num(currentPage) in Range(WindowStart(currentPage), WindowEnd(currentPage, totalPages))
  {
    var start := WindowStart(currentPage);
    var end := WindowEnd(currentPage, totalPages);
    if 1 <= currentPage <= totalPages {
      assert Range(start, end)[currentPage - start] == Num(currentPage);
    }
  }

  /** `[1, '...']` leads the bar exactly when the window starts after page
      one. */
  lemma LeadingEllipsis(currentPage: int, totalPages: int)
    ensures var w := PageWindow(currentPage, totalPages);
      (|w| >= 2 && w[0] == Num(1) && w[1] == Ellipsis) <==> WindowStart(currentPage) > 1
  {
    var start := WindowStart(currentPage);
    var end := WindowEnd(currentPage, totalPages);
    var w := PageWindow(currentPage, totalPages);
    if start <= 1 && |w| >= 2 && w[0] == Num(1) {
      assert start == 1;
      if end >= 2 {
        assert w[1] == Range(start, end)[1];
      }
    }
  }

  /** `['...', totalPages]` ends the bar exactly when the window stops
      before the last page, for a current page that is a real page. */
  lemma TrailingEllipsis(currentPage: int, totalPages: int)
    requires 1 <= currentPage <= totalPages
    ensures var w := PageWindow(currentPage, totalPages);
      (|w| >= 2 && w[|w| - 2] == Ellipsis && w[|w| - 1] == Num(totalPages)) <==>
      WindowEnd(currentPage, totalPages) < totalPages
  {
    var start := WindowStart(currentPage);
    var end := WindowEnd(currentPage, totalPages);
    var w := PageWindow(currentPage, totalPages);
    var lead := if start > 1 then [Num(1), Ellipsis] else [];
    if end >= totalPages {
      assert end == totalPages;
      var r := Range(start, end);
      assert w == lead + r;
      assert |r| >= 1 && w[|w| - 1] == r[|r| - 1];
      if |r| >= 2 {
        assert w[|w| - 2] == r[|r| - 2];
      } else {
        assert start == end && start == currentPage;
        assert start > 1 ==> currentPage - 2 == start;
      }
    }
  }

  /** The numbers of the bar are strictly increasing from left to right. */
  lemma WindowIncreasing(currentPage: int, totalPages: int)
    ensures var w := PageWindow(currentPage, totalPages);
      forall i, j :: 0 <= i < j < |w| && w[i].Num? && w[j].Num? ==> w[i].n < w[j].n
  {
    var start := WindowStart(currentPage);
    var end := WindowEnd(currentPage, totalPages);
    var lead := if start > 1 then [Num(1), Ellipsis] else [];
    var r := Range(start, end);
    var tail := if end < totalPages then [Ellipsis, Num(totalPages)] else [];
    var w := PageWindow(currentPage, totalPages);
    assert w == lead + r + tail;
    forall i, j | 0 <= i < j < |w| && w[i].Num? && w[j].Num? ensures w[i].n < w[j].n {
      if i < |lead| {
        assert w[i] == Num(1);
        if j < |lead| + |r| {
          assert w[j] == r[j - |lead|];
        } else {
          assert w[j] == tail[j - |lead| - |r|];
        }
      } else if i < |lead| + |r| {
        assert w[i] == r[i - |lead|];
        if j < |lead| + |r| {
          assert w[j] == r[j - |lead|];
        } else {
          assert w[j] == tail[j - |lead| - |r|];
        }
      }
    }
  }

  /** The administrator override at the resolver: an `Admin` role in either
      casing passes every `hasPermission || isAdmin` check whatever
      `useModulePermission` answers, and for anyone else the check is that
      answer, so a closed gate stops them. */
  lemma AdminOverridesDefaultDeny(user: Option<User>, q: ModulesMap.ModulesQuery, moduleName: string, action: Action)
    ensures IsAdmin(user) ==> AllowedOrAdmin(ModulesMap.UseModulePermission(user, q, moduleName, action).hasPermission, user)
    ensures !IsAdmin(user) ==>
      (AllowedOrAdmin(ModulesMap.UseModulePermission(user, q, moduleName, action).hasPermission, user) <==>
       ModulesMap.UseModulePermission(user, q, moduleName, action).hasPermission)
    ensures !IsAdmin(user) && !ModulesMap.HasModuleAccess(user) ==>
      !AllowedOrAdmin(ModulesMap.UseModulePermission(user, q, moduleName, action).hasPermission, user)
  {
  }

  /** An administrator whose role has an empty permission array is denied by
      the resolver for every module and action, yet allowed by the override. */
  lemma AdminWithoutRows(u: User, r: RoleInfo, q: ModulesMap.ModulesQuery, moduleName: string, action: Action)
    requires r.name == "Admin"
    ensures var admin := Some(u.(role := Some(r.(permissions := Some([])))));
      IsAdmin(admin) && !ModulesMap.UseModulePermission(admin, q, moduleName, action).hasPermission &&
      AllowedOrAdmin(ModulesMap.UseModulePermission(admin, q, moduleName, action).hasPermission, admin)
  {
    var admin := Some(u.(role := Some(r.(permissions := Some([])))));
    assert !ModulesMap.HasModuleAccess(admin);
  }

  /** The admin test sees the same answer before and after the login
      normalisation, which rebuilds `role` and keeps `Role`. */
  lemma AdminSurvivesNormalization(u: User)
    ensures IsAdmin(Some(Login.NormalizeUser(u))) == IsAdmin(Some(u))
  {
  }
}
