/**
 * app/components/WatchlistSidebar.tsx: the sidebar's state (groups, selected group,
 * watchlist, loading flag, error text, the three filters) and the list logic over it:
 * the search / sector / status filter, the sector dropdown, the live flag update and
 * the choice of the default group.
 */
module Watchlist {
  import opened Wrappers
  import opened Text

  /** A `WatchlistItem` as far as the sidebar's logic reads it. */
  datatype Item = Item(
    symbol: Option<string>,
    companyCode: string,
    companyName: Option<string>,
    sector: Option<string>,
    flag: Option<string>)

  datatype Group = Group(watchlistId: int, isDefault: bool)

  /** The three filter inputs; `"all"` switches the sector and status filters off. */
  datatype Filter = Filter(emiten: string, sector: string, status: string)

  const All := "all"

  /** The initial filter state and the state after "Reset Filters". */
  const NoFilter := Filter("", All, All)

  /** `item.symbol || item.company_code || ''`. */
  function SymbolText(item: Item): string {
    if Present(item.symbol) then item.symbol.value else item.companyCode
  }

  /** `item.company_name || ''`. */
  function NameText(item: Item): string {
    item.companyName.GetOr("")
  }

  /** The search step: an empty search passes everything. */
  predicate SearchPasses(item: Item, emiten: string) {
    var searchStr := ToUpper(emiten);
    searchStr == "" || Includes(ToUpper(SymbolText(item)), searchStr) || Includes(ToUpper(NameText(item)), searchStr)
  }

  /** The predicate given to `watchlist.filter`. */
  predicate Passes(item: Item, f: Filter) {
    && SearchPasses(item, f.emiten)
    && (f.sector == All || item.sector == Some(f.sector))
    && (f.status == All || item.flag == Some(f.status))
  }

  /** `filteredWatchlist`. */
  function FilteredWatchlist(items: seq<Item>, f: Filter): (shown: seq<Item>)
    ensures |shown| <= |items|
    ensures forall i :: 0 <= i < |shown| ==> Passes(shown[i], f)
  {
    if items == [] then []
    else (if Passes(items[0], f) then [items[0]] else []) + FilteredWatchlist(items[1..], f)
  }

  /** `xs` is `ys` with some elements removed, the rest in their order. */
  predicate Subsequence<T(==)>(xs: seq<T>, ys: seq<T>)
    decreases |ys|
  {
    if xs == [] then true
    else if ys == [] then false
    else (xs[0] == ys[0] && Subsequence(xs[1..], ys[1..])) || Subsequence(xs, ys[1..])
  }

  /** The filtered list keeps items of the watchlist in their order. */
  lemma {:induction false} FilteredIsSubsequence(items: seq<Item>, f: Filter)
    ensures Subsequence(FilteredWatchlist(items, f), items)
  {
    if items != [] {
      FilteredIsSubsequence(items[1..], f);
      var rest := FilteredWatchlist(items[1..], f);
      if Passes(items[0], f) {
        assert FilteredWatchlist(items, f) == [items[0]] + rest;
        assert ([items[0]] + rest)[1..] == rest;
      } else {
        assert FilteredWatchlist(items, f) == rest;
      }
    }
  }

  /** An item is shown exactly when it is in the watchlist and passes all three filters. */
  lemma {:induction false} FilteredMembership(items: seq<Item>, f: Filter, x: Item)
    ensures x in FilteredWatchlist(items, f) <==> x in items && Passes(x, f)
  {
    if items != [] {
      FilteredMembership(items[1..], f, x);
      assert items == [items[0]] + items[1..];
    }
  }

  /**
   * The search step passes exactly the items whose upper-cased symbol (or company code)
   * or company name contains the upper-cased search text somewhere.
   */
  lemma SearchIsSubstring(item: Item, emiten: string)
    ensures SearchPasses(item, emiten) <==>
      emiten == ""
      || (exists i :: OccursAt(ToUpper(SymbolText(item)), ToUpper(emiten), i))
      || (exists i :: OccursAt(ToUpper(NameText(item)), ToUpper(emiten), i))
  {
    IncludesIffOccurs(ToUpper(SymbolText(item)), ToUpper(emiten));
    IncludesIffOccurs(ToUpper(NameText(item)), ToUpper(emiten));
  }

  /** A sector filter other than "all" keeps exactly the items of that sector (likewise for status). */
  lemma SectorAndStatusExclude(items: seq<Item>, f: Filter, x: Item)
    requires x in items && SearchPasses(x, f.emiten)
    ensures f.sector != All && f.status == All ==> (x in FilteredWatchlist(items, f) <==> x.sector == Some(f.sector))
    ensures f.status != All && f.sector == All ==> (x in FilteredWatchlist(items, f) <==> x.flag == Some(f.status))
  {
    FilteredMembership(items, f, x);
  }

  /** The "Reset Filters" button shows while some filter is set. */
  predicate FiltersActive(f: Filter) {
    f.emiten != "" || f.sector != All || f.status != All
  }

  /** With no filter active (the initial and the reset state) the whole watchlist is shown. */
  lemma {:induction false} InactiveFilterShowsAll(items: seq<Item>, f: Filter)
    requires !FiltersActive(f)
    ensures FilteredWatchlist(items, f) == items
  {
    if items != [] {
      InactiveFilterShowsAll(items[1..], f);
      assert items == [items[0]] + items[1..];
    }
  }

  // ---------------------------------------------------------------------------
  // Sector dropdown

  /** The sectors the items name (an empty or missing sector is skipped). */
  ghost function SectorsOf(items: seq<Item>): set<string> {
    set i | 0 <= i < |items| && Present(items[i].sector) :: items[i].sector.value
  }

  predicate StrictlySorted(xs: seq<string>) {
    forall i, j :: 0 <= i < j < |xs| ==> Below(xs[i], xs[j])
  }

  /** Strictly sorted entries are distinct. */
  lemma SortedDistinct(xs: seq<string>)
    requires StrictlySorted(xs)
    ensures forall i, j :: 0 <= i < j < |xs| ==> xs[i] != xs[j]
  {
    forall i, j | 0 <= i < j < |xs|
      ensures xs[i] != xs[j]
    {
      BelowIrreflexive(xs[i]);
    }
  }

  /** The least string of a non-empty set. */
  method Least(s: set<string>) returns (m: string)
    requires s != {}
    ensures m in s && forall x :: x in s && x != m ==> Below(m, x)
  {
    m :| m in s;
    var todo := s - {m};
    while todo != {}
      invariant todo <= s && m in s && m !in todo
      invariant forall x :: x in s - todo && x != m ==> Below(m, x)
      decreases |todo|
    {
      var x :| x in todo;
      if Below(x, m) {
        forall y | y in s - todo && y != x
          ensures Below(x, y)
        {
          if y != m {
            BelowTransitive(x, m, y);
          }
        }
        m := x;
      } else {
        BelowTotal(x, m);
      }
      todo := todo - {x};
    }
  }

  /**
   * `availableSectors`: each non-empty sector collected into a set, then sorted. The
   * result is strictly increasing (so sorted and free of duplicates) and holds exactly
   * the sectors some item names.
   */
  method AvailableSectors(watchlist: seq<Item>) returns (sectors: seq<string>)
    ensures StrictlySorted(sectors)
    ensures forall s :: s in sectors <==> s in SectorsOf(watchlist)
    ensures "" !in sectors
  {
    var seen: set<string> := {};
    var k := 0;
    while k < |watchlist|
      invariant 0 <= k <= |watchlist|
      invariant seen == SectorsOf(watchlist[..k])
      invariant forall s :: s in seen ==> s != ""
    {
      var item := watchlist[k];
      if Present(item.sector) {
        seen := seen + {item.sector.value};
      }
      assert watchlist[..k + 1] == watchlist[..k] + [item];
      k := k + 1;
    }
    assert watchlist[..k] == watchlist;
    sectors := [];
    var rest := seen;
    while rest != {}
      invariant rest <= seen
      invariant forall s :: s in sectors ==> s != ""
      invariant forall s :: s in seen <==> s in rest || s in sectors
      invariant forall s :: s in sectors ==> s !in rest
      invariant StrictlySorted(sectors)
      invariant forall i, y :: 0 <= i < |sectors| && y in rest ==> Below(sectors[i], y)
      decreases |rest|
    {
      var m := Least(rest);
      rest := rest - {m};
      sectors := sectors + [m];
    }
  }

  // ---------------------------------------------------------------------------
  // Live flag update ('emiten-flagged')

  /** The item is the one the event names: same symbol (or company code), ignoring case. */
  predicate Names(item: Item, emiten: string) {
    ToUpper(SymbolText(item)) == ToUpper(emiten)
  }

  /** `handleFlagUpdate`'s map over the watchlist. */
  function FlagUpdate(items: seq<Item>, emiten: string, flag: Option<string>): (r: seq<Item>)
    ensures |r| == |items|
  {
    seq(|items|, i requires 0 <= i < |items| => if Names(items[i], emiten) then items[i].(flag := flag) else items[i])
  }

  /**
   * A later flag event for the same symbol overrides an earlier one: two updates are
   * one update with the later flag, so the shown flag is always the last one sent.
   */
  lemma FlagUpdateLastWins(items: seq<Item>, emiten: string, f1: Option<string>, f2: Option<string>)
    ensures FlagUpdate(FlagUpdate(items, emiten, f1), emiten, f2) == FlagUpdate(items, emiten, f2)
  {
  }

  /**
   * After an update, the named items show under the status filter for the new flag and
   * every other item is shown or hidden as before; the list's order is unchanged.
   */
  lemma FlagUpdateAndStatusFilter(items: seq<Item>, emiten: string, flag: string, f: Filter, i: int)
    requires 0 <= i < |items|
    ensures var r := FlagUpdate(items, emiten, Some(flag));
      && (Names(items[i], emiten) ==> r[i] == items[i].(flag := Some(flag)) && (Passes(r[i], f) <==> Passes(items[i], f.(status := All)) && (f.status == All || f.status == flag)))
      && (!Names(items[i], emiten) ==> r[i] == items[i])
  {
  }

  // ---------------------------------------------------------------------------
  // Group selection

  /** `groups.find(g => g.is_default)`. */
  function FirstDefault(groups: seq<Group>): (r: Option<nat>)
    ensures r.Some? ==>
      && r.value < |groups|
      && groups[r.value].isDefault
      && forall k :: 0 <= k < r.value ==> !groups[k].isDefault
    ensures r.None? ==> forall k :: 0 <= k < |groups| ==> !groups[k].isDefault
  {
    if groups == [] then None
    else if groups[0].isDefault then Some(0)
    else match FirstDefault(groups[1..])
      case None => None
      case Some(k) => Some(k + 1)
  }

  /** `(find(is_default) || data[0])?.watchlist_id || null`: an id of 0 reads as no selection. */
  function DefaultGroupId(groups: seq<Group>): (r: Option<int>)
    requires groups != []
    ensures r.Some? ==> !Unselected(r) && Listed(groups, r)
  {
    var g := match FirstDefault(groups) case Some(k) => groups[k] case None => groups[0];
    if g.watchlistId != 0 then Some(g.watchlistId) else None
  }

  /** `!selectedGroupId`: nothing selected, or the id 0. */
  predicate Unselected(id: Option<int>) {
    id.None? || id.value == 0
  }

  /** `json.data.some(g => g.watchlist_id === selectedGroupId)`. */
  predicate Listed(groups: seq<Group>, id: Option<int>) {
    id.Some? && exists k :: 0 <= k < |groups| && groups[k].watchlistId == id.value
  }

  /** The selection after a non-empty group list arrived. */
  function Reselect(groups: seq<Group>, current: Option<int>): (r: Option<int>)
    requires groups != []
    ensures r.Some? ==> !Unselected(r) && Listed(groups, r)
    ensures r == current || r == DefaultGroupId(groups)
  {
    if Unselected(current) || !Listed(groups, current) then DefaultGroupId(groups) else current
  }

  /**
   * A kept selection is a listed group; otherwise the first default group is chosen,
   * or the first group when none is default.
   */
  lemma ReselectChoosesListedOrDefault(groups: seq<Group>, current: Option<int>)
    requires groups != []
    ensures var r := Reselect(groups, current);
      && (r == current ==> Unselected(current) || Listed(groups, current))
      && (!Unselected(current) && Listed(groups, current) ==> r == current)
      && (Unselected(current) || !Listed(groups, current) ==>
            && ((exists k :: 0 <= k < |groups| && groups[k].isDefault) ==>
                  exists k :: 0 <= k < |groups| && groups[k].isDefault
                    && (forall j :: 0 <= j < k ==> !groups[j].isDefault)
                    && r == (if groups[k].watchlistId != 0 then Some(groups[k].watchlistId) else None))
            && ((forall k :: 0 <= k < |groups| ==> !groups[k].isDefault) ==>
                  r == (if groups[0].watchlistId != 0 then Some(groups[0].watchlistId) else None)))
  {
    if Unselected(current) || !Listed(groups, current) {
      if FirstDefault(groups).Some? {
        var k := FirstDefault(groups).value;
        assert groups[k].isDefault;
      }
    }
  }

  /** What `/api/watchlist/groups` answered. */
  datatype GroupsResponse =
    | Unreachable                                     // fetch or res.json() threw
    | Answer(success: bool, error: Option<string>, data: Option<seq<Group>>)  // data: None unless an array

  /** `json.error.includes('token') || json.error.includes('auth')`. */
  predicate AuthError(error: Option<string>) {
    Present(error) && (Includes(error.value, "token") || Includes(error.value, "auth"))
  }

  class SidebarState {
    var watchlist: seq<Item>
    var groups: seq<Group>
    var selectedGroupId: Option<int>
    var loading: bool
    var error: Option<string>
    var filter: Filter

    constructor()
      ensures watchlist == [] && groups == [] && selectedGroupId == None
      ensures loading && error == None && filter == NoFilter
    {
      watchlist := [];
      groups := [];
      selectedGroupId := None;
      loading := true;
      error := None;
      filter := NoFilter;
    }

    /** The list the sidebar renders. */
    function Shown(): seq<Item>
      reads this
    {
      FilteredWatchlist(watchlist, filter)
    }

    /**
     * `fetchGroups`, given what the endpoint answered. The `finally` reads the selection
     * captured when the effect ran, so `loading` is cleared only if nothing was selected then.
     */
    method FetchGroups(resp: GroupsResponse)
      modifies this
      ensures watchlist == old(watchlist) && filter == old(filter)
      ensures resp.Answer? && resp.success && resp.data.Some? && resp.data.value != [] ==>
        && groups == resp.data.value
        && selectedGroupId == Reselect(resp.data.value, old(selectedGroupId))
        && error == None
      ensures !(resp.Answer? && resp.success && resp.data.Some? && resp.data.value != []) ==>
        groups == old(groups) && selectedGroupId == old(selectedGroupId)
      ensures resp.Unreachable? ==> error == Some("Failed to load watchlist groups")
      ensures resp.Answer? && !resp.success ==> error == (if AuthError(resp.error) then resp.error else None)
      ensures resp.Answer? && resp.success && (resp.data.None? || resp.data.value == []) ==>
        error == Some("No watchlist groups found")
      ensures loading == (if Unselected(old(selectedGroupId)) then false else old(loading) || old(groups) == [])
    {
      var captured := selectedGroupId;
      if |groups| == 0 {
        loading := true;
      }
      error := None;
      match resp {
        case Unreachable =>
          error := Some("Failed to load watchlist groups");
        case Answer(success, err, data) =>
          if !success {
            if AuthError(err) {
              error := err;
            }
          } else if data.Some? && |data.value| > 0 {
            groups := data.value;
            if Unselected(selectedGroupId) || !Listed(data.value, selectedGroupId) {
              selectedGroupId := DefaultGroupId(data.value);
            }
          } else {
            error := Some("No watchlist groups found");
          }
      }
      if Unselected(captured) {
        loading := false;
      }
    }

    /** `handleFlagUpdate` for an 'emiten-flagged' event. */
    method OnFlagged(emiten: string, flag: Option<string>)
      modifies this
      ensures watchlist == FlagUpdate(old(watchlist), emiten, flag)
      ensures groups == old(groups) && selectedGroupId == old(selectedGroupId) && filter == old(filter)
      ensures loading == old(loading) && error == old(error)
    {
      watchlist := FlagUpdate(watchlist, emiten, flag);
    }

    /** The group dropdown (`Number(e.target.value)`). */
    method SelectGroup(id: int)
      modifies this
      ensures selectedGroupId == Some(id)
      ensures watchlist == old(watchlist) && groups == old(groups) && filter == old(filter)
      ensures loading == old(loading) && error == old(error)
    {
      selectedGroupId := Some(id);
    }

    /** The search box and the two dropdowns: the list shown follows the new filter at once. */
    method SetFilter(f: Filter)
      modifies this
      ensures filter == f && Shown() == FilteredWatchlist(watchlist, f)
      ensures watchlist == old(watchlist) && groups == old(groups) && selectedGroupId == old(selectedGroupId)
      ensures loading == old(loading) && error == old(error)
    {
      filter := f;
    }

    /** "Reset Filters": afterwards the whole watchlist is shown. */
    method ResetFilters()
      modifies this
      ensures filter == NoFilter && !FiltersActive(filter)
      ensures Shown() == watchlist
      ensures watchlist == old(watchlist) && groups == old(groups) && selectedGroupId == old(selectedGroupId)
      ensures loading == old(loading) && error == old(error)
    {
      filter := NoFilter;
      InactiveFilterShowsAll(watchlist, filter);
    }
  }
}
