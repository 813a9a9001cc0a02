/**
 * The page layout of src/components/Layout/Layout.jsx: which view the route
 * selects and which address the menu, the timeline and the ledger show.
 */
module Layout {
  import opened Wrappers

  datatype View = Home | Dao | Address | Period

  /** The route parameters `dao`, `address` and `period`; each may be missing. */
  datatype Route = Route(dao: Option<string>, address: Option<string>, period: Option<string>)

  /** What a child component receives. */
  datatype ChildProps = ChildProps(address: Option<string>, view: View)

  /** The fixed query the timeline runs beside its address and view. */
  datatype TimelineQuery = TimelineQuery(field: string, first: nat, skip: nat, orderBy: string, orderDirection: string)

  /** The three children the layout renders. */
  datatype Screen = Screen(menu: ChildProps, timeline: ChildProps, query: TimelineQuery, ledger: ChildProps)

  /** A route parameter is truthy when present and not the empty string. */
  predicate Truthy(p: Option<string>) {
    p.Some? && p.value != ""
  }

  /**
   * The view and the address to render: `dao` first, then `address`, then
   * `period`; home when none is given. Only `dao` and `address` replace the
   * address the layout was given.
   */
  function Resolve(route: Route, propsAddress: Option<string>): (r: ChildProps)
    ensures r.view == Dao <==> Truthy(route.dao)
    ensures r.view == Address <==> !Truthy(route.dao) && Truthy(route.address)
    ensures r.view == Period <==> !Truthy(route.dao) && !Truthy(route.address) && Truthy(route.period)
    ensures r.view == Home <==> !Truthy(route.dao) && !Truthy(route.address) && !Truthy(route.period)
    ensures r.view == Dao ==> r.address == route.dao
    ensures r.view == Address ==> r.address == route.address
    ensures r.view in {Period, Home} ==> r.address == propsAddress
  {
    if Truthy(route.dao) then ChildProps(route.dao, Dao)
    else if Truthy(route.address) then ChildProps(route.address, Address)
    else if Truthy(route.period) then ChildProps(propsAddress, Period)
    else ChildProps(propsAddress, Home)
  }

  /** `Layout`: the menu, the timeline and the ledger, all given the resolved address and view. */
  function Render(route: Route, propsAddress: Option<string>): (s: Screen)
    ensures s.menu == s.timeline == s.ledger
    ensures s.menu.view == Resolve(route, propsAddress).view && s.menu.address == Resolve(route, propsAddress).address
    ensures s.query == TimelineQuery("memberAddress", 25, 0, "createdAt", "desc")
  {
    var props := Resolve(route, propsAddress);
    Screen(props, props, TimelineQuery("memberAddress", 25, 0, "createdAt", "desc"), props)
  }

  /** A truthy `dao` decides alone: `address` and `period` make no difference. */
  lemma DaoOverridesRest(route: Route, other: Route, propsAddress: Option<string>)
    requires Truthy(route.dao) && other.dao == route.dao
    ensures Resolve(route, propsAddress) == Resolve(other, propsAddress)
  {
  }
}
