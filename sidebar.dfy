/**
 * The sidebar: seven navigation links, the one for the current path
 * highlighted, and a spinner on the link whose page is loading.
 */
module Sidebar {
  import opened Wrappers

  datatype NavItem = NavItem(text: string, href: string)

  const NavItems: seq<NavItem> := [
    NavItem("Overview", "/"),
    NavItem("Win/Loss", "/win-loss"),
    NavItem("ICP Builder", "/icp"),
    NavItem("Competitors", "/competitors"),
    NavItem("Objections", "/objections"),
    NavItem("Transcripts", "/transcripts"),
    NavItem("Ask AI", "/ask")]

  /** How a link is drawn: highlighted when it is the current page, with a
      spinner when its page is loading. */
  datatype ItemView = ItemView(text: string, href: string, active: bool, loading: bool)

  /** The current path and the path being loaded, `null` when none. */
  class Nav {
    var pathname: string
    var loadingPath: Option<string>

    /** The spinner is never on the link of the page already shown. */
    predicate Valid()
      reads this
    {
      loadingPath.Some? ==> loadingPath.value != pathname
    }

    /** On mount the effect clears the loading path. */
    constructor(pathname: string)
      ensures this.pathname == pathname && loadingPath.None?
      ensures Valid()
    {
      this.pathname := pathname;
      loadingPath := None;
    }

    /** `handleNavClick(href)`: a link to another page starts loading it;
        the current page's link changes nothing. */
    method HandleNavClick(href: string)
      requires Valid()
      modifies this
      ensures pathname == old(pathname)
      ensures href != pathname ==> loadingPath == Some(href)
      ensures href == pathname ==> loadingPath == old(loadingPath)
      ensures Valid()
    {
      if pathname != href {
        loadingPath := Some(href);
      }
    }

    /** The router reports a path; the effect keyed on the path clears the
        loading path only when the path actually changed. */
    method PathChanged(path: string)
      requires Valid()
      modifies this
      ensures pathname == path
      ensures path != old(pathname) ==> loadingPath.None?
      ensures path == old(pathname) ==> loadingPath == old(loadingPath)
      ensures Valid()
    {
      if path != pathname {
        pathname := path;
        loadingPath := None;
      }
    }

    /** The links as drawn. */
    function Items(): (items: seq<ItemView>)
      reads this
      ensures |items| == |NavItems|
      ensures forall i :: 0 <= i < |items| ==>
        && items[i].text == NavItems[i].text && items[i].href == NavItems[i].href
        && (items[i].active <==> pathname == NavItems[i].href)
        && (items[i].loading <==> loadingPath == Some(NavItems[i].href))
    {
      var current, pending := pathname, loadingPath;
      seq(|NavItems|, i requires 0 <= i < |NavItems| =>
        ItemView(NavItems[i].text, NavItems[i].href,
                 current == NavItems[i].href, pending == Some(NavItems[i].href)))
    }
  }

  /** No two links share a path: their lengths or second characters
      differ. */
  lemma HrefsDistinct(i: nat, j: nat)
    requires i < j < |NavItems|
    ensures NavItems[i].href != NavItems[j].href
  {
    assert NavItems[0].href == "/";
    assert NavItems[1].href[1] == 'w' && NavItems[2].href[1] == 'i' && NavItems[3].href[1] == 'c';
    assert NavItems[4].href[1] == 'o' && NavItems[5].href[1] == 't' && NavItems[6].href[1] == 'a';
    if i > 0 {
      assert NavItems[i].href[1] != NavItems[j].href[1];
    }
  }

  /** At most one link is highlighted and at most one has a spinner, and
      once the pathname effect has run the two are never the same link. */
  lemma OneActiveOneLoading(nav: Nav, i: nat, j: nat)
    requires nav.Valid()
    requires i < j < |NavItems|
    ensures !(nav.Items()[i].active && nav.Items()[j].active)
    ensures !(nav.Items()[i].loading && nav.Items()[j].loading)
    ensures !(nav.Items()[i].active && nav.Items()[i].loading)
  {
    HrefsDistinct(i, j);
  }

  /** Clicking a link to another page and then arriving there leaves that
      link highlighted and no spinner anywhere. */
  method ClickThenArrive(nav: Nav, i: nat)
    requires nav.Valid() && i < |NavItems|
    requires nav.pathname != NavItems[i].href
    modifies nav
    ensures nav.Valid()
    ensures nav.Items()[i].active
    ensures forall k :: 0 <= k < |NavItems| ==> !nav.Items()[k].loading
  {
    nav.HandleNavClick(NavItems[i].href);
    assert nav.Items()[i].loading;
    nav.PathChanged(NavItems[i].href);
  }
}
