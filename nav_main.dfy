/** The sidebar's main navigation (components/nav-main.tsx): collapsible sections
    whose open titles are kept in a list, an effect that opens the section holding
    the current page, and the active-item highlighting. */
module NavMain {
  import opened Common

  datatype SubItem = SubItem(title: string, url: string)

  /** A section; `items` is absent for a section without sub-items. */
  datatype NavItem = NavItem(title: string, url: string, items: Option<seq<SubItem>>)

  /** `isSubItemActive`: sub-item urls are written without their leading slash. */
  predicate IsSubItemActive(url: string, pathname: string) {
    "/" + url == pathname
  }

  /** `isMainItemActive`: `items?.some(...)`, false for a section without sub-items. */
  predicate IsMainItemActive(item: NavItem, pathname: string) {
    item.items.Some? && exists j :: 0 <= j < |item.items.value| && IsSubItemActive(item.items.value[j].url, pathname)
  }

  /** `items.find(...)`: the first section holding the current page. */
  function CurrentSection(items: seq<NavItem>, pathname: string): (section: Option<NavItem>)
    ensures section.Some? <==> exists i :: 0 <= i < |items| && IsMainItemActive(items[i], pathname)
    ensures section.Some? ==>
      exists i :: (0 <= i < |items| && items[i] == section.value && IsMainItemActive(items[i], pathname)
                   && forall k :: 0 <= k < i ==> !IsMainItemActive(items[k], pathname))
  {
    if items == [] then None
    else if IsMainItemActive(items[0], pathname) then Some(items[0])
    else
      var rest := CurrentSection(items[1..], pathname);
      assert forall i :: 1 <= i < |items| ==> items[i] == items[1..][i-1];
      rest
  }

  function NotTitle(title: string): string -> bool {
    t => t != title
  }

  /** The list after `handleCollapsibleChange(title, isOpen)`. */
  function Toggled(open: seq<string>, title: string, isOpen: bool): (r: seq<string>)
    // Opening appends, even a title already in the list.
    ensures isOpen ==> r == open + [title]
    // Closing removes every copy of the title and keeps the others, in order.
    ensures !isOpen ==> title !in r && (forall t :: t in r <==> t in open && t != title) && IsSubsequence(r, open)
    ensures !isOpen ==> forall t :: t != title ==> multiset(r)[t] == multiset(open)[t]
  {
    if isOpen then open + [title]
    else
      FilterMembership(open, NotTitle(title));
      FilterIsSubsequence(open, NotTitle(title));
      FilterKeepsCounts(open, title);
      Filter(open, NotTitle(title))
  }

  lemma {:induction false} FilterKeepsCounts(open: seq<string>, title: string)
    ensures forall t :: t != title ==> multiset(Filter(open, NotTitle(title)))[t] == multiset(open)[t]
  {
    if open != [] {
      FilterKeepsCounts(open[1..], title);
      assert open == [open[0]] + open[1..];
    }
  }

  /** The list after the effect: the current page's section is added when missing. */
  function Synced(open: seq<string>, items: seq<NavItem>, pathname: string): (r: seq<string>)
    ensures CurrentSection(items, pathname).Some? ==> CurrentSection(items, pathname).value.title in r
    ensures CurrentSection(items, pathname).None? || CurrentSection(items, pathname).value.title in open ==> r == open
    ensures open <= r && |r| <= |open| + 1
  {
    match CurrentSection(items, pathname)
    case None => open
    case Some(section) => if section.title !in open then open + [section.title] else open
  }

  /** The effect runs again whenever the list changes; the second run changes nothing,
      so it settles after adding at most one title. */
  lemma SyncSettles(open: seq<string>, items: seq<NavItem>, pathname: string)
    ensures Synced(Synced(open, items, pathname), items, pathname) == Synced(open, items, pathname)
  {
  }

  /** Opening a section that is already open gives it a second entry, and one close
      still removes both. */
  lemma ReopenDuplicates(open: seq<string>, title: string)
    requires title in open
    ensures multiset(Toggled(open, title, true))[title] >= 2
    ensures title !in Toggled(Toggled(open, title, true), title, false)
  {
    assert multiset(open + [title]) == multiset(open) + multiset{title};
  }

  class NavMenu {
    var openSections: seq<string>
    const items: seq<NavItem>

    /** Every section starts closed. */
    constructor (items: seq<NavItem>)
      ensures this.items == items && openSections == []
    {
      this.items := items;
      openSections := [];
    }

    /** The `open` prop of a section's collapsible. */
    predicate IsOpen(title: string)
      reads this
    {
      title in openSections
    }

    /** `handleCollapsibleChange`. */
    method HandleCollapsibleChange(title: string, isOpen: bool)
      modifies this
      ensures openSections == Toggled(old(openSections), title, isOpen)
      ensures IsOpen(title) == isOpen
    {
      if isOpen {
        openSections := openSections + [title];
      } else {
        openSections := Filter(openSections, NotTitle(title));
        FilterMembership(old(openSections), NotTitle(title));
      }
    }

    /** The effect on `pathname`, `items` and `openSections`. */
    method SyncCurrentSection(pathname: string)
      modifies this
      ensures openSections == Synced(old(openSections), items, pathname)
      ensures CurrentSection(items, pathname).Some? ==> IsOpen(CurrentSection(items, pathname).value.title)
    {
      var current := CurrentSection(items, pathname);
      if current.Some? && current.value.title !in openSections {
        openSections := openSections + [current.value.title];
      }
    }
  }
}
