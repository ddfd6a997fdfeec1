/** The second navbar hook, src/logics/useNavbarLogic.ts: the same link
    list and selection, without the logged-in flag. */
module NavbarSelection {
  import opened Wrappers
  import N = NavbarLogic

  /** This file's own `linkItems`. */
  function LinkItems(): (r: seq<N.LinkItem>)
    ensures |r| == 6
  {
    [N.LinkItem("Novità", "#novita"), N.LinkItem("Popolari", "#popolari"), N.LinkItem("Offerte", "#offerta"),
     N.LinkItem("Libri", "#libri"), N.LinkItem("Comix", "#comix"), N.LinkItem("Manga", "#manga")]
  }

  /** Both hooks carry the same six label/href pairs in the same order. */
  lemma SameLinks()
    ensures LinkItems() == N.LinkItems()
  {
  }

  class NavbarState {
    var activeKey: string

    constructor ()
      ensures activeKey == LinkItems()[0].text && activeKey == "Novità"
    {
      activeKey := LinkItems()[0].text;
    }

    /** `onSelect` of this hook is the selection of the other. */
    method OnSelect(selectedKey: Option<string>)
      modifies this
      ensures activeKey == N.Select(old(activeKey), selectedKey)
    {
      if selectedKey.Some? && selectedKey.value != "" {
        activeKey := selectedKey.value;
      }
    }
  }

  /** A client: selecting every section in turn leaves the last one active. */
  method SelectAll()
  {
    var nav := new NavbarState();
    var links := LinkItems();
    var i := 0;
    while i < |links|
      invariant 0 <= i <= |links|
      invariant i > 0 ==> nav.activeKey == links[i - 1].text
    {
      nav.OnSelect(Some(links[i].text));
      i := i + 1;
    }
    assert nav.activeKey == "Manga";
  }
}
