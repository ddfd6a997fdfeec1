/** The navbar hook of src/type/useNavbarLogic.ts: six fixed section
    links, the selected one, and a logged-in flag local to the navbar. */
module NavbarLogic {
  import opened Wrappers
  import opened Js

  datatype LinkItem = LinkItem(text: string, href: string)

  /** `linkItems`. */
  function LinkItems(): (r: seq<LinkItem>)
    ensures |r| == 6
  {
    [LinkItem("Novità", "#novita"), LinkItem("Popolari", "#popolari"), LinkItem("Offerte", "#offerta"),
     LinkItem("Libri", "#libri"), LinkItem("Comix", "#comix"), LinkItem("Manga", "#manga")]
  }

  /** Every link points at an anchor on the page, and no two links share a
      label or a target. */
  lemma LinkItemsDistinct()
    ensures forall i :: 0 <= i < |LinkItems()| ==> |LinkItems()[i].href| > 1 && LinkItems()[i].href[0] == '#'
    ensures forall i, j :: 0 <= i < j < |LinkItems()| ==>
              LinkItems()[i].text != LinkItems()[j].text && LinkItems()[i].href != LinkItems()[j].href
  {
    var r := LinkItems();
    forall i, j | 0 <= i < j < |r| ensures r[i].text != r[j].text && r[i].href != r[j].href {
      assert r[i].text[0] != r[j].text[0];
      assert r[i].href[1] != r[j].href[1];
    }
  }

  /** `onSelect(selectedKey)`: a non-empty key becomes active; null or ""
      leaves the active key as it was. */
  function Select(activeKey: string, selectedKey: Option<string>): (r: string)
    ensures TruthyText(selectedKey) ==> r == selectedKey.value
    ensures !TruthyText(selectedKey) ==> r == activeKey
  {
    if TruthyText(selectedKey) then selectedKey.value else activeKey
  }

  /** Selecting the same key twice is selecting it once, and a later
      non-empty selection overrides an earlier one. */
  lemma SelectIdempotent(activeKey: string, k: Option<string>, later: Option<string>)
    ensures Select(Select(activeKey, k), k) == Select(activeKey, k)
    ensures TruthyText(later) ==> Select(Select(activeKey, k), later) == Select(activeKey, later)
  {
  }

  /** The active key is never empty: it starts as a label and only a
      non-empty key replaces it. */
  lemma SelectKeepsNonEmpty(activeKey: string, k: Option<string>)
    requires activeKey != ""
    ensures Select(activeKey, k) != ""
  {
  }

  class Navbar {
    var activeKey: string
    var isLoggedIn: bool

    /** The initial state: the first label, logged out. */
    constructor ()
      ensures activeKey == LinkItems()[0].text && activeKey == "Novità" && !isLoggedIn
    {
      activeKey := LinkItems()[0].text;
      isLoggedIn := false;
    }

    method OnSelect(selectedKey: Option<string>)
      modifies this
      ensures activeKey == Select(old(activeKey), selectedKey) && isLoggedIn == old(isLoggedIn)
    {
      if TruthyText(selectedKey) {
        activeKey := selectedKey.value;
      }
    }

    method HandleLogin()
      modifies this
      ensures isLoggedIn && activeKey == old(activeKey)
    {
      isLoggedIn := true;
    }

    method HandleLogout()
      modifies this
      ensures !isLoggedIn && activeKey == old(activeKey)
    {
      isLoggedIn := false;
    }
  }

  /** A client: logging in twice is logging in once; an empty selection
      keeps the first section active. */
  method LoginTwiceThenSelectNothing()
  {
    var nav := new Navbar();
    nav.HandleLogin();
    nav.HandleLogin();
    nav.OnSelect(Some(""));
    nav.OnSelect(None);
    assert nav.isLoggedIn && nav.activeKey == "Novità";
    nav.HandleLogout();
    assert !nav.isLoggedIn;
  }
}
