/** The top bar (src/scenes/global/Topbar.jsx): a search box that publishes its text to the
    search context (src/context/searchContext.js) only when the text is not blank, and two menus
    that are open exactly while they hold an anchor element. */
module Topbar {
  import opened Wrappers
  import JsText

  /** A DOM element a menu can be anchored to (`event.currentTarget`). */
  datatype Element = Element(handle: nat)

  /** The search-context value a sink may hold: empty, or with some non-whitespace character. */
  ghost predicate Publishable(v: string) {
    v == "" || JsText.HasNonWhitespace(v)
  }

  class TopbarState {
    var searchValue: string
    var profileAnchor: Option<Element>
    var notificationsAnchor: Option<Element>
    /** Every value passed to `handleSearch`, oldest first; the context stores the last one. */
    var published: seq<string>

    /** Nothing blank-but-non-empty is ever published. */
    ghost predicate Valid()
      reads this
    {
      forall i :: 0 <= i < |published| ==> Publishable(published[i])
    }

    constructor ()
      ensures Valid()
      ensures searchValue == "" && profileAnchor == None && notificationsAnchor == None && published == []
    {
      searchValue, profileAnchor, notificationsAnchor, published := "", None, None, [];
    }

    /** `!searchValue.trim()`: the search button is disabled exactly when the text is blank. */
    function SearchDisabled(): (b: bool)
      reads this
      ensures b <==> !JsText.HasNonWhitespace(searchValue)
    {
      JsText.Trim(searchValue) == ""
    }

    /** The clear button is shown exactly when the text is non-empty, blank or not. */
    function ClearVisible(): (b: bool)
      reads this
      ensures b <==> |searchValue| > 0
    {
      searchValue != ""
    }

    /** The value the search context holds: the last one published, initially `""`. */
    function ContextValue(): (v: string)
      requires Valid()
      reads this
      ensures Publishable(v)
      ensures published != [] ==> v == published[|published| - 1]
    {
      if published == [] then "" else published[|published| - 1]
    }

    /** `Boolean(profileAnchor)`. */
    function ProfileMenuOpen(): (b: bool)
      reads this
      ensures b <==> profileAnchor != None
    {
      profileAnchor.Some?
    }

    /** `Boolean(notificationsAnchor)`. */
    function NotificationsMenuOpen(): (b: bool)
      reads this
      ensures b <==> notificationsAnchor != None
    {
      notificationsAnchor.Some?
    }

    /** `handleInputChange`: store the typed text verbatim; nothing is published. */
    method InputChange(value: string)
      requires Valid()
      modifies this`searchValue
      ensures Valid()
      ensures searchValue == value
      ensures ClearVisible() <==> value != ""
      ensures SearchDisabled() <==> !JsText.HasNonWhitespace(value)
    {
      searchValue := value;
    }

    /** `handleSearchClick`: publish the untrimmed text when it is not blank, otherwise do nothing. */
    method SearchClick()
      requires Valid()
      modifies this`published
      ensures Valid()
      ensures JsText.HasNonWhitespace(searchValue) ==> published == old(published) + [searchValue]
      ensures !JsText.HasNonWhitespace(searchValue) ==> published == old(published)
    {
      if JsText.Trim(searchValue) != "" {
        published := published + [searchValue];
      }
    }

    /** `handleKeyPress`: publish the untrimmed text on Enter when it is not blank. */
    method KeyPress(key: string)
      requires Valid()
      modifies this`published
      ensures Valid()
      ensures key == "Enter" && JsText.HasNonWhitespace(searchValue) ==> published == old(published) + [searchValue]
      ensures !(key == "Enter" && JsText.HasNonWhitespace(searchValue)) ==> published == old(published)
    {
      if key == "Enter" && JsText.Trim(searchValue) != "" {
        published := published + [searchValue];
      }
    }

    /** `handleClearSearch`: empty the text and publish `""`. */
    method ClearSearch()
      requires Valid()
      modifies this`searchValue, this`published
      ensures Valid()
      ensures searchValue == "" && published == old(published) + [""]
      ensures !ClearVisible() && SearchDisabled()
      ensures ContextValue() == ""
    {
      searchValue := "";
      published := published + [""];
    }

    /** `handleProfileMenuOpen`: anchor the menu at the event target, which opens it. */
    method OpenProfileMenu(target: Element)
      modifies this`profileAnchor
      ensures profileAnchor == Some(target)
      ensures ProfileMenuOpen() && NotificationsMenuOpen() == old(NotificationsMenuOpen())
    {
      profileAnchor := Some(target);
    }

    /** `handleProfileMenuClose`: drop the anchor, which closes the menu. */
    method CloseProfileMenu()
      modifies this`profileAnchor
      ensures profileAnchor == None
      ensures !ProfileMenuOpen() && NotificationsMenuOpen() == old(NotificationsMenuOpen())
    {
      profileAnchor := None;
    }

    /** `handleNotificationsMenuOpen`: anchor the menu at the event target, which opens it. */
    method OpenNotificationsMenu(target: Element)
      modifies this`notificationsAnchor
      ensures notificationsAnchor == Some(target)
      ensures NotificationsMenuOpen() && ProfileMenuOpen() == old(ProfileMenuOpen())
    {
      notificationsAnchor := Some(target);
    }

    /** `handleNotificationsMenuClose`: drop the anchor, which closes the menu. */
    method CloseNotificationsMenu()
      modifies this`notificationsAnchor
      ensures notificationsAnchor == None
      ensures !NotificationsMenuOpen() && ProfileMenuOpen() == old(ProfileMenuOpen())
    {
      notificationsAnchor := None;
    }
  }
}
