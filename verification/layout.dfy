/** The page frame around every screen: the guest-mode decision, what the
    frame renders for the landing page and for a feed without an event code,
    and the copy protection that swallows copy, paste, cut and save shortcuts,
    PrintScreen and the context menu outside elements marked `allow-copy`. */
module Layout {
  import opened Common
  import Routing

  const HomePage: string := "Home"
  const FeedPage: string := "EventFeed"
  const GuestEntryPage: string := "GuestEntry"

  /** The effect's decision: guest mode exactly when the query has a non-empty
      `code` and the page is the feed or the guest entry. */
  predicate GuestMode(code: Option<string>, pageName: string) {
    Present(code) && (pageName == FeedPage || pageName == GuestEntryPage)
  }

  /** What the frame renders. */
  datatype Frame =
    | ChildrenOnly  // the landing page: the screen itself, no header
    | RedirectHome  // nothing, while navigating to the landing page
    | GuestFrame    // a header with only the way back to the landing page
    | FullFrame     // the header with the account menu

  /** The frame for a page, given the guest flag the effect last stored. */
  function Render(pageName: string, code: Option<string>, guestMode: bool): (r: Frame)
    ensures r == ChildrenOnly <==> pageName == HomePage
    ensures r == RedirectHome <==> pageName == FeedPage && !Present(code)
    ensures pageName != HomePage && !(pageName == FeedPage && !Present(code)) ==>
      (r == GuestFrame <==> guestMode)
  {
    if pageName == HomePage then ChildrenOnly
    else if pageName == FeedPage && !Present(code) then RedirectHome
    else if guestMode then GuestFrame
    else FullFrame
  }

  /** Once the effect has run for the page shown, the guest frame appears
      exactly for the feed and the guest entry with a code, and the feed never
      appears with the full frame. */
  lemma {:induction false} RenderAfterEffect(pageName: string, code: Option<string>)
    ensures var r := Render(pageName, code, GuestMode(code, pageName));
      (r == GuestFrame <==> Present(code) && (pageName == FeedPage || pageName == GuestEntryPage))
      && (pageName == FeedPage ==> r == RedirectHome || r == GuestFrame)
      && (r == FullFrame ==> pageName != FeedPage && pageName != HomePage)
  {
  }

  /** The site root is the feed, so opening it without a code sends the
      visitor to the landing page, and with a code shows the guest frame. */
  lemma {:induction false} RootNeedsCode(url: string, code: Option<string>)
    requires url == "/" || url == ""
    ensures !Present(code) ==> Render(Routing.CurrentPage(url), code, false) == RedirectHome
    ensures Present(code) ==> Render(Routing.CurrentPage(url), code, GuestMode(code, Routing.CurrentPage(url))) == GuestFrame
  {
    Routing.RootIsFeed(url);
  }

  /** A `keydown` event: the key's name, the modifier flags, and whether the
      target sits inside an `allow-copy` element. */
  datatype KeyEvent = KeyEvent(key: string, ctrlKey: bool, metaKey: bool, insideAllowCopy: bool)

  predicate ShortcutKey(key: string) {
    key == "c" || key == "v" || key == "x" || key == "s"
  }

  /** `handleKeyDown` calls `preventDefault`. */
  predicate KeyBlocked(e: KeyEvent) {
    if e.insideAllowCopy then false
    else ((e.ctrlKey || e.metaKey) && ShortcutKey(e.key)) || e.key == "PrintScreen"
  }

  /** The shortcut keys are compared as typed: with Shift held the key is the
      capital letter and passes; without a modifier the letter passes too. */
  lemma {:induction false} ShortcutsAreLowerCaseOnly()
    ensures !KeyBlocked(KeyEvent("C", true, false, false))
    ensures KeyBlocked(KeyEvent("c", true, false, false)) && KeyBlocked(KeyEvent("s", false, true, false))
    ensures !KeyBlocked(KeyEvent("c", false, false, false))
    ensures KeyBlocked(KeyEvent("PrintScreen", false, false, false))
  {
  }

  /** `handleContextMenu` calls `preventDefault`. */
  predicate ContextMenuBlocked(insideAllowCopy: bool) {
    !insideAllowCopy
  }

  /** Whatever an `allow-copy` element receives goes through; elsewhere typing
      without a modifier is never swallowed, except PrintScreen, while the
      context menu always is. */
  lemma {:induction false} AllowCopyPassesEverything(key: string, ctrlKey: bool, metaKey: bool, inside: bool)
    ensures !KeyBlocked(KeyEvent(key, ctrlKey, metaKey, true)) && !ContextMenuBlocked(true)
    ensures key != "PrintScreen" ==> !KeyBlocked(KeyEvent(key, false, false, inside))
    ensures ContextMenuBlocked(false)
  {
  }
}
