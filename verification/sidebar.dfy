/**
  The navigation sidebar: five menu items, a mobile mode decided by the
  window width, a mobile menu that a button opens and closes, a backdrop
  that closes it, and per-item active and hover highlighting.

  The window width is a parameter of the resize check; `activeView` is the
  parent's prop and `onViewChange` is reported as the returned view id.
 */
module Sidebar {
  import opened Js

  /** Below this width (in pixels) the sidebar is in mobile mode. */
  const MobileWidth: int := 768

  datatype MenuItem = MenuItem(id: string, caption: string)

  const MenuItems: seq<MenuItem> := [
    MenuItem("home", "Home"),
    MenuItem("chat", "Chat"),
    MenuItem("models", "Models"),
    MenuItem("3d-view", "3D View"),
    MenuItem("settings", "Settings")
  ]

  /** `activeView === item.id`. */
  predicate IsActive(activeView: string, item: MenuItem)
    ensures item in MenuItems && IsActive(activeView, item) ==>
      forall j :: 0 <= j < |MenuItems| && MenuItems[j] != item ==> MenuItems[j].id != activeView
  {
    IdsDistinct();
    activeView == item.id
  }

  /** The five ids are distinct. */
  lemma IdsDistinct()
    ensures forall i, j :: 0 <= i < j < |MenuItems| ==> MenuItems[i].id != MenuItems[j].id
  {
  }

  /** Whatever the active view, at most one item is highlighted as active. */
  lemma AtMostOneActive(activeView: string, i: nat, j: nat)
    requires i < |MenuItems| && j < |MenuItems|
    requires IsActive(activeView, MenuItems[i]) && IsActive(activeView, MenuItems[j])
    ensures i == j
  {
    IdsDistinct();
  }

  /** One rendered menu button. */
  datatype Button = Button(id: string, active: bool, glow: bool, tooltip: bool)

  class Nav {
    var isMobile: bool
    var isMobileOpen: bool
    var hoveredItem: Option<string>

    /** The mobile menu can only be open in mobile mode. */
    ghost predicate Valid()
      reads this
    {
      isMobileOpen ==> isMobile
    }

    /** Mounting runs the resize check once. */
    constructor (width: int)
      ensures Valid()
      ensures isMobile == (width < MobileWidth) && !isMobileOpen && hoveredItem == None
    {
      isMobile := width < MobileWidth;
      isMobileOpen := false;
      hoveredItem := None;
    }

    /** checkMobile on a resize: mobile iff narrower than 768; a wide window
        also closes the mobile menu. */
    method CheckMobile(width: int)
      requires Valid()
      modifies this
      ensures Valid()
      ensures isMobile == (width < MobileWidth)
      ensures isMobileOpen == (old(isMobileOpen) && width < MobileWidth)
      ensures hoveredItem == old(hoveredItem)
    {
      isMobile := width < MobileWidth;
      if width >= MobileWidth {
        isMobileOpen := false;
      }
    }

    /** handleNavClick: the item's id goes to onViewChange; in mobile mode the
        menu closes, on the desktop the open flag is left alone. */
    method NavClick(k: nat) returns (view: string)
      requires Valid() && k < |MenuItems|
      modifies this
      ensures Valid()
      ensures view == MenuItems[k].id
      ensures isMobileOpen == (old(isMobileOpen) && !isMobile)
      ensures isMobile == old(isMobile) && hoveredItem == old(hoveredItem)
    {
      view := MenuItems[k].id;
      if isMobile {
        isMobileOpen := false;
      }
    }

    /** The menu button, rendered only in mobile mode, flips the open flag. */
    method MenuButton()
      requires Valid() && isMobile
      modifies this
      ensures Valid()
      ensures isMobileOpen == !old(isMobileOpen)
      ensures isMobile == old(isMobile) && hoveredItem == old(hoveredItem)
    {
      isMobileOpen := !isMobileOpen;
    }

    /** A click on the backdrop, which is there only while the mobile menu is open. */
    method BackdropClick()
      requires Valid() && isMobile && isMobileOpen
      modifies this
      ensures Valid()
      ensures !isMobileOpen
      ensures isMobile == old(isMobile) && hoveredItem == old(hoveredItem)
    {
      isMobileOpen := false;
    }

    method HoverStart(k: nat)
      requires Valid() && k < |MenuItems|
      modifies this
      ensures Valid()
      ensures hoveredItem == Some(MenuItems[k].id)
      ensures isMobile == old(isMobile) && isMobileOpen == old(isMobileOpen)
    {
      hoveredItem := Some(MenuItems[k].id);
    }

    method HoverEnd()
      requires Valid()
      modifies this
      ensures Valid()
      ensures hoveredItem == None
      ensures isMobile == old(isMobile) && isMobileOpen == old(isMobileOpen)
    {
      hoveredItem := None;
    }

    /** The sidebar slides out (x = -100, opacity 0) exactly in mobile mode
        with the menu closed. */
    function Hidden(): (h: bool)
      reads this
      ensures h <==> isMobile && !isMobileOpen
    {
      isMobile && !isMobileOpen
    }

    /** The backdrop is shown exactly while the mobile menu is open. */
    function BackdropShown(): (b: bool)
      reads this
      requires Valid()
      ensures b <==> isMobileOpen
    {
      isMobile && isMobileOpen
    }

    /** The menu buttons: active iff the view is the item's, glowing when
        active or hovered, with a tooltip only on the desktop while hovered. */
    function Buttons(activeView: string): (bs: seq<Button>)
      reads this
      ensures |bs| == |MenuItems|
      ensures forall k :: 0 <= k < |bs| ==>
        bs[k].id == MenuItems[k].id &&
        (bs[k].active <==> IsActive(activeView, MenuItems[k])) &&
        (bs[k].glow <==> bs[k].active || hoveredItem == Some(MenuItems[k].id)) &&
        (bs[k].tooltip <==> !isMobile && hoveredItem == Some(MenuItems[k].id))
    {
      var hovered := hoveredItem;
      var mobile := isMobile;
      seq(|MenuItems|, k requires 0 <= k < |MenuItems| =>
        var active := IsActive(activeView, MenuItems[k]);
        var isHovered := hovered == Some(MenuItems[k].id);
        Button(MenuItems[k].id, active, active || isHovered, !mobile && isHovered))
    }
  }

  /** Clicking an item in mobile mode navigates there and reveals nothing:
      the menu ends closed and the sidebar hidden. */
  method MobileNavigation(nav: Nav, k: nat) returns (view: string)
    requires nav.Valid() && nav.isMobile && k < |MenuItems|
    modifies nav
    ensures view == MenuItems[k].id && nav.Hidden()
  {
    view := nav.NavClick(k);
  }
}
