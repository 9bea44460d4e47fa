/** components/MobileSidebar.tsx: a floating button opens a slide-in panel
    over an overlay; the panel holds the "all posts" link with the total
    and the two collapsible sections of the placeholder category list.
    Every link, the overlay and the close button close the panel. */
module MobileSidebar {
  import opened Wrappers
  import opened Text
  import opened Categories

  /** A category link of the panel; the icon is shown only when it is
      non-empty. Following it closes the panel. */
  datatype CategoryLink = CategoryLink(category: Category, href: string, shownIcon: Option<string>)

  datatype MobileView = MobileView(
    overlay: bool,
    panelShown: bool,
    total: int,
    techLinks: Option<seq<CategoryLink>>,
    workLinks: Option<seq<CategoryLink>>)

  function Links(section: seq<Category>): (links: seq<CategoryLink>)
    ensures |links| == |section|
    ensures forall i :: 0 <= i < |links| ==>
              links[i].category == section[i] && links[i].href == CategoryHref(section[i].id) &&
              (links[i].shownIcon.Some? <==> Truthy(section[i].icon)) &&
              (links[i].shownIcon.Some? ==> links[i].shownIcon == section[i].icon)
  {
    seq(|section|, i requires 0 <= i < |section| =>
      CategoryLink(section[i], CategoryHref(section[i].id), if Truthy(section[i].icon) then section[i].icon else None))
  }

  function View(isOpen: bool, isTechOpen: bool, isWorkOpen: bool): (v: MobileView)
    ensures v.overlay <==> isOpen
    ensures v.panelShown <==> isOpen
    ensures v.total == 113
    ensures v.techLinks.Some? <==> isTechOpen
    ensures v.workLinks.Some? <==> isWorkOpen
    ensures v.techLinks.Some? ==> v.techLinks.value == Links(DefaultTech)
    ensures v.workLinks.Some? ==> v.workLinks.value == Links(DefaultWork)
  {
    DefaultTotals();
    DefaultSections();
    MobileView(
      overlay := isOpen,
      panelShown := isOpen,
      total := Total(DefaultCategories),
      techLinks := if isTechOpen then Some(Links(OfKind(DefaultCategories, Tech))) else None,
      workLinks := if isWorkOpen then Some(Links(OfKind(DefaultCategories, Work))) else None)
  }

  class MobileSidebar {
    var isOpen: bool
    var isTechOpen: bool
    var isWorkOpen: bool

    /** The panel starts closed with both sections expanded. */
    constructor ()
      ensures !isOpen && isTechOpen && isWorkOpen
    {
      isOpen := false;
      isTechOpen := true;
      isWorkOpen := true;
    }

    function Current(): MobileView
      reads this
    {
      View(isOpen, isTechOpen, isWorkOpen)
    }

    /** The floating button. */
    method Open()
      modifies this`isOpen
      ensures isOpen
    {
      isOpen := true;
    }

    /** The overlay, the close button, the "all posts" link and every
        category link. */
    method Close()
      modifies this`isOpen
      ensures !isOpen
    {
      isOpen := false;
    }

    method ToggleTech()
      modifies this`isTechOpen
      ensures isTechOpen == !old(isTechOpen)
    {
      isTechOpen := !isTechOpen;
    }

    method ToggleWork()
      modifies this`isWorkOpen
      ensures isWorkOpen == !old(isWorkOpen)
    {
      isWorkOpen := !isWorkOpen;
    }
  }
}
