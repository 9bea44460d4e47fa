/** components/Sidebar.tsx: the desktop sidebar. It shows an "all posts"
    entry with the total, and two collapsible sections (technical, work)
    whose entries link to their category pages; the entry of the selected
    category is highlighted. */
module Sidebar {
  import opened Wrappers
  import opened Text
  import opened Categories

  /** One entry of a section; the icon is shown only when it is non-empty. */
  datatype Item = Item(category: Category, href: string, selected: bool, shownIcon: Option<string>)

  /** What the sidebar shows. A collapsed section has no item list. */
  datatype SidebarView = SidebarView(
    allPostsHighlighted: bool,
    total: int,
    techItems: Option<seq<Item>>,
    workItems: Option<seq<Item>>)

  /** `techCategories.map(...)` / `workCategories.map(...)`: one entry per
      category, in order, selected when its id is the selected one. */
  function Items(section: seq<Category>, selectedCategory: Option<string>): (items: seq<Item>)
    ensures |items| == |section|
    ensures forall i :: 0 <= i < |items| ==>
              items[i].category == section[i] &&
              items[i].href == CategoryHref(section[i].id) &&
              (items[i].selected <==> selectedCategory == Some(section[i].id)) &&
              (items[i].shownIcon.Some? <==> Truthy(section[i].icon)) &&
              (items[i].shownIcon.Some? ==> items[i].shownIcon == section[i].icon)
  {
    seq(|section|, i requires 0 <= i < |section| =>
      Item(section[i], CategoryHref(section[i].id), selectedCategory == Some(section[i].id),
           if Truthy(section[i].icon) then section[i].icon else None))
  }

  function View(categories: seq<Category>, selectedCategory: Option<string>, isTechOpen: bool, isWorkOpen: bool): (v: SidebarView)
    ensures v.allPostsHighlighted <==> !Truthy(selectedCategory)
    ensures v.total == Total(categories)
    ensures v.techItems.Some? <==> isTechOpen
    ensures v.workItems.Some? <==> isWorkOpen
    ensures v.techItems.Some? ==> v.techItems.value == Items(OfKind(categories, Tech), selectedCategory)
    ensures v.workItems.Some? ==> v.workItems.value == Items(OfKind(categories, Work), selectedCategory)
  {
    SidebarView(
      allPostsHighlighted := !Truthy(selectedCategory),
      total := Total(categories),
      techItems := if isTechOpen then Some(Items(OfKind(categories, Tech), selectedCategory)) else None,
      workItems := if isWorkOpen then Some(Items(OfKind(categories, Work), selectedCategory)) else None)
  }

  /** When category ids are distinct, at most one entry of a section is
      highlighted, and it is never highlighted together with "all posts"
      unless its id is empty. */
  lemma SelectionIsExclusive(section: seq<Category>, selectedCategory: Option<string>, i: nat, j: nat)
    requires forall p, q :: 0 <= p < q < |section| ==> section[p].id != section[q].id
    requires i < |section| && j < |section|
    requires Items(section, selectedCategory)[i].selected && Items(section, selectedCategory)[j].selected
    ensures i == j
    ensures section[i].id != "" ==> Truthy(selectedCategory)
  {
  }

  class Sidebar {
    const categories: seq<Category>
    const selectedCategory: Option<string>
    var isTechOpen: bool
    var isWorkOpen: bool

    /** Both sections start expanded; the list defaults to the placeholder
        categories and no category is selected unless one is given. */
    constructor (categories: seq<Category> := DefaultCategories, selectedCategory: Option<string> := None)
      ensures this.categories == categories && this.selectedCategory == selectedCategory
      ensures isTechOpen && isWorkOpen
    {
      this.categories := categories;
      this.selectedCategory := selectedCategory;
      isTechOpen := true;
      isWorkOpen := true;
    }

    function Current(): SidebarView
      reads this
    {
      View(categories, selectedCategory, isTechOpen, isWorkOpen)
    }

    /** The technical section's header button. */
    method ToggleTech()
      modifies this`isTechOpen
      ensures isTechOpen == !old(isTechOpen)
    {
      isTechOpen := !isTechOpen;
    }

    /** The work section's header button. */
    method ToggleWork()
      modifies this`isWorkOpen
      ensures isWorkOpen == !old(isWorkOpen)
    {
      isWorkOpen := !isWorkOpen;
    }
  }
}
