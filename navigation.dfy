/** The top navigation bar: four menu items, three of them with a hover
    submenu, and a collapsible mobile menu. */
module Navigation {
  import opened Wrappers
  import Stars

  /** A submenu category line: its name and the count shown beside it. */
  datatype Category = Category(name: string, count: nat)

  /** The artwork a submenu features, drawn with its star rating. */
  datatype Featured = Featured(title: string, artist: string, rating: real)

  /** `SubmenuContent`: the three columns of a submenu. Avatars and images
      are not kept. */
  datatype Submenu = Submenu(authors: seq<string>, categories: seq<Category>, featured: Featured)

  /** `MenuItem`: a title, a link and an optional submenu. */
  datatype MenuItem = MenuItem(title: string, href: string, submenu: Option<Submenu>)

  /** `menuItems`. */
  const MenuItems: seq<MenuItem> := [
    MenuItem("Автори", "/authors", Some(Submenu(
      ["Мария Петрова", "Георги Димитров", "Елена Стоянова"],
      [Category("Абстрактно изкуство", 24), Category("Пейзажи", 18),
       Category("Портрети", 32), Category("Модерно изкуство", 15)],
      Featured("Абстрактни форми", "Мария Петрова", 5.0)))),
    MenuItem("Галерия", "/gallery", Some(Submenu(
      ["Всички автори", "Нови автори"],
      [Category("Най-нови", 12), Category("Най-популярни", 28), Category("Най-високо оценени", 19)],
      Featured("Планински пейзаж", "Георги Димитров", 4.0)))),
    MenuItem("Колекции", "/collections", Some(Submenu(
      ["Куратори", "Приватни колекции"],
      [Category("Тематични колекции", 8), Category("Периоди", 6), Category("Стилове", 12)],
      Featured("Дигитално изкуство", "Елена Стоянова", 5.0)))),
    MenuItem("За нас", "/about", None)]

  /** The menu titles are pairwise distinct. */
  lemma MenuTitlesDistinct()
    ensures forall i, j :: 0 <= i < j < |MenuItems| ==> MenuItems[i].title != MenuItems[j].title
  {
  }

  /** The last item, "За нас", is the only one without a submenu. */
  lemma OnlyAboutLacksSubmenu()
    ensures forall i :: 0 <= i < |MenuItems| ==> (MenuItems[i].submenu.None? <==> MenuItems[i].title == "За нас")
  {
  }

  /** Whether `item`'s submenu is drawn while `active` is the open title:
      the item has a submenu and its title is the open one. */
  predicate SubmenuOpen(active: Option<string>, item: MenuItem) {
    item.submenu.Some? && active == Some(item.title)
  }

  /** At most one of the menu's submenus is drawn at a time. */
  lemma AtMostOneSubmenuOpen(active: Option<string>, i: nat, j: nat)
    requires i < j < |MenuItems|
    ensures !(SubmenuOpen(active, MenuItems[i]) && SubmenuOpen(active, MenuItems[j]))
  {
    MenuTitlesDistinct();
  }

  /** For each item of the desktop menu, whether its submenu is drawn
      while `active` is the open title: at most one is. */
  function OpenSubmenus(active: Option<string>): (open: seq<bool>)
    ensures |open| == |MenuItems|
    ensures forall i :: 0 <= i < |MenuItems| ==> (open[i] <==> SubmenuOpen(active, MenuItems[i]))
    ensures forall i, j :: 0 <= i < j < |MenuItems| ==> !(open[i] && open[j])
  {
    MenuTitlesDistinct();
    seq(|MenuItems|, i requires 0 <= i < |MenuItems| => SubmenuOpen(active, MenuItems[i]))
  }

  /** The star row of a submenu's featured artwork. */
  function FeaturedStars(s: Submenu): (filled: seq<bool>)
    ensures |filled| == Stars.StarCount
    ensures Stars.CountFilled(filled) == Stars.Clamp(Stars.Ceiling(s.featured.rating), Stars.StarCount)
  {
    Stars.FilledStars(s.featured.rating);
    Stars.RenderStars(s.featured.rating)
  }

  /** The component's two state cells. */
  class Nav {
    var activeSubmenu: Option<string>
    var isMobileMenuOpen: bool

    constructor ()
      ensures activeSubmenu == None && !isMobileMenuOpen
    {
      activeSubmenu := None;
      isMobileMenuOpen := false;
    }

    /** `onMouseEnter`: `item.submenu && handleMenuItemHover(item.title)`,
        so only an item with a submenu opens it. */
    method MouseEnter(item: MenuItem)
      modifies this`activeSubmenu
      ensures item.submenu.Some? ==> activeSubmenu == Some(item.title)
      ensures item.submenu.None? ==> activeSubmenu == old(activeSubmenu)
    {
      if item.submenu.Some? {
        activeSubmenu := Some(item.title);
      }
    }

    /** `onMouseLeave`: `handleMenuItemLeave` closes any submenu. */
    method MouseLeave()
      modifies this`activeSubmenu
      ensures activeSubmenu == None
    {
      activeSubmenu := None;
    }

    /** The mobile menu button. */
    method ToggleMobileMenu()
      modifies this`isMobileMenuOpen
      ensures isMobileMenuOpen == !old(isMobileMenuOpen)
    {
      isMobileMenuOpen := !isMobileMenuOpen;
    }

    /** A link of the mobile menu closes it. */
    method MobileLinkClick(item: MenuItem)
      modifies this`isMobileMenuOpen
      ensures !isMobileMenuOpen
    {
      isMobileMenuOpen := false;
    }
  }

  /** Entering "За нас" keeps whatever submenu was open. */
  method EnterAbout(n: Nav)
    modifies n
    ensures n.activeSubmenu == old(n.activeSubmenu) && n.isMobileMenuOpen == old(n.isMobileMenuOpen)
  {
    assert MenuItems[3].title == "За нас" && MenuItems[3].submenu.None?;
    n.MouseEnter(MenuItems[3]);
  }
}
