/**
 * The Paint app's menu bar (src/apps/Draw/Draw.tsx): at most one dropdown
 * is open, named by `showMenu`, and clicking a menu title toggles it.
 */
module DrawMenu {
  import opened Wrappers

  /**
   * toggleMenu: clicking the open menu closes it; clicking any other title
   * opens that one in place of whatever was open.
   */
  function ToggleMenu(showMenu: Option<string>, menu: string): (r: Option<string>)
    ensures r == Some(menu) <==> showMenu != Some(menu)
    ensures r != Some(menu) ==> r == None
  {
    if showMenu == Some(menu) then None else Some(menu)
  }

  /**
   * Clicking the same title twice restores the bar when that menu or none
   * was open; when another menu was open, it ends closed.
   */
  lemma ToggleTwice(showMenu: Option<string>, menu: string)
    ensures showMenu == None || showMenu == Some(menu) ==> ToggleMenu(ToggleMenu(showMenu, menu), menu) == showMenu
    ensures showMenu.Some? && showMenu != Some(menu) ==> ToggleMenu(ToggleMenu(showMenu, menu), menu) == None
  {
  }
}
