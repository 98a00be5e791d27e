/**
 * The path-driven parts of the page frame (components/Layout.tsx): the
 * mobile header title, the highlighted navigation item and the back button.
 */
module LayoutView {
  import opened Text

  /** `getPageTitle`: the first fragment the path includes decides the title. */
  function PageTitle(path: string): (r: string)
    ensures Contains(path, "/cart") ==> r == "Carrinho"
    ensures r == "Perfil" <==> !Contains(path, "/cart") && Contains(path, "/profile")
    ensures r == "Chat" <==> !Contains(path, "/cart") && !Contains(path, "/profile") && Contains(path, "/chat")
    ensures r == "Vender" <==>
              !Contains(path, "/cart") && !Contains(path, "/profile") && !Contains(path, "/chat") && Contains(path, "/sell")
    ensures r == "Detalhes" <==>
              !Contains(path, "/cart") && !Contains(path, "/profile") && !Contains(path, "/chat") &&
              !Contains(path, "/sell") && Contains(path, "/product/")
    ensures r == "Drop Shop" <==>
              !Contains(path, "/cart") && !Contains(path, "/profile") && !Contains(path, "/chat") &&
              !Contains(path, "/sell") && !Contains(path, "/product/")
  {
    if Contains(path, "/cart") then "Carrinho"
    else if Contains(path, "/profile") then "Perfil"
    else if Contains(path, "/chat") then "Chat"
    else if Contains(path, "/sell") then "Vender"
    else if Contains(path, "/product/") then "Detalhes"
    else "Drop Shop"
  }

  /**
   * The test is on substrings, so every product page whose id mentions
   * "/cart", or starts with "cart" (the slash then comes from the route), is
   * titled as the cart.
   */
  lemma {:induction false} ProductPathMentioningCart(id: string)
    requires Contains(id, "/cart") || StartsWith(id, "cart")
    ensures PageTitle("/product/" + id) == "Carrinho"
  {
    var path := "/product/" + id;
    if Contains(id, "/cart") {
      var i :| OccursAt(id, "/cart", i);
      assert path[9 + i..9 + i + 5] == id[i..i + 5];
      assert OccursAt(path, "/cart", 9 + i);
    } else {
      assert path[8..13] == "/" + id[..4];
      assert OccursAt(path, "/cart", 8);
    }
  }

  /** `isActive`: the navigation item for exactly the current pathname is highlighted. */
  predicate IsActive(pathname: string, path: string) {
    pathname == path
  }

  /** The mobile back button shows everywhere except on the feed itself. */
  predicate ShowBackButton(pathname: string) {
    pathname != "/app"
  }

  /**
   * On the feed the home item is the highlighted one, the header reads
   * "Drop Shop" and there is no back button.
   */
  lemma FeedHighlightsHome(pathname: string)
    requires IsActive(pathname, "/app")
    ensures PageTitle(pathname) == "Drop Shop" && !ShowBackButton(pathname)
  {
    assert !Contains(pathname, "/cart") && !Contains(pathname, "/profile") && !Contains(pathname, "/chat");
    assert !Contains(pathname, "/sell") && !Contains(pathname, "/product/");
  }

  /** Every page with a title of its own offers the back button and leaves the home item unhighlighted. */
  lemma TitledPagesShowBack(pathname: string)
    ensures PageTitle(pathname) != "Drop Shop" ==> ShowBackButton(pathname) && !IsActive(pathname, "/app")
  {
    if IsActive(pathname, "/app") {
      FeedHighlightsHome(pathname);
    }
  }
}
