/** The root component's state machine: which view is shown, what is selected,
    the search term, the signed-in user and the cart badge, and how each
    handler changes them. */
module App {
  import opened Lines
  import opened Http
  import CartPage

  /** The `user` object the login and session routes send. */
  datatype Profile = Profile(id: string, username: string, email: string)

  /** The component `renderCurrentView` mounts, with the props that pick its data. */
  datatype Page =
    | AlbumListPage(searchTerm: string)
    | AlbumDetailPage(albumId: Option<string>)
    | ArtistDetailPage(artistId: Option<string>)
    | GenrePageView(genreName: Option<string>)
    | LoginPage
    | RegisterPage
    | CartView
    | OrderHistoryPage

  const KnownViews: set<string> :=
    {"home", "albumDetail", "artistDetail", "genrePage", "login", "register", "cart", "orderHistory"}

  /** `renderCurrentView`: the `switch` on `currentView`, with the album list as
      the `default`. */
  function Dispatch(view: string, albumId: Option<string>, artistId: Option<string>,
                    genre: Option<string>, searchTerm: string): (p: Page)
    ensures view == "albumDetail" ==> p == AlbumDetailPage(albumId)
    ensures view == "artistDetail" ==> p == ArtistDetailPage(artistId)
    ensures view == "genrePage" ==> p == GenrePageView(genre)
    ensures view == "login" ==> p == LoginPage
    ensures view == "register" ==> p == RegisterPage
    ensures view == "cart" ==> p == CartView
    ensures view == "orderHistory" ==> p == OrderHistoryPage
    ensures view !in KnownViews - {"home"} ==> p == AlbumListPage(searchTerm)
    ensures p.AlbumListPage? ==> p.searchTerm == searchTerm
  {
    match view
    case "albumDetail" => AlbumDetailPage(albumId)
    case "artistDetail" => ArtistDetailPage(artistId)
    case "genrePage" => GenrePageView(genre)
    case "login" => LoginPage
    case "register" => RegisterPage
    case "cart" => CartView
    case "orderHistory" => OrderHistoryPage
    case _ => AlbumListPage(searchTerm)
  }

  /** A view name the `switch` does not know renders exactly what "home" does. */
  lemma UnknownViewRendersHome(view: string, albumId: Option<string>, artistId: Option<string>,
                               genre: Option<string>, searchTerm: string)
    requires view !in KnownViews
    ensures Dispatch(view, albumId, artistId, genre, searchTerm) ==
            Dispatch("home", albumId, artistId, genre, searchTerm)
    ensures Dispatch(view, albumId, artistId, genre, searchTerm) == AlbumListPage(searchTerm)
  {
  }

  /** Distinct known views mount distinct components. */
  lemma KnownViewsAreDistinct(v: string, w: string, albumId: Option<string>, artistId: Option<string>,
                              genre: Option<string>, searchTerm: string)
    requires v in KnownViews && w in KnownViews && v != w && v != "home" && w != "home"
    ensures Dispatch(v, albumId, artistId, genre, searchTerm) != Dispatch(w, albumId, artistId, genre, searchTerm)
  {
  }

  /** The badge count `updateCartCount` computes: 0 when logged out (nothing is
      fetched) or on any failure, else the quantities of the cart's lines. */
  function CartCount(isLoggedIn: bool, reply: Reply<seq<Line>>): (n: int)
    ensures !isLoggedIn || !reply.Success? ==> n == 0
    ensures isLoggedIn && reply.Success? ==> n == TotalQuantity(reply.body)
  {
    if isLoggedIn && reply.Success? then TotalQuantity(reply.body)
    else 0
  }

  /** The header badge and the cart page's "Total Items" agree on the same cart,
      and for a stored (positive) cart the badge is 0 exactly when it is empty. */
  lemma {:induction false} BadgeMatchesCartPage(items: seq<Line>)
    ensures CartCount(true, Success(items)) == CartPage.TotalItems(Some(items))
    ensures AllPositive(items) ==> (CartCount(true, Success(items)) == 0 <==> items == [])
  {
    if AllPositive(items) {
      TotalQuantityZero(items);
    }
  }

  class AppState {
    var currentView: string
    var selectedAlbumId: Option<string>
    var selectedArtistId: Option<string>
    var selectedGenre: Option<string>
    var isLoggedIn: bool
    var user: Option<Profile>
    var isCheckingSession: bool
    var cartItemCount: int
    var searchTerm: string

    /** Logged in exactly when a user is held. */
    ghost predicate Valid()
      reads this
    {
      isLoggedIn == user.Some?
    }

    constructor ()
      ensures Valid()
      ensures currentView == "home" && selectedAlbumId.None? && selectedArtistId.None?
      ensures selectedGenre.None? && !isLoggedIn && user.None? && isCheckingSession
      ensures cartItemCount == 0 && searchTerm == ""
    {
      currentView := "home";
      selectedAlbumId := None;
      selectedArtistId := None;
      selectedGenre := None;
      isLoggedIn := false;
      user := None;
      isCheckingSession := true;
      cartItemCount := 0;
      searchTerm := "";
    }

    /** What the main area shows. */
    function Render(): (p: Page)
      reads this
      ensures currentView !in KnownViews - {"home"} ==> p == AlbumListPage(searchTerm)
      ensures currentView == "cart" ==> p == CartView
      ensures p.AlbumListPage? ==> p.searchTerm == searchTerm
    {
      Dispatch(currentView, selectedAlbumId, selectedArtistId, selectedGenre, searchTerm)
    }

    /** The session check on load: a signed-in session restores the user. */
    method CheckSession(reply: Reply<Profile>)
      requires Valid()
      modifies this`isLoggedIn, this`user, this`isCheckingSession
      ensures Valid() && !isCheckingSession
      ensures reply.Success? ==> isLoggedIn && user == Some(reply.body)
      ensures !reply.Success? ==> isLoggedIn == old(isLoggedIn) && user == old(user)
    {
      if reply.Success? {
        isLoggedIn := true;
        user := Some(reply.body);
      }
      isCheckingSession := false;
    }

    method HandleAlbumClick(albumId: string)
      modifies this`selectedAlbumId, this`selectedArtistId, this`searchTerm, this`currentView
      ensures selectedAlbumId == Some(albumId) && selectedArtistId.None?
      ensures searchTerm == "" && currentView == "albumDetail"
      ensures selectedGenre == old(selectedGenre)
      ensures Render() == AlbumDetailPage(Some(albumId))
    {
      selectedAlbumId := Some(albumId);
      selectedArtistId := None;
      searchTerm := "";
      currentView := "albumDetail";
    }

    method HandleArtistClick(artistId: string)
      modifies this`selectedAlbumId, this`selectedArtistId, this`searchTerm, this`currentView
      ensures selectedArtistId == Some(artistId) && selectedAlbumId.None?
      ensures searchTerm == "" && currentView == "artistDetail"
      ensures selectedGenre == old(selectedGenre)
      ensures Render() == ArtistDetailPage(Some(artistId))
    {
      selectedArtistId := Some(artistId);
      selectedAlbumId := None;
      searchTerm := "";
      currentView := "artistDetail";
    }

    method HandleGenreClick(genreName: string)
      modifies this`selectedGenre, this`selectedAlbumId, this`selectedArtistId, this`searchTerm, this`currentView
      ensures selectedGenre == Some(genreName) && selectedAlbumId.None? && selectedArtistId.None?
      ensures searchTerm == "" && currentView == "genrePage"
      ensures Render() == GenrePageView(Some(genreName))
    {
      selectedGenre := Some(genreName);
      selectedAlbumId := None;
      selectedArtistId := None;
      searchTerm := "";
      currentView := "genrePage";
    }

    /** Back to the album list, keeping the search term. */
    method HandleBackToHome()
      modifies this`selectedGenre, this`selectedAlbumId, this`selectedArtistId, this`currentView
      ensures selectedAlbumId.None? && selectedArtistId.None? && selectedGenre.None?
      ensures currentView == "home" && searchTerm == old(searchTerm)
      ensures Render() == AlbumListPage(old(searchTerm))
    {
      selectedAlbumId := None;
      selectedArtistId := None;
      selectedGenre := None;
      currentView := "home";
    }

    /** `handleShowLogin`, `handleShowRegister`, `handleShowCart` and
        `handleShowOrderHistory`: clear the search term and open `view`. */
    method HandleShow(view: string)
      requires view in {"login", "register", "cart", "orderHistory"}
      modifies this`searchTerm, this`currentView
      ensures searchTerm == "" && currentView == view
      ensures selectedAlbumId == old(selectedAlbumId) && selectedArtistId == old(selectedArtistId)
      ensures selectedGenre == old(selectedGenre)
    {
      searchTerm := "";
      currentView := view;
    }

    /** The header's `onNavigate`: any view name, unchecked. */
    method Navigate(view: string)
      modifies this`currentView
      ensures currentView == view
      ensures view !in KnownViews ==> Render() == AlbumListPage(searchTerm)
    {
      currentView := view;
    }

    /** The header's search box. */
    method SetSearchTerm(term: string)
      modifies this`searchTerm
      ensures searchTerm == term
    {
      searchTerm := term;
    }

    /** `updateCartCount`, also run by the effect on `isLoggedIn`; `reply` is the
        GET /api/cart answer, not fetched when logged out. */
    method UpdateCartCount(reply: Reply<seq<Line>>)
      modifies this`cartItemCount
      ensures cartItemCount == CartCount(isLoggedIn, reply)
    {
      if !isLoggedIn {
        cartItemCount := 0;
        return;
      }
      match reply {
        case Success(items) =>
          cartItemCount := TotalQuantity(items);
        case HttpError(_) =>
          cartItemCount := 0;
        case NetworkFailure =>
          cartItemCount := 0;
      }
    }

    /** `handleCheckout` with the POST /api/order answer: on success the badge
        drops to 0 and the album list opens; otherwise nothing changes. */
    method HandleCheckout<T>(reply: Reply<T>)
      modifies this`cartItemCount, this`currentView
      ensures reply.Success? ==> cartItemCount == 0 && currentView == "home"
      ensures !reply.Success? ==> cartItemCount == old(cartItemCount) && currentView == old(currentView)
    {
      if reply.Success? {
        cartItemCount := 0;
        currentView := "home";
      }
    }

    /** `handleLogin` and `handleRegister` do the same. */
    method HandleLogin(userData: Profile)
      modifies this`isLoggedIn, this`user, this`currentView
      ensures Valid() && isLoggedIn && user == Some(userData) && currentView == "home"
    {
      isLoggedIn := true;
      user := Some(userData);
      currentView := "home";
    }

    /** `handleLogout`: the local state is cleared whatever the server replies. */
    method HandleLogout<T>(reply: Reply<T>)
      modifies this`isLoggedIn, this`user, this`currentView
      ensures Valid() && !isLoggedIn && user.None? && currentView == "home"
    {
      isLoggedIn := false;
      user := None;
      currentView := "home";
    }
  }

  /** A visit: log in, open a genre, pick an album from it, go back, log out. */
  method Visit()
  {
    var app := new AppState();
    app.HandleLogin(Profile("u1", "ada", "ada@example.com"));
    app.UpdateCartCount(Success([Line("a1", 2), Line("a2", 1)]));
    assert TotalQuantity([Line("a1", 2), Line("a2", 1)]) == TotalQuantity([Line("a1", 2)]) + 1;
    assert app.cartItemCount == 3;
    app.HandleGenreClick("Jazz");
    app.HandleAlbumClick("a1");
    assert app.selectedGenre == Some("Jazz");
    app.HandleBackToHome();
    assert app.Render() == AlbumListPage("");
    app.HandleLogout<bool>(NetworkFailure);
    assert !app.isLoggedIn && app.currentView == "home";
    app.UpdateCartCount(Success([Line("a1", 2)]));
    assert app.cartItemCount == 0;
  }
}
