/**
 * The replay engine itself: one object holding the current page, the stack of
 * saved pages, the output log and the catalog, changed in place by each
 * handler. The fields of the current page are fields of the engine.
 *
 * Every method is proved to leave the engine in the state the matching
 * function of `Navigation` computes from the state it found, so what
 * `NavigationProperties` proves about those functions holds of the engine.
 */
module Execution {
  import opened Wrappers
  import opened Movies
  import opened Navigation
  import NavigationProperties

  class Execution {
    /** The legality tables and the catalog queries the engine consults. */
    const env: Env

    var kind: PageKind
    var user: Option<UserId>
    var movie: Option<Movie>
    var movies: Option<seq<Movie>>
    /** The saved pages, most recent last. */
    var prevPages: seq<Page>
    var outputs: seq<Output>
    /** The movies of the database, by name. */
    var catalog: map<string, Movie>

    function CurrentPage(): Page
      reads this
    {
      Page(kind, user, movie, movies)
    }

    /** The engine's state as a navigation session. */
    function Abs(): Session
      reads this
    {
      Session(CurrentPage(), prevPages, outputs, catalog)
    }

    /** A new engine starts on the logged-out page, with no history and an empty log. */
    constructor (env: Env, catalog: map<string, Movie>)
      ensures this.env == env
      ensures Abs() == Session(InitialPage(), [], [], catalog)
    {
      this.env := env;
      kind := LogoutPage;
      user := None;
      movie := None;
      movies := None;
      prevPages := [];
      outputs := [];
      this.catalog := catalog;
    }

    /**
     * Replays the actions in order, the i-th with the user store's i-th reply,
     * then writes the recommendation when the user left logged in is premium.
     */
    method Start(actions: seq<Action>, replies: seq<Reply>, premium: bool)
      requires |replies| == |actions|
      modifies this
      ensures Abs() == Finish(Run(old(Abs()), actions, replies, env), premium)
    {
      var i := 0;
      while i < |actions|
        invariant 0 <= i <= |actions|
        invariant Abs() == Run(old(Abs()), actions[..i], replies[..i], env)
      {
        NavigationProperties.RunSnoc(old(Abs()), actions, replies, env, i);
        match actions[i] {
          case ChangePageAction(page, name) => HandleChangePage(page, name);
          case OnPageAction(feature, startsWith, filters) => HandleOnPage(feature, startsWith, filters, replies[i]);
          case DatabaseAction(feature, added, deleted) => HandleDatabase(feature, added, deleted);
          case BackAction => RollbackPage();
          case UnknownAction(_) =>
        }
        i := i + 1;
      }
      assert actions[..i] == actions && replies[..i] == replies;
      if user.Some? && premium {
        WriteOutput(MoviesOut(None, user));
      }
    }

    method WriteOutput(o: Output)
      modifies this
      ensures Abs() == Write(old(Abs()), o)
    {
      outputs := outputs + [o];
    }

    /** `prevPages.saveState(currentPage)`. */
    method SaveState()
      modifies this
      ensures Abs() == Push(old(Abs()))
    {
      prevPages := prevPages + [CurrentPage()];
    }

    /** `prevPages.restoreLastState(currentPage)`: pops the last saved page into the current one, if any. */
    method RestoreLastState() returns (restored: bool)
      modifies this
      ensures restored <==> old(prevPages) != []
      ensures restored ==> Abs() == old(Abs()).(page := old(prevPages[|prevPages| - 1]),
                                                 history := old(prevPages[..|prevPages| - 1]))
      ensures !restored ==> Abs() == old(Abs())
    {
      if prevPages == [] {
        return false;
      }
      var p := prevPages[|prevPages| - 1];
      kind, user, movie, movies := p.kind, p.user, p.movie, p.movies;
      prevPages := prevPages[..|prevPages| - 1];
      return true;
    }

    predicate HasLinkTo(target: PageKind)
      reads this
    {
      Navigation.HasLinkTo(Abs(), env, target)
    }

    predicate HasFeature(feature: string)
      reads this
    {
      Navigation.HasFeature(Abs(), env, feature)
    }

    method RollbackPage()
      modifies this
      ensures Abs() == Rollback(old(Abs()), env)
    {
      var restored := RestoreLastState();
      if !restored {
        WriteOutput(Empty);
        return;
      }
      match kind
      case SeeDetailsPage => WriteOutput(MoviesOut(Some(Focus(movie)), user));
      case MoviesPage =>
        movies := Some(env.available(catalog, user));
        WriteOutput(MoviesOut(movies, user));
      case _ =>
    }

    // DatabaseAction

    method HandleDatabase(feature: string, added: Movie, deleted: string)
      modifies this
      ensures Abs() == DatabaseEdit(old(Abs()), feature, added, deleted)
    {
      match feature
      case "add" => DatabaseAdd(added);
      case "delete" => DatabaseDelete(deleted);
      case _ =>
    }

    method DatabaseAdd(added: Movie)
      modifies this
      ensures Abs() == AddMovie(old(Abs()), added)
    {
      if added.name in catalog {
        WriteOutput(Empty);
      } else {
        catalog := catalog[added.name := added];
      }
    }

    method DatabaseDelete(deleted: string)
      modifies this
      ensures Abs() == DeleteMovie(old(Abs()), deleted)
    {
      if deleted in catalog {
        catalog := catalog - {deleted};
      } else {
        WriteOutput(Empty);
      }
    }

    // ChangePageAction

    method HandleChangePage(page: string, name: string)
      modifies this
      ensures Abs() == ChangePage(old(Abs()), env, page, name)
    {
      match page
      case "login" => ChangeToLogin();
      case "register" => ChangeToRegister();
      case "logout" => ChangeToLogout();
      case "homepage" => ChangeToHomepage();
      case "movies" => ChangeToMovies();
      case "see details" => ChangeToSeeDetails(name);
      case "upgrades" => ChangeToUpgrades();
      case _ =>
    }

    method ChangeToLogout()
      modifies this
      ensures Abs() == GoToLogout(old(Abs()), env)
    {
      if HasLinkTo(LogoutPage) {
        kind := LogoutPage;
        user := None;
        movie := None;
        movies := None;
        prevPages := [];
      } else {
        WriteOutput(Empty);
      }
    }

    method ChangeToLogin()
      modifies this
      ensures Abs() == GoToLogin(old(Abs()), env)
    {
      if HasLinkTo(LoginPage) {
        kind := LoginPage;
      } else {
        WriteOutput(Empty);
      }
    }

    method ChangeToRegister()
      modifies this
      ensures Abs() == GoToRegister(old(Abs()), env)
    {
      if HasLinkTo(RegisterPage) {
        kind := RegisterPage;
        movie := None;
      } else {
        WriteOutput(Empty);
      }
    }

    method ChangeToHomepage()
      modifies this
      ensures Abs() == GoToHomepage(old(Abs()), env)
    {
      if HasLinkTo(HomePage) {
        SaveState();
        kind := HomePage;
        movie := None;
        movies := None;
      } else {
        WriteOutput(Empty);
      }
    }

    method ChangeToMovies()
      modifies this
      ensures Abs() == GoToMovies(old(Abs()), env)
    {
      if HasLinkTo(MoviesPage) {
        SaveState();
        kind := MoviesPage;
        movie := None;
        var currentMovies := env.available(catalog, user);
        movies := Some(currentMovies);
        WriteOutput(MoviesOut(Some(currentMovies), user));
      } else {
        WriteOutput(Empty);
      }
    }

    method ChangeToSeeDetails(name: string)
      modifies this
      ensures Abs() == GoToSeeDetails(old(Abs()), env, name)
    {
      if HasLinkTo(SeeDetailsPage) {
        var currentMovie := FindByName(ListOf(movies), name);
        if currentMovie.Some? {
          SaveState();
          kind := SeeDetailsPage;
          movie := currentMovie;
          WriteOutput(MoviesOut(Some([currentMovie.value]), user));
        } else {
          WriteOutput(Empty);
        }
      } else {
        WriteOutput(Empty);
      }
    }

    method ChangeToUpgrades()
      modifies this
      ensures Abs() == GoToUpgrades(old(Abs()), env)
    {
      if HasLinkTo(UpgradesPage) {
        SaveState();
        kind := UpgradesPage;
        movie := None;
      } else {
        WriteOutput(Empty);
      }
    }

    // OnPageAction

    method HandleOnPage(feature: string, startsWith: string, filters: FilterId, r: Reply)
      modifies this
      ensures Abs() == OnPage(old(Abs()), env, feature, startsWith, filters, r)
    {
      match feature
      case "login" => OnPageAuthenticate("login", r);
      case "register" => OnPageAuthenticate("register", r);
      case "search" => OnPageSearch(startsWith);
      case "filter" => OnPageFilter(filters);
      case "purchase" => OnPageMovieFeature("purchase", r);
      case "watch" => OnPageMovieFeature("watch", r);
      case "like" => OnPageMovieFeature("like", r);
      case "rate" => OnPageMovieFeature("rate", r);
      case "subscribe" => OnPageSilentFeature("subscribe", r);
      case "buy premium account" => OnPageSilentFeature("buy premium account", r);
      case "buy tokens" => OnPageBuyTokens(r);
      case _ =>
    }

    /** On-page "login" or "register", with the user the store returns in `r`. */
    method OnPageAuthenticate(feature: string, r: Reply)
      modifies this
      ensures Abs() == Authenticate(old(Abs()), env, feature, r)
    {
      if HasFeature(feature) {
        if r.user.Some? {
          kind := HomePage;
          user := r.user;
          WriteOutput(UserOut(r.user));
        } else {
          kind := LogoutPage;
          WriteOutput(Empty);
        }
      } else {
        WriteOutput(Empty);
      }
    }

    method OnPageSearch(startsWith: string)
      modifies this
      ensures Abs() == SearchMovies(old(Abs()), env, startsWith)
    {
      if HasFeature("search") {
        var availableMovies := env.available(catalog, user);
        var foundMovies := env.search(availableMovies, startsWith);
        movies := Some(foundMovies);
        WriteOutput(MoviesOut(Some(foundMovies), user));
      } else {
        WriteOutput(Empty);
      }
    }

    method OnPageFilter(filters: FilterId)
      modifies this
      ensures Abs() == FilterMovies(old(Abs()), env, filters)
    {
      if HasFeature("filter") {
        var availableMovies := env.available(catalog, user);
        var filteredMovies := env.filter(filters, availableMovies);
        movies := Some(filteredMovies);
        WriteOutput(MoviesOut(Some(filteredMovies), user));
      } else {
        WriteOutput(Empty);
      }
    }

    /** "purchase", "watch", "like" or "rate" on the current movie; `r.accepted` is the user's answer. */
    method OnPageMovieFeature(feature: string, r: Reply)
      modifies this
      ensures Abs() == MovieFeature(old(Abs()), env, feature, r)
    {
      if HasFeature(feature) {
        if r.accepted {
          WriteOutput(MoviesOut(Some(Focus(movie)), user));
          return;
        }
      }
      WriteOutput(Empty);
    }

    /** "subscribe" or "buy premium account". */
    method OnPageSilentFeature(feature: string, r: Reply)
      modifies this
      ensures Abs() == SilentFeature(old(Abs()), env, feature, r)
    {
      if !HasFeature(feature) || !r.accepted {
        WriteOutput(Empty);
      }
    }

    method OnPageBuyTokens(r: Reply)
      modifies this
      ensures Abs() == BuyTokens(old(Abs()), env, r)
    {
      if !HasFeature("buy tokens") || !r.accepted {
        WriteOutput(UserOut(user));
      }
    }
  }
}
