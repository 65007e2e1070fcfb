/**
 * The page-navigation state machine of the replay engine, as values.
 *
 * A session is the current page, the stack of saved page snapshots, the
 * output log and the movie catalog. Every action of the input log is one
 * transition. The legality tables of the pages, the catalog queries and the
 * answers of the user store are not computed here: the tables and queries are
 * the total functions of an `Env`, and the answer the user store gives to an
 * action is the `Reply` that comes with it.
 *
 * The class `Execution.Execution` performs the same transitions in place and
 * is proved to agree with these functions.
 */
module Navigation {
  import opened Wrappers
  import opened Movies

  /** A user of the user store, by identity. */
  type UserId = nat

  /** Identifies the filter criteria an on-page "filter" action carries. */
  type FilterId = nat

  /** The kinds of page; the `Page` suffix keeps them apart from the features of the same name. */
  datatype PageKind =
    | LogoutPage | LoginPage | RegisterPage | HomePage | MoviesPage | SeeDetailsPage | UpgradesPage

  /** The page kind a change-page action names, if any. */
  function PageNamed(name: string): (k: Option<PageKind>)
    ensures k.Some? ==> NameOf(k.value) == name
  {
    match name
    case "logout" => Some(LogoutPage)
    case "login" => Some(LoginPage)
    case "register" => Some(RegisterPage)
    case "homepage" => Some(HomePage)
    case "movies" => Some(MoviesPage)
    case "see details" => Some(SeeDetailsPage)
    case "upgrades" => Some(UpgradesPage)
    case _ => None
  }

  /** The page type string of a kind. */
  function NameOf(k: PageKind): string {
    match k
    case LogoutPage => "logout"
    case LoginPage => "login"
    case RegisterPage => "register"
    case HomePage => "homepage"
    case MoviesPage => "movies"
    case SeeDetailsPage => "see details"
    case UpgradesPage => "upgrades"
  }

  /** Every page kind is named by exactly one string, its type string. */
  lemma PageNamesRoundTrip(k: PageKind, name: string)
    ensures PageNamed(NameOf(k)) == Some(k)
    ensures PageNamed(name) == Some(k) <==> name == NameOf(k)
  {
  }

  /**
   * What the engine consults but does not define: the links and features each
   * page kind allows, the catalog movies a user may see, the search by name
   * prefix, and `Filter.apply`.
   */
  datatype Env = Env(
    links: PageKind -> set<PageKind>,
    features: PageKind -> set<string>,
    available: (map<string, Movie>, Option<UserId>) -> seq<Movie>,
    search: (seq<Movie>, string) -> seq<Movie>,
    filter: (FilterId, seq<Movie>) -> seq<Movie>)

  /** The three forms of `OutputWriter.write`: no argument, a movie list and a user, a user. */
  datatype Output =
    | Empty
    | MoviesOut(movies: Option<seq<Movie>>, user: Option<UserId>)
    | UserOut(user: Option<UserId>)

  /** The navigable fields of the current page, and a saved snapshot of them. */
  datatype Page = Page(kind: PageKind, user: Option<UserId>, movie: Option<Movie>, movies: Option<seq<Movie>>)

  datatype Session = Session(page: Page, history: seq<Page>, outputs: seq<Output>, catalog: map<string, Movie>)

  /**
   * The user store's answer to an action: the user that a login or register
   * yields (None when it refuses), and whether a purchase, watch, like, rate,
   * subscribe, premium or token request succeeds.
   */
  datatype Reply = Reply(user: Option<UserId>, accepted: bool)

  /** An action of the input log, by its type: "change page", "on page", "database", "back" or another. */
  datatype Action =
    | ChangePageAction(page: string, movie: string)
    | OnPageAction(feature: string, startsWith: string, filters: FilterId)
    | DatabaseAction(feature: string, addedMovie: Movie, deletedMovie: string)
    | BackAction
    | UnknownAction(actionType: string)

  /** The page an engine starts on: a logged-out page with nothing selected. */
  function InitialPage(): Page {
    Page(LogoutPage, None, None, None)
  }

  function Write(s: Session, o: Output): Session {
    s.(outputs := s.outputs + [o])
  }

  /** `saveState`: the current page is pushed as a snapshot. */
  function Push(s: Session): Session {
    s.(history := s.history + [s.page])
  }

  predicate HasLinkTo(s: Session, env: Env, k: PageKind) {
    k in env.links(s.page.kind)
  }

  predicate HasFeature(s: Session, env: Env, feature: string) {
    feature in env.features(s.page.kind)
  }

  /** `List.of(movie)`; without a movie there is nothing to list. */
  function Focus(movie: Option<Movie>): seq<Movie> {
    if movie.Some? then [movie.value] else []
  }

  /** The current movie list, where an absent list has no movies. */
  function ListOf(movies: Option<seq<Movie>>): seq<Movie> {
    if movies.Some? then movies.value else []
  }

  /** The first movie of the list with the given name. */
  function FindByName(list: seq<Movie>, name: string): (r: Option<Movie>)
    ensures r.Some? ==> r.value in list && r.value.name == name
    ensures r.None? <==> forall m :: m in list ==> m.name != name
    ensures r.Some? ==> exists i :: 0 <= i < |list| && list[i] == r.value && forall j :: 0 <= j < i ==> list[j].name != name
  {
    if list == [] then None
    else if list[0].name == name then Some(list[0])
    else FindByName(list[1..], name)
  }

  // Change-page handlers.

  function GoToLogout(s: Session, env: Env): Session {
    if HasLinkTo(s, env, LogoutPage) then s.(page := InitialPage(), history := [])
    else Write(s, Empty)
  }

  function GoToLogin(s: Session, env: Env): Session {
    if HasLinkTo(s, env, LoginPage) then s.(page := s.page.(kind := LoginPage))
    else Write(s, Empty)
  }

  function GoToRegister(s: Session, env: Env): Session {
    if HasLinkTo(s, env, RegisterPage) then s.(page := s.page.(kind := RegisterPage, movie := None))
    else Write(s, Empty)
  }

  function GoToHomepage(s: Session, env: Env): Session {
    if HasLinkTo(s, env, HomePage) then
      var t := Push(s);
      t.(page := t.page.(kind := HomePage, movie := None, movies := None))
    else Write(s, Empty)
  }

  function GoToMovies(s: Session, env: Env): Session {
    if HasLinkTo(s, env, MoviesPage) then
      var t := Push(s);
      var list := env.available(s.catalog, s.page.user);
      Write(t.(page := t.page.(kind := MoviesPage, movie := None, movies := Some(list))),
            MoviesOut(Some(list), s.page.user))
    else Write(s, Empty)
  }

  function GoToSeeDetails(s: Session, env: Env, name: string): Session {
    if HasLinkTo(s, env, SeeDetailsPage) then
      match FindByName(ListOf(s.page.movies), name)
      case Some(m) =>
        var t := Push(s);
        Write(t.(page := t.page.(kind := SeeDetailsPage, movie := Some(m))), MoviesOut(Some([m]), s.page.user))
      case None => Write(s, Empty)
    else Write(s, Empty)
  }

  function GoToUpgrades(s: Session, env: Env): Session {
    if HasLinkTo(s, env, UpgradesPage) then
      var t := Push(s);
      t.(page := t.page.(kind := UpgradesPage, movie := None))
    else Write(s, Empty)
  }

  /** `ChangePageAction.handle`: an unknown page name is ignored. */
  function ChangePage(s: Session, env: Env, page: string, movie: string): Session {
    match PageNamed(page)
    case None => s
    case Some(LogoutPage) => GoToLogout(s, env)
    case Some(LoginPage) => GoToLogin(s, env)
    case Some(RegisterPage) => GoToRegister(s, env)
    case Some(HomePage) => GoToHomepage(s, env)
    case Some(MoviesPage) => GoToMovies(s, env)
    case Some(SeeDetailsPage) => GoToSeeDetails(s, env, movie)
    case Some(UpgradesPage) => GoToUpgrades(s, env)
  }

  // On-page handlers.

  /** On-page "login" and "register": the two differ only in the user-store call. */
  function Authenticate(s: Session, env: Env, feature: string, r: Reply): Session {
    if HasFeature(s, env, feature) then
      if r.user.Some? then
        Write(s.(page := s.page.(kind := HomePage, user := r.user)), UserOut(r.user))
      else
        Write(s.(page := s.page.(kind := LogoutPage)), Empty)
    else Write(s, Empty)
  }

  function SearchMovies(s: Session, env: Env, startsWith: string): Session {
    if HasFeature(s, env, "search") then
      var found := env.search(env.available(s.catalog, s.page.user), startsWith);
      Write(s.(page := s.page.(movies := Some(found))), MoviesOut(Some(found), s.page.user))
    else Write(s, Empty)
  }

  function FilterMovies(s: Session, env: Env, filters: FilterId): Session {
    if HasFeature(s, env, "filter") then
      var filtered := env.filter(filters, env.available(s.catalog, s.page.user));
      Write(s.(page := s.page.(movies := Some(filtered))), MoviesOut(Some(filtered), s.page.user))
    else Write(s, Empty)
  }

  /** "purchase", "watch", "like" and "rate": on success the current movie is written. */
  function MovieFeature(s: Session, env: Env, feature: string, r: Reply): Session {
    if HasFeature(s, env, feature) && r.accepted then
      Write(s, MoviesOut(Some(Focus(s.page.movie)), s.page.user))
    else Write(s, Empty)
  }

  /** "subscribe" and "buy premium account": silent on success. */
  function SilentFeature(s: Session, env: Env, feature: string, r: Reply): Session {
    if !HasFeature(s, env, feature) || !r.accepted then Write(s, Empty)
    else s
  }

  /** "buy tokens": silent on success, and on failure the user is written. */
  function BuyTokens(s: Session, env: Env, r: Reply): Session {
    if !HasFeature(s, env, "buy tokens") || !r.accepted then Write(s, UserOut(s.page.user))
    else s
  }

  /** `OnPageAction.handle`: an unknown feature is ignored. */
  function OnPage(s: Session, env: Env, feature: string, startsWith: string, filters: FilterId, r: Reply): Session {
    match feature
    case "login" => Authenticate(s, env, "login", r)
    case "register" => Authenticate(s, env, "register", r)
    case "search" => SearchMovies(s, env, startsWith)
    case "filter" => FilterMovies(s, env, filters)
    case "purchase" => MovieFeature(s, env, "purchase", r)
    case "watch" => MovieFeature(s, env, "watch", r)
    case "like" => MovieFeature(s, env, "like", r)
    case "rate" => MovieFeature(s, env, "rate", r)
    case "subscribe" => SilentFeature(s, env, "subscribe", r)
    case "buy premium account" => SilentFeature(s, env, "buy premium account", r)
    case "buy tokens" => BuyTokens(s, env, r)
    case _ => s
  }

  // Database handlers: a movie is added under a fresh name, deleted by an existing one.

  function AddMovie(s: Session, m: Movie): Session {
    if m.name in s.catalog then Write(s, Empty)
    else s.(catalog := s.catalog[m.name := m])
  }

  function DeleteMovie(s: Session, name: string): Session {
    if name in s.catalog then s.(catalog := s.catalog - {name})
    else Write(s, Empty)
  }

  /** `DatabaseAction.handle`: an unknown feature is ignored. */
  function DatabaseEdit(s: Session, feature: string, added: Movie, deleted: string): Session {
    match feature
    case "add" => AddMovie(s, added)
    case "delete" => DeleteMovie(s, deleted)
    case _ => s
  }

  /**
   * `rollbackPage`: the last snapshot becomes the current page. A restored
   * details page writes its movie; a restored movies page gets the list the
   * catalog offers its user now, and writes it.
   */
  function Rollback(s: Session, env: Env): (r: Session)
    ensures r.catalog == s.catalog
    ensures s.history == [] ==> r.page == s.page && r.history == []
    ensures s.history != [] ==> r.history == s.history[..|s.history| - 1]
    ensures s.history != [] ==> r.page.kind == s.history[|s.history| - 1].kind && r.page.user == s.history[|s.history| - 1].user
  {
    if s.history == [] then Write(s, Empty)
    else
      var p := s.history[|s.history| - 1];
      var t := s.(page := p, history := s.history[..|s.history| - 1]);
      match p.kind
      case SeeDetailsPage => Write(t, MoviesOut(Some(Focus(p.movie)), p.user))
      case MoviesPage =>
        var list := env.available(s.catalog, p.user);
        Write(t.(page := p.(movies := Some(list))), MoviesOut(Some(list), p.user))
      case _ => t
  }

  /** One action with the user store's reply to it; an action of unknown type is ignored. */
  function Step(s: Session, a: Action, r: Reply, env: Env): (t: Session)
    ensures !a.DatabaseAction? ==> t.catalog == s.catalog
    ensures (a.OnPageAction? || a.DatabaseAction? || a.UnknownAction?) ==> t.history == s.history
    ensures (a.DatabaseAction? || a.UnknownAction?) ==> t.page == s.page
  {
    match a
    case ChangePageAction(page, movie) => ChangePage(s, env, page, movie)
    case OnPageAction(feature, startsWith, filters) => OnPage(s, env, feature, startsWith, filters, r)
    case DatabaseAction(feature, added, deleted) => DatabaseEdit(s, feature, added, deleted)
    case BackAction => Rollback(s, env)
    case UnknownAction(_) => s
  }

  /** The actions in order, each with its reply. */
  function Run(s: Session, actions: seq<Action>, replies: seq<Reply>, env: Env): (r: Session)
    requires |replies| == |actions|
    ensures (forall i :: 0 <= i < |actions| ==> !actions[i].DatabaseAction?) ==> r.catalog == s.catalog
    ensures (forall i :: 0 <= i < |actions| ==> actions[i].DatabaseAction? || actions[i].UnknownAction?) ==> r.page == s.page && r.history == s.history
  {
    if actions == [] then s
    else
      var n := |actions| - 1;
      Step(Run(s, actions[..n], replies[..n], env), actions[n], replies[n], env)
  }

  /** The recommendation a premium user gets at the end of the log: the user is written once more. */
  function Finish(s: Session, premium: bool): Session {
    if s.page.user.Some? && premium then Write(s, MoviesOut(None, s.page.user)) else s
  }

  /** The pages the session was on before each action of the run. */
  function Visited(s: Session, actions: seq<Action>, replies: seq<Reply>, env: Env): set<Page>
    requires |replies| == |actions|
  {
    if actions == [] then {}
    else
      var n := |actions| - 1;
      Visited(s, actions[..n], replies[..n], env) + {Run(s, actions[..n], replies[..n], env).page}
  }
}
