/**
 * What the navigation state machine guarantees: failed transitions change
 * nothing but the log, history is pushed exactly where the engine saves a
 * snapshot and popped in LIFO order, logout forgets the history, and every
 * action writes at most one output.
 */
module NavigationProperties {
  import opened Wrappers
  import opened Movies
  import opened Navigation

  /** A change-page action whose target is not linked from the current page writes one Empty and nothing else. */
  lemma FailedLinkChangesNothing(s: Session, env: Env, page: string, movie: string)
    requires PageNamed(page).Some? && !HasLinkTo(s, env, PageNamed(page).value)
    ensures var t := ChangePage(s, env, page, movie);
      t.page == s.page && t.history == s.history && t.catalog == s.catalog &&
      t.outputs == s.outputs + [Empty]
  {
  }

  /**
   * Which change-page actions push the current page: logout clears the
   * history, login and register keep it, and a successful move to the
   * homepage, movies, a movie's details or upgrades pushes the page as it was
   * before the move.
   */
  lemma ChangePageHistory(s: Session, env: Env, page: string, movie: string)
    ensures var t := ChangePage(s, env, page, movie);
      match PageNamed(page)
      case None => t == s
      case Some(k) =>
        var linked := HasLinkTo(s, env, k);
        match k
        case LogoutPage => t.history == if linked then [] else s.history
        case LoginPage => t.history == s.history
        case RegisterPage => t.history == s.history
        case SeeDetailsPage =>
          t.history == if linked && FindByName(ListOf(s.page.movies), movie).Some?
                       then s.history + [s.page] else s.history
        case _ => t.history == if linked then s.history + [s.page] else s.history
  {
  }

  /** A change-page action only ever moves to a page linked from the current one. */
  lemma ChangePageFollowsLinks(s: Session, env: Env, page: string, movie: string)
    ensures var t := ChangePage(s, env, page, movie);
      t.page.kind == s.page.kind || t.page.kind in env.links(s.page.kind)
  {
  }

  /** Logout leaves a blank logged-out page and no history, so a following back writes Empty. */
  lemma LogoutThenBack(s: Session, env: Env)
    requires HasLinkTo(s, env, LogoutPage)
    ensures var t := GoToLogout(s, env);
      t.page == Page(LogoutPage, None, None, None) && t.history == [] &&
      t.outputs == s.outputs && Rollback(t, env) == Write(t, Empty)
  {
  }

  /** Asking for the details of a movie that is not in the current list writes one Empty and nothing else. */
  lemma SeeDetailsOfMissingMovie(s: Session, env: Env, name: string)
    requires forall m :: m in ListOf(s.page.movies) ==> m.name != name
    ensures GoToSeeDetails(s, env, name) == Write(s, Empty)
  {
  }

  /** Back with nothing saved writes one Empty and nothing else. */
  lemma BackOnEmptyHistory(s: Session, env: Env)
    requires s.history == []
    ensures Rollback(s, env) == Write(s, Empty)
  {
  }

  /**
   * Back with a saved page pops it and makes it current. A movies page gets
   * the list the catalog offers now; a details page and a movies page write
   * what they show; any other page writes nothing.
   */
  lemma BackRestores(s: Session, env: Env)
    requires s.history != []
    ensures var p, t := s.history[|s.history| - 1], Rollback(s, env);
      t.history == s.history[..|s.history| - 1] && t.catalog == s.catalog &&
      t.page.kind == p.kind && t.page.user == p.user && t.page.movie == p.movie &&
      (p.kind == MoviesPage ==>
        var list := env.available(s.catalog, p.user);
        t.page.movies == Some(list) && t.outputs == s.outputs + [MoviesOut(Some(list), p.user)]) &&
      (p.kind == SeeDetailsPage ==>
        t.page == p && t.outputs == s.outputs + [MoviesOut(Some(Focus(p.movie)), p.user)]) &&
      (p.kind != MoviesPage && p.kind != SeeDetailsPage ==> t.page == p && t.outputs == s.outputs)
  {
  }

  /**
   * On-page login and register: a user from the store leads to the homepage
   * with that user and writes the user; a refusal logs out and writes Empty;
   * without the feature only Empty is written.
   */
  lemma AuthenticateOutcome(s: Session, env: Env, feature: string, r: Reply)
    ensures var t := Authenticate(s, env, feature, r);
      t.history == s.history && t.catalog == s.catalog &&
      (HasFeature(s, env, feature) && r.user.Some? ==>
        t.page == s.page.(kind := HomePage, user := r.user) && t.outputs == s.outputs + [UserOut(r.user)]) &&
      (HasFeature(s, env, feature) && r.user.None? ==>
        t.page == s.page.(kind := LogoutPage) && t.outputs == s.outputs + [Empty]) &&
      (!HasFeature(s, env, feature) ==> t == Write(s, Empty))
  {
  }

  /** t's output log is s's, or s's with one more record. */
  ghost predicate AppendsAtMostOne(s: Session, t: Session) {
    t.outputs == s.outputs || (t.outputs != [] && t.outputs == s.outputs + [t.outputs[|t.outputs| - 1]])
  }

  lemma ChangePageAppends(s: Session, env: Env, page: string, movie: string)
    ensures AppendsAtMostOne(s, ChangePage(s, env, page, movie))
  {
  }

  lemma OnPageAppends(s: Session, env: Env, feature: string, startsWith: string, filters: FilterId, r: Reply)
    ensures AppendsAtMostOne(s, OnPage(s, env, feature, startsWith, filters, r))
  {
  }

  lemma RollbackAppends(s: Session, env: Env)
    ensures AppendsAtMostOne(s, Rollback(s, env))
  {
  }

  /** Every action keeps the output log and appends at most one record to it. */
  lemma StepWritesAtMostOnce(s: Session, a: Action, r: Reply, env: Env)
    ensures var t := Step(s, a, r, env);
      |s.outputs| <= |t.outputs| <= |s.outputs| + 1 && t.outputs[..|s.outputs|] == s.outputs
  {
    match a
    case ChangePageAction(page, movie) => ChangePageAppends(s, env, page, movie);
    case OnPageAction(feature, startsWith, filters) => OnPageAppends(s, env, feature, startsWith, filters, r);
    case DatabaseAction(_, _, _) =>
    case BackAction => RollbackAppends(s, env);
    case UnknownAction(_) =>
  }

  /** Actions of unknown type, and change-page, on-page or database actions naming nothing known, change nothing. */
  lemma UnknownIsIgnored(s: Session, env: Env, r: Reply, a: Action)
    requires match a
      case ChangePageAction(page, _) => PageNamed(page).None?
      case OnPageAction(feature, _, _) =>
        feature !in {"login", "register", "search", "filter", "purchase", "watch", "like", "rate",
                     "subscribe", "buy premium account", "buy tokens"}
      case DatabaseAction(feature, _, _) => feature != "add" && feature != "delete"
      case BackAction => false
      case UnknownAction(_) => true
    ensures Step(s, a, r, env) == s
  {
  }

  /** A successful add or delete changes only the catalog; a failed one writes one Empty. */
  lemma DatabaseOutcome(s: Session, m: Movie, name: string)
    ensures m.name !in s.catalog ==> AddMovie(s, m) == s.(catalog := s.catalog[m.name := m])
    ensures m.name in s.catalog ==> AddMovie(s, m) == Write(s, Empty)
    ensures name in s.catalog ==> DeleteMovie(s, name) == s.(catalog := s.catalog - {name})
    ensures name !in s.catalog ==> DeleteMovie(s, name) == Write(s, Empty)
  {
  }

  /** Subscribe and premium purchase write nothing exactly when allowed and accepted; otherwise one Empty. */
  lemma SilentFeatureOutcome(s: Session, env: Env, feature: string, r: Reply)
    ensures var t := SilentFeature(s, env, feature, r);
      (t == s <==> HasFeature(s, env, feature) && r.accepted) &&
      (t != s <==> t == Write(s, Empty))
  {
  }

  /** A step keeps only saved pages or the page it started on in the history. */
  lemma StepHistory(s: Session, a: Action, r: Reply, env: Env)
    ensures forall p :: p in Step(s, a, r, env).history ==> p in s.history || p == s.page
  {
    var t := Step(s, a, r, env);
    if a.BackAction? && s.history != [] {
      forall p | p in t.history
        ensures p in s.history
      {
        var i :| 0 <= i < |t.history| && t.history[i] == p;
        assert s.history[i] == p;
      }
    }
  }

  lemma RunSnoc(s: Session, actions: seq<Action>, replies: seq<Reply>, env: Env, i: int)
    requires |replies| == |actions| && 0 <= i < |actions|
    ensures Run(s, actions[..i + 1], replies[..i + 1], env) ==
            Step(Run(s, actions[..i], replies[..i], env), actions[i], replies[i], env)
  {
    assert actions[..i + 1][..i] == actions[..i];
    assert replies[..i + 1][..i] == replies[..i];
  }

  /** A run keeps the output log and appends at most one record per action. */
  lemma {:induction false} RunWritesAtMostOncePerAction(s: Session, actions: seq<Action>, replies: seq<Reply>, env: Env)
    requires |replies| == |actions|
    ensures var t := Run(s, actions, replies, env);
      |s.outputs| <= |t.outputs| <= |s.outputs| + |actions| && t.outputs[..|s.outputs|] == s.outputs
    decreases |actions|
  {
    if actions != [] {
      var n := |actions| - 1;
      var u := Run(s, actions[..n], replies[..n], env);
      RunWritesAtMostOncePerAction(s, actions[..n], replies[..n], env);
      StepWritesAtMostOnce(u, actions[n], replies[n], env);
      assert Run(s, actions, replies, env).outputs[..|s.outputs|] == u.outputs[..|u.outputs|][..|s.outputs|];
    }
  }

  /**
   * Along a run, every action enters a page linked from the page it was on,
   * or stays on it, as long as the run only changes pages.
   */
  lemma ChangePagesFollowLinks(s: Session, actions: seq<Action>, replies: seq<Reply>, env: Env)
    requires |replies| == |actions|
    requires forall i :: 0 <= i < |actions| ==> actions[i].ChangePageAction?
    ensures forall i :: 0 <= i < |actions| ==>
      var before := Run(s, actions[..i], replies[..i], env).page.kind;
      var after := Run(s, actions[..i + 1], replies[..i + 1], env).page.kind;
      after == before || after in env.links(before)
  {
    forall i | 0 <= i < |actions|
      ensures var before := Run(s, actions[..i], replies[..i], env).page.kind;
        var after := Run(s, actions[..i + 1], replies[..i + 1], env).page.kind;
        after == before || after in env.links(before)
    {
      RunSnoc(s, actions, replies, env, i);
      ChangePageFollowsLinks(Run(s, actions[..i], replies[..i], env), env, actions[i].page, actions[i].movie);
    }
  }

  /** After a run, the history holds only pages saved before it or pages the run went through. */
  lemma {:induction false} RunHistory(s: Session, actions: seq<Action>, replies: seq<Reply>, env: Env)
    requires |replies| == |actions|
    ensures forall p :: p in Run(s, actions, replies, env).history ==>
      p in s.history || p in Visited(s, actions, replies, env)
    decreases |actions|
  {
    if actions != [] {
      var n := |actions| - 1;
      RunHistory(s, actions[..n], replies[..n], env);
      StepHistory(Run(s, actions[..n], replies[..n], env), actions[n], replies[n], env);
    }
  }

  /** Nothing saved before a logout can be restored after it: only pages reached after the logout are on the stack. */
  lemma LogoutForgetsHistory(s: Session, env: Env, actions: seq<Action>, replies: seq<Reply>)
    requires |replies| == |actions| && HasLinkTo(s, env, LogoutPage)
    ensures var u := GoToLogout(s, env);
      forall p :: p in Run(u, actions, replies, env).history ==> p in Visited(u, actions, replies, env)
  {
    RunHistory(GoToLogout(s, env), actions, replies, env);
  }

  /**
   * History is LIFO: after two moves that each save a page, starting from an
   * empty history, back restores the page of the second save, then the page of
   * the first, and a third back finds nothing.
   */
  lemma TwoSavesThenThreeBacks(s: Session, env: Env, first: Action, second: Action, r: Reply)
    requires s.history == []
    requires Step(s, first, r, env).history == [s.page]
    requires Step(Step(s, first, r, env), second, r, env).history == [s.page, Step(s, first, r, env).page]
    ensures var t1 := Step(s, first, r, env);
      var b1 := Rollback(Step(t1, second, r, env), env);
      var b2 := Rollback(b1, env);
      b1.page.kind == t1.page.kind && b1.page.user == t1.page.user && b1.page.movie == t1.page.movie &&
      b1.history == [s.page] &&
      b2.page.kind == s.page.kind && b2.page.user == s.page.user && b2.page.movie == s.page.movie &&
      b2.history == [] &&
      Rollback(b2, env) == Write(b2, Empty)
  {
    var t1 := Step(s, first, r, env);
    var t2 := Step(t1, second, r, env);
    BackRestores(t2, env);
    var b1 := Rollback(t2, env);
    assert b1.history == [s.page];
    BackRestores(b1, env);
  }

  /** The recommendation is written, once, only for a logged-in premium user. */
  lemma RecommendationOnlyForPremium(s: Session, premium: bool)
    ensures var t := Finish(s, premium);
      t.page == s.page && t.history == s.history && t.catalog == s.catalog &&
      (s.page.user.Some? && premium ==> t.outputs == s.outputs + [MoviesOut(None, s.page.user)]) &&
      (!premium || s.page.user.None? ==> t.outputs == s.outputs)
  {
  }
}
