/** The application shell: the route table, the error boundary around the
    routed content, and the one-shot loading gate in front of everything. */
module Shell {
  import opened Wrappers
  import opened Sequences

  datatype Page = Home | Projects | Skills | Contact

  /** An explicit `<Route path=... element=...>`. */
  datatype Route = Route(path: string, page: Page)

  /** The explicit routes, in declaration order. */
  const Routes: seq<Route> := [
    Route("/", Home),
    Route("/projects", Projects),
    Route("/skills", Skills),
    Route("/contact", Contact)
  ]

  /** The page of the `*` route, declared last. */
  const CatchAllPage := Home

  /** The paths of a route table, in order. */
  function Paths(table: seq<Route>): seq<string> {
    if table == [] then [] else [table[0].path] + Paths(table[1..])
  }

  /** ASCII case folding. Each explicit path compiles to a case-insensitive
      (`i` flag, no `u` flag) regular expression; under that flag an ASCII
      letter matches either of its cases, and no non-ASCII character matches
      an ASCII one. */
  function Fold(c: char): char {
    if 'A' <= c <= 'Z' then (c as int + 32) as char else c
  }

  /** The route declared with `pattern` matches `path`: the compiled
      expression (the pattern, then any run of slashes, anchored at both
      ends) accepts the pattern up to ASCII case followed by zero or more
      slashes. */
  predicate Matches(pattern: string, path: string) {
    && |pattern| <= |path|
    && (forall k | 0 <= k < |pattern| :: Fold(path[k]) == Fold(pattern[k]))
    && (forall k | |pattern| <= k < |path| :: path[k] == '/')
  }

  /** The first route of `table` whose pattern matches `path`. */
  function Lookup(table: seq<Route>, path: string): Option<Page> {
    if table == [] then None
    else if Matches(table[0].path, path) then Some(table[0].page)
    else Lookup(table[1..], path)
  }

  /** The page rendered for `path`: the explicit route matching it, or
      else the catch-all. */
  function Resolve(path: string): Page {
    Lookup(Routes, path).GetOr(CatchAllPage)
  }

  lemma {:induction false} PathsAt(table: seq<Route>, i: nat)
    requires i < |table|
    ensures |Paths(table)| == |table| && Paths(table)[i] == table[i].path
  {
    if i > 0 {
      PathsAt(table[1..], i - 1);
    } else if |table| > 1 {
      PathsAt(table[1..], 0);
    }
  }

  /** A path finds the first route whose pattern matches it. */
  lemma {:induction false} LookupFinds(table: seq<Route>, i: nat, path: string)
    requires i < |table| && Matches(table[i].path, path)
    requires forall j | 0 <= j < i :: !Matches(table[j].path, path)
    ensures Lookup(table, path) == Some(table[i].page)
  {
    if i > 0 {
      assert table[0] == table[0 + 0];
      forall j | 0 <= j < i - 1 ensures !Matches(table[1..][j].path, path) {
        assert table[1..][j] == table[j + 1];
      }
      LookupFinds(table[1..], i - 1, path);
    }
  }

  /** A table finds nothing for `path` exactly when none of its patterns
      matches it. */
  lemma {:induction false} LookupMisses(table: seq<Route>, path: string)
    ensures Lookup(table, path) == None <==> forall i | 0 <= i < |table| :: !Matches(table[i].path, path)
  {
    if table != [] {
      LookupMisses(table[1..], path);
      if !Matches(table[0].path, path) && Lookup(table[1..], path) == None {
        forall i | 0 <= i < |table| ensures !Matches(table[i].path, path) {
          if i > 0 {
            assert table[i] == table[1..][i - 1];
          }
        }
      }
    }
  }

  /** The explicit paths are distinct. */
  lemma RoutePathsDistinct()
    ensures Paths(Routes) == ["/", "/projects", "/skills", "/contact"]
    ensures Distinct(Paths(Routes))
  {
  }

  /** No path matches two explicit routes: `/` accepts only slashes, and the
      other three differ in their first letter. */
  lemma RoutePatternsDisjoint(path: string)
    ensures forall i, j | 0 <= i < j < |Routes| :: !(Matches(Routes[i].path, path) && Matches(Routes[j].path, path))
  {
    forall i, j | 0 <= i < j < |Routes| && Matches(Routes[i].path, path)
      ensures !Matches(Routes[j].path, path)
    {
      if |path| >= 2 {
        assert Fold(path[1]) != Fold(Routes[j].path[1]);
      }
    }
  }

  /** A path matching an explicit route resolves to that route's page. */
  lemma ResolveExplicit(i: nat, path: string)
    requires i < |Routes| && Matches(Routes[i].path, path)
    ensures Resolve(path) == Routes[i].page
  {
    RoutePatternsDisjoint(path);
    LookupFinds(Routes, i, path);
  }

  /** The four explicit routes, spelled out. */
  lemma ResolveTable()
    ensures Resolve("/") == Home && Resolve("/projects") == Projects
    ensures Resolve("/skills") == Skills && Resolve("/contact") == Contact
  {
    ResolveExplicit(0, "/");
    ResolveExplicit(1, "/projects");
    ResolveExplicit(2, "/skills");
    ResolveExplicit(3, "/contact");
  }

  /** The letters of a path compare without case. */
  lemma ResolveIgnoresCase()
    ensures Resolve("/Projects") == Projects
  {
    ResolveExplicit(1, "/Projects");
  }

  /** Trailing slashes are ignored, and a path of slashes only is the root. */
  lemma ResolveIgnoresTrailingSlashes()
    ensures Resolve("/projects/") == Projects && Resolve("/contact//") == Contact
    ensures Resolve("//") == Home
  {
    ResolveExplicit(1, "/projects/");
    ResolveExplicit(3, "/contact//");
    ResolveExplicit(0, "//");
  }

  /** A path that extends or shortens an explicit path is not that route: it
      falls through to Home. */
  lemma ResolveNoPrefixMatch()
    ensures Resolve("/projects/x") == Home && Resolve("/project") == Home
  {
    NoRouteMatches("/projects/x");
    NoRouteMatches("/project");
  }

  lemma NoRouteMatches(path: string)
    requires path == "/projects/x" || path == "/project"
    ensures Resolve(path) == Home
  {
    assert path[1] == 'p';
    assert !Matches("/projects", path) by {
      if |path| > 9 { assert path[10] == 'x'; }
    }
    ResolveCatchAll(path);
  }

  /** A path no explicit route matches falls through to the catch-all and
      shows Home. */
  lemma ResolveCatchAll(path: string)
    requires forall i | 0 <= i < |Routes| :: !Matches(Routes[i].path, path)
    ensures Resolve(path) == Home
  {
    LookupMisses(Routes, path);
  }

  // ---------------------------------------------------------------------
  // ErrorBoundary
  // ---------------------------------------------------------------------

  /** The error a descendant throws while rendering. */
  datatype RenderError = RenderError(message: string)

  /** What the boundary renders: its children, the `fallback` prop, or the
      built-in "Something went wrong" view with its reload button. */
  datatype BoundaryView<Node> = ShowChildren(children: Node) | ShowFallback(fallback: Node) | DefaultErrorView

  /** One mounted `ErrorBoundary`. `fallback` is the prop, `None` when it is
      absent or falsy; `logged` records the `console.error` calls. */
  class ErrorBoundary<Node> {
    const fallback: Option<Node>
    var hasError: bool
    var error: Option<RenderError>
    var logged: seq<RenderError>

    /** Starts healthy: no error recorded. */
    constructor (fallback: Option<Node>)
      ensures this.fallback == fallback
      ensures !hasError && error == None && logged == []
    {
      this.fallback := fallback;
      hasError := false;
      error := None;
      logged := [];
    }

    /** `getDerivedStateFromError` followed by `componentDidCatch`: the error
        is stored and logged, and `hasError` is set; nothing sets it back. */
    method CatchRenderError(e: RenderError)
      modifies this`hasError, this`error, this`logged
      ensures hasError && error == Some(e)
      ensures logged == old(logged) + [e]
    {
      hasError, error := true, Some(e);
      logged := logged + [e];
    }

    /** `render`: the children while healthy; once failed, the fallback prop
        if given and otherwise the default view, never the children. */
    function Render(children: Node): (v: BoundaryView<Node>)
      reads this
      ensures v.ShowChildren? <==> !hasError
      ensures v.ShowChildren? ==> v.children == children
      ensures v.ShowFallback? <==> hasError && fallback.Some?
      ensures v.ShowFallback? ==> v.fallback == fallback.value
    {
      if hasError then
        match fallback
        case Some(f) => ShowFallback(f)
        case None => DefaultErrorView
      else ShowChildren(children)
    }
  }

  /** Failure is terminal: `CatchRenderError`, the only method that changes a
      boundary, always leaves `hasError` set, so once a boundary has failed
      no later error brings its children back. */
  method FailedIsTerminal<Node>(b: ErrorBoundary<Node>, e: RenderError, children: Node)
    modifies b
    ensures b.hasError && !b.Render(children).ShowChildren?
  {
    b.CatchRenderError(e);
  }

  // ---------------------------------------------------------------------
  // App: the loading gate
  // ---------------------------------------------------------------------

  /** What `App` renders: the spinner, or the error boundary's view of the
      routed content. */
  datatype AppView = Spinner | Mounted(content: BoundaryView<Page>)

  /** One mounted `App`. `timerPending` is the 800 ms timeout the mount effect
      schedules; `mounted` goes false when the effect's cleanup runs.
      `boundary` is the `ErrorBoundary`, without a `fallback` prop, that
      wraps the router once loading is over. */
  class App {
    var isLoading: bool
    var timerPending: bool
    var mounted: bool
    const boundary: ErrorBoundary<Page>

    /** A pending timer belongs to a mounted app that is still loading, and
        the boundary has no fallback of its own. */
    ghost predicate Valid()
      reads this
    {
      (timerPending ==> isLoading && mounted) && boundary.fallback == None
    }

    /** First render and the mount effect: loading, with the timer scheduled
        and a healthy boundary. */
    constructor ()
      ensures Valid() && isLoading && timerPending && mounted
      ensures fresh(boundary) && !boundary.hasError
    {
      isLoading := true;
      timerPending := true;
      mounted := true;
      boundary := new ErrorBoundary(None);
    }

    /** The timer fires: loading ends, for good. */
    method TimerFires()
      requires Valid() && timerPending
      modifies this
      ensures Valid() && !isLoading && !timerPending && mounted
    {
      isLoading := false;
      timerPending := false;
    }

    /** Unmount: the cleanup clears the timer, so it can no longer fire. */
    method Unmount()
      requires Valid()
      modifies this
      ensures Valid() && !mounted && !timerPending && isLoading == old(isLoading)
    {
      timerPending := false;
      mounted := false;
    }

    /** A page throws while rendering: only the routed content can, so only
        once loading is over; the boundary catches it. */
    method ContentThrows(e: RenderError)
      requires !isLoading
      modifies boundary
      ensures boundary.hasError && boundary.error == Some(e)
      ensures boundary.logged == old(boundary.logged) + [e]
    {
      boundary.CatchRenderError(e);
    }

    /** While loading only the spinner renders and no route is resolved.
        Afterwards a healthy boundary shows the page for `path`, and a failed
        one shows the default error view whatever the path. */
    function Render(path: string): (v: AppView)
      reads this, boundary
      ensures isLoading <==> v.Spinner?
      ensures !isLoading && !boundary.hasError ==> v == Mounted(ShowChildren(Resolve(path)))
      ensures !isLoading && boundary.hasError && boundary.fallback == None ==> v == Mounted(DefaultErrorView)
    {
      if isLoading then Spinner else Mounted(boundary.Render(Resolve(path)))
    }
  }

  /** After loading, `path` shows its page until a page throws; from then on
      every path, `later` included, shows the default error view. */
  method CrashScenario(path: string, e: RenderError, later: string) returns (before: AppView, after: AppView)
    ensures before == Mounted(ShowChildren(Resolve(path)))
    ensures after == Mounted(DefaultErrorView)
  {
    var app := new App();
    app.TimerFires();
    before := app.Render(path);
    app.ContentThrows(e);
    after := app.Render(later);
  }
}
