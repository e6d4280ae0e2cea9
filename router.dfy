/**
 * The router (core/router/Routable.php, core/router/Router.php): an ordered list of
 * routes, registered with a method mask, and rewrite(), which normalises the URL and
 * its extension and then scans the routes in order; the first route that yields a
 * Path or a Response wins, and any other rewrite replaces the URL for the routes
 * after it.
 *
 * Route, URIPattern, Path and ParametrizedPath are not part of this model: a route is
 * a value, and what its test() and rewrite() answer is a parameter (a Matcher).
 */
module Routing {
  import opened Wrappers
  import opened Php
  import opened Entities

  /** The method flags of Route (assumed values; GET|POST is the documented default 0x03). */
  const MethodGet: int := 0x01
  const MethodPost: int := 0x02
  const MethodHead: int := 0x04
  const MethodPut: int := 0x08
  const MethodDelete: int := 0x10
  const MethodOptions: int := 0x20

  /** addRoute()'s defaults for the method and the protocol mask. */
  const DefaultMethod: int := 0x03
  const DefaultProtocol: int := 0x03

  /** What a route leads to: a Path, a Response, a Closure or a ParametrizedPath (each known by a name). */
  datatype Target = PathTarget(path: string) | ResponseTarget(response: string) | ClosureTarget(id: nat) | Parametrized(parts: seq<string>)

  /** What addRoute() may be given as a target: one of the accepted objects, an array, or anything else. */
  datatype TargetArg = Given(t: Target) | ArrayArg(items: seq<string>) | OtherArg

  datatype Route = Route(pattern: string, target: Target, methods: int, protocol: int)

  /** What a route's rewrite() returns: false, a new URL, a Path or a Response. */
  datatype Rewritten = NoRewrite | NewUrl(url: string) | ToPath(path: string) | ToResponse(response: string)
  {
    predicate Conclusive() { ToPath? || ToResponse? }
  }

  /** The request a URL is rewritten for. */
  datatype Request = Request(verb: string, protocol: string)

  /** The answers of the routes: test($url, $method, $protocol) and rewrite($url, $method, $protocol, $ext). */
  datatype Matcher = Matcher(test: (Route, string, Request) -> bool, rewrite: (Route, string, Request, string) -> Rewritten)

  /** The URL and extension rewrite() works with. */
  datatype Normalised = Normalised(url: string, ext: string)

  /**
   * A URL ending in "/" is rebuilt as dirname/basename (the trailing slash goes) with
   * extension "php"; any other URL loses its extension: dirname/filename.
   */
  function Normalise(url: string): Normalised
  {
    if EndsWith(url, "/") then Normalised(Dirname(url) + "/" + Basename(url), "php")
    else Normalised(Dirname(url) + "/" + Filename(url), Extension(url))
  }

  /** A basename never contains a slash. */
  lemma BasenameHasNoSlash(p: string)
    ensures '/' !in Basename(p)
  {
    var t := RTrim(p, Slash);
    if '/' in t {
      var k := LastIndex(t, '/');
      assert Basename(p) == t[k + 1..];
    } else {
      assert Basename(p) == t;
    }
  }

  /** A directory URL with a last component loses its trailing slash and is served as "php". */
  lemma TrailingSlashRemoved(url: string)
    requires EndsWith(url, "/") && Basename(url) != ""
    ensures !EndsWith(Normalise(url).url, "/") && Normalise(url).ext == "php"
    ensures var n := Normalise(url).url; n[|n| - |Basename(url)|..] == Basename(url)
  {
    BasenameHasNoSlash(url);
    var b := Basename(url);
    var n := Normalise(url).url;
    assert n == (Dirname(url) + "/") + b;
    assert n[|n| - 1] == b[|b| - 1];
  }

  /** For a file URL the filename and the extension split the basename at its last dot. */
  lemma ExtensionSplit(url: string)
    requires !EndsWith(url, "/") && '.' in Basename(url)
    ensures Filename(url) + "." + Extension(url) == Basename(url)
    ensures Normalise(url) == Normalised(Dirname(url) + "/" + Filename(url), Extension(url))
  {
    var b := Basename(url);
    var k := LastIndex(b, '.');
    assert b == b[..k] + [b[k]] + b[k + 1..];
  }

  /** The URL the route at position n sees, when no route before it was conclusive. */
  function Next(route: Route, url: string, req: Request, ext: string, m: Matcher): string
  {
    if !m.test(route, url, req) then url
    else match m.rewrite(route, url, req, ext)
      case NewUrl(u) => u
      case _ => url
  }

  function UrlAt(routes: seq<Route>, url: string, req: Request, ext: string, m: Matcher, n: nat): string
    requires n <= |routes|
    decreases n
  {
    if n == 0 then url else UrlAt(routes[1..], Next(routes[0], url, req, ext, m), req, ext, m, n - 1)
  }

  /** Whether a route settles the request: it passes its test and rewrites to a Path or a Response. */
  predicate Conclusive(route: Route, url: string, req: Request, ext: string, m: Matcher)
  {
    m.test(route, url, req) && m.rewrite(route, url, req, ext).Conclusive()
  }

  /** The scan of rewrite(): None stands for the false it returns when no route is conclusive. */
  function Scan(routes: seq<Route>, url: string, req: Request, ext: string, m: Matcher): (r: Option<Rewritten>)
    ensures r.Some? ==> r.value.Conclusive()
  {
    if routes == [] then None
    else if Conclusive(routes[0], url, req, ext, m) then Some(m.rewrite(routes[0], url, req, ext))
    else Scan(routes[1..], Next(routes[0], url, req, ext, m), req, ext, m)
  }

  /**
   * The first conclusive route wins: if route i is conclusive for the URL it sees and
   * none before it was, rewrite() returns route i's answer.
   */
  lemma {:induction false} FirstConclusiveWins(routes: seq<Route>, url: string, req: Request, ext: string, m: Matcher, i: nat)
    requires i < |routes|
    requires Conclusive(routes[i], UrlAt(routes, url, req, ext, m, i), req, ext, m)
    requires forall j :: 0 <= j < i ==> !Conclusive(routes[j], UrlAt(routes, url, req, ext, m, j), req, ext, m)
    ensures Scan(routes, url, req, ext, m) == Some(m.rewrite(routes[i], UrlAt(routes, url, req, ext, m, i), req, ext))
    decreases i
  {
    if i > 0 {
      assert !Conclusive(routes[0], UrlAt(routes, url, req, ext, m, 0), req, ext, m);
      var u := Next(routes[0], url, req, ext, m);
      forall j | 0 <= j < i - 1
        ensures !Conclusive(routes[1..][j], UrlAt(routes[1..], u, req, ext, m, j), req, ext, m)
      {
        assert UrlAt(routes, url, req, ext, m, j + 1) == UrlAt(routes[1..], u, req, ext, m, j);
        assert routes[1..][j] == routes[j + 1];
      }
      assert UrlAt(routes, url, req, ext, m, i) == UrlAt(routes[1..], u, req, ext, m, i - 1);
      FirstConclusiveWins(routes[1..], u, req, ext, m, i - 1);
    }
  }

  /** rewrite() returns false exactly when no route is conclusive for the URL it sees. */
  lemma {:induction false} NoneConclusive(routes: seq<Route>, url: string, req: Request, ext: string, m: Matcher)
    ensures Scan(routes, url, req, ext, m) == None <==>
            forall j :: 0 <= j < |routes| ==> !Conclusive(routes[j], UrlAt(routes, url, req, ext, m, j), req, ext, m)
    decreases |routes|
  {
    if routes != [] {
      var u := Next(routes[0], url, req, ext, m);
      NoneConclusive(routes[1..], u, req, ext, m);
      forall j | 0 <= j < |routes| - 1
        ensures UrlAt(routes, url, req, ext, m, j + 1) == UrlAt(routes[1..], u, req, ext, m, j) && routes[1..][j] == routes[j + 1]
      {
      }
      if Scan(routes, url, req, ext, m) == None {
        forall j | 0 <= j < |routes|
          ensures !Conclusive(routes[j], UrlAt(routes, url, req, ext, m, j), req, ext, m)
        {
          if j > 0 {
            assert !Conclusive(routes[1..][j - 1], UrlAt(routes[1..], u, req, ext, m, j - 1), req, ext, m);
          }
        }
      } else if !Conclusive(routes[0], url, req, ext, m) {
        var j :| 0 <= j < |routes[1..]| && Conclusive(routes[1..][j], UrlAt(routes[1..], u, req, ext, m, j), req, ext, m);
        assert Conclusive(routes[j + 1], UrlAt(routes, url, req, ext, m, j + 1), req, ext, m);
      }
    }
  }

  /** A route that fails its test is skipped, and the URL passes on unchanged. */
  lemma FailingRouteSkipped(route: Route, rest: seq<Route>, url: string, req: Request, ext: string, m: Matcher)
    requires !m.test(route, url, req)
    ensures Scan([route] + rest, url, req, ext, m) == Scan(rest, url, req, ext, m)
  {
    assert ([route] + rest)[1..] == rest;
  }

  /** A route that rewrites to a new URL hands that URL to the routes after it: the scan goes on, it does not restart. */
  lemma RewriteCarriesOn(route: Route, rest: seq<Route>, url: string, req: Request, ext: string, m: Matcher, u: string)
    requires m.test(route, url, req) && m.rewrite(route, url, req, ext) == NewUrl(u)
    ensures Scan([route] + rest, url, req, ext, m) == Scan(rest, u, req, ext, m)
  {
    assert ([route] + rest)[1..] == rest;
  }

  /** rtrim($this->namespace, '/') . ltrim($scope, '/'), as written: the separator between the two is lost. */
  function ScopeAsWritten(parent: string, scope: string): string
  {
    RTrim(parent, Slash) + LTrim(scope, Slash)
  }

  /** At a joint of this shape rtrim() keeps the parent and ltrim() takes off exactly the one '/'. */
  lemma JointTrims(parent: string, scope: string)
    requires parent != [] && parent[|parent| - 1] != '/'
    requires scope != [] && scope[0] != '/'
    ensures RTrim(parent, Slash) == parent
    ensures LTrim("/" + scope, Slash) == scope
  {
    assert parent[|parent| - 1] !in Slash;
    var t := "/" + scope;
    assert t[0] in Slash && t[1..] == scope;
    assert scope[0] !in Slash;
  }

  /**
   * Whenever the parent does not end in '/' and the scope is "/" followed by a name,
   * the name is glued straight onto the parent: no '/' separates the two.
   */
  lemma ScopeAsWrittenLosesSeparator(parent: string, scope: string)
    requires parent != [] && parent[|parent| - 1] != '/'
    requires scope != [] && scope[0] != '/'
    ensures ScopeAsWritten(parent, "/" + scope) == parent + scope
    ensures ScopeAsWritten(parent, "/" + scope)[|parent|] != '/'
  {
    JointTrims(parent, scope);
  }

  /** "/api" scoped by "/v1" gives "/apiv1", which is not under "/api/". */
  lemma ScopeAsWrittenExample()
    ensures ScopeAsWritten("/api", "/v1") == "/apiv1"
  {
    ScopeAsWrittenLosesSeparator("/api", "v1");
    assert "/" + "v1" == "/v1" && "/api" + "v1" == "/apiv1";
  }

  /** The child namespace as evidently intended: both parts trimmed and joined by exactly one "/". */
  function ScopedNamespace(parent: string, scope: string): (r: string)
    ensures |r| > |RTrim(parent, Slash)| && r[..|RTrim(parent, Slash)| + 1] == RTrim(parent, Slash) + "/"
  {
    var p := RTrim(parent, Slash);
    var r := p + "/" + LTrim(scope, Slash);
    assert r[..|p| + 1] == p + "/";
    r
  }

  /** Extra slashes at the joint do not matter: the parent's trailing ones and the scope's leading ones are dropped. */
  lemma ScopedNamespaceIgnoresSlashes(parent: string, scope: string)
    ensures ScopedNamespace(parent + "/", scope) == ScopedNamespace(parent, scope)
    ensures ScopedNamespace(parent, "/" + scope) == ScopedNamespace(parent, scope)
  {
    assert (parent + "/")[..|parent + "/"| - 1] == parent;
    assert ("/" + scope)[1..] == scope;
  }

  /** The intended join keeps the separator the as-written one loses, for the same inputs. */
  lemma ScopedNamespaceKeepsSeparator(parent: string, scope: string)
    requires parent != [] && parent[|parent| - 1] != '/'
    requires scope != [] && scope[0] != '/'
    ensures ScopedNamespace(parent, "/" + scope) == parent + "/" + scope
    ensures ScopedNamespace(parent, "/" + scope)[|parent|] == '/'
  {
    JointTrims(parent, scope);
  }

  /** "/api" scoped by "/v1" gives "/api/v1". */
  lemma ScopedNamespaceExample()
    ensures ScopedNamespace("/api", "/v1") == "/api/v1"
  {
    ScopedNamespaceKeepsSeparator("/api", "v1");
    assert "/" + "v1" == "/v1" && "/api" + "/" + "v1" == "/api/v1";
  }

  class Router {
    var routes: seq<Route>
    const namespace: string

    /** A new router, with its namespace and no routes. */
    constructor(namespace: string)
      ensures this.namespace == namespace && routes == []
    {
      this.namespace := namespace;
      routes := [];
    }

    function GetRoutes(): seq<Route>
      reads this
    {
      routes
    }

    /**
     * addRoute($pattern, $target, $method, $protocol): a Path, Response, Closure or
     * ParametrizedPath target, or an array (made into a ParametrizedPath), is appended
     * as one new route; any other target adds nothing and gives null.
     */
    method AddRoute(pattern: string, target: TargetArg, methods: int := DefaultMethod, protocol: int := DefaultProtocol)
      returns (r: Option<Route>)
      modifies this
      ensures target.OtherArg? <==> r.None?
      ensures r.None? ==> routes == old(routes)
      ensures r.Some? ==> routes == old(routes) + [r.value] && r.value.pattern == pattern &&
                          r.value.methods == methods && r.value.protocol == protocol
      ensures target.Given? ==> r.Some? && r.value.target == target.t
      ensures target.ArrayArg? ==> r.Some? && r.value.target == Parametrized(target.items)
    {
      match target
      case Given(t) =>
        var route := Route(pattern, t, methods, protocol);
        routes := routes + [route];
        r := Some(route);
      case ArrayArg(items) =>
        var route := Route(pattern, Parametrized(items), methods, protocol);
        routes := routes + [route];
        r := Some(route);
      case OtherArg =>
        r := None;
    }

    /** request(): a route for GET, POST or HEAD requests. */
    method Request(pattern: string, target: TargetArg) returns (r: Option<Route>)
      modifies this
      ensures r.None? <==> target.OtherArg?
      ensures r.None? ==> routes == old(routes)
      ensures r.Some? ==> routes == old(routes) + [r.value] && r.value.pattern == pattern &&
                          r.value.methods == MethodGet + MethodPost + MethodHead && r.value.protocol == DefaultProtocol
      ensures target.Given? ==> r.Some? && r.value.target == target.t
      ensures target.ArrayArg? ==> r.Some? && r.value.target == Parametrized(target.items)
    {
      r := AddRoute(pattern, target, MethodGet + MethodPost + MethodHead);
    }

    /** get(): a route for GET requests only. */
    method Get(pattern: string, target: TargetArg) returns (r: Option<Route>)
      modifies this
      ensures r.None? <==> target.OtherArg?
      ensures r.None? ==> routes == old(routes)
      ensures r.Some? ==> routes == old(routes) + [r.value] && r.value.pattern == pattern &&
                          r.value.methods == MethodGet && r.value.protocol == DefaultProtocol
      ensures target.Given? ==> r.Some? && r.value.target == target.t
      ensures target.ArrayArg? ==> r.Some? && r.value.target == Parametrized(target.items)
    {
      r := AddRoute(pattern, target, MethodGet);
    }

    /** options(): a route for OPTIONS (pre-flight) requests only. */
    method Options(pattern: string, target: TargetArg) returns (r: Option<Route>)
      modifies this
      ensures r.None? <==> target.OtherArg?
      ensures r.None? ==> routes == old(routes)
      ensures r.Some? ==> routes == old(routes) + [r.value] && r.value.pattern == pattern &&
                          r.value.methods == MethodOptions && r.value.protocol == DefaultProtocol
      ensures target.Given? ==> r.Some? && r.value.target == target.t
      ensures target.ArrayArg? ==> r.Some? && r.value.target == Parametrized(target.items)
    {
      r := AddRoute(pattern, target, MethodOptions);
    }

    /** put(): a route for PUT requests only. */
    method Put(pattern: string, target: TargetArg) returns (r: Option<Route>)
      modifies this
      ensures r.None? <==> target.OtherArg?
      ensures r.None? ==> routes == old(routes)
      ensures r.Some? ==> routes == old(routes) + [r.value] && r.value.pattern == pattern &&
                          r.value.methods == MethodPut && r.value.protocol == DefaultProtocol
      ensures target.Given? ==> r.Some? && r.value.target == target.t
      ensures target.ArrayArg? ==> r.Some? && r.value.target == Parametrized(target.items)
    {
      r := AddRoute(pattern, target, MethodPut);
    }

    /** delete(): a route for DELETE requests only. */
    method Delete(pattern: string, target: TargetArg) returns (r: Option<Route>)
      modifies this
      ensures r.None? <==> target.OtherArg?
      ensures r.None? ==> routes == old(routes)
      ensures r.Some? ==> routes == old(routes) + [r.value] && r.value.pattern == pattern &&
                          r.value.methods == MethodDelete && r.value.protocol == DefaultProtocol
      ensures target.Given? ==> r.Some? && r.value.target == target.t
      ensures target.ArrayArg? ==> r.Some? && r.value.target == Parametrized(target.items)
    {
      r := AddRoute(pattern, target, MethodDelete);
    }

    /** post(): a route for POST requests only. */
    method Post(pattern: string, target: TargetArg) returns (r: Option<Route>)
      modifies this
      ensures r.None? <==> target.OtherArg?
      ensures r.None? ==> routes == old(routes)
      ensures r.Some? ==> routes == old(routes) + [r.value] && r.value.pattern == pattern &&
                          r.value.methods == MethodPost && r.value.protocol == DefaultProtocol
      ensures target.Given? ==> r.Some? && r.value.target == target.t
      ensures target.ArrayArg? ==> r.Some? && r.value.target == Parametrized(target.items)
    {
      r := AddRoute(pattern, target, MethodPost);
    }

    /**
     * rewrite($url, $method, $protocol): normalise the URL and extension, then try the
     * routes in order; a route that fails its test is skipped, a Path or Response is
     * returned at once, and any other non-false rewrite becomes the URL from then on.
     */
    method Rewrite(url: string, req: Request, m: Matcher) returns (r: Option<Rewritten>)
      ensures var n := Normalise(url); r == Scan(routes, n.url, req, n.ext, m)
    {
      var n := Normalise(url);
      var u := n.url;
      var ext := n.ext;
      var i := 0;
      while i < |routes|
        invariant 0 <= i <= |routes|
        invariant Scan(routes, n.url, req, ext, m) == Scan(routes[i..], u, req, ext, m)
      {
        var route := routes[i];
        assert routes[i..][1..] == routes[i + 1..];
        if !m.test(route, u, req) {
          i := i + 1;
          continue;
        }
        var rw := m.rewrite(route, u, req, ext);
        if rw.ToPath? || rw.ToResponse? {
          return Some(rw);
        }
        if !rw.NoRewrite? {
          u := rw.url;
        }
        i := i + 1;
      }
      r := None;
    }

    /**
     * scope($scope, $do): a new router is made under this one's namespace joined to the
     * scope as written (no '/' is put back between them), and handed to $do. The call
     * never returns normally: without a callback $do is null and calling it is an
     * Error; with one, pushing the child onto $this->children, which nothing ever
     * initialises, is an Error. The callback's own effects are not modelled.
     */
    method Scope(scope: string, hasCallback: bool) returns (child: Router, r: Result<Router, Exception>)
      ensures fresh(child) && child.namespace == ScopeAsWritten(namespace, scope)
      ensures !hasCallback ==> child.routes == [] && r == Failure(PhpError("Value of type null is not callable"))
      ensures hasCallback ==> r == Failure(PhpError("Call to a member function push() on null"))
    {
      child := new Router(ScopeAsWritten(namespace, scope));
      if !hasCallback {
        return child, Failure(PhpError("Value of type null is not callable"));
      }
      r := Failure(PhpError("Call to a member function push() on null"));
    }
  }

  /** Registering a route leaves every earlier route in place and makes the new one last. */
  method RegisterTwo(r: Router, p1: string, t1: Target, p2: string, t2: Target) returns (a: Option<Route>, b: Option<Route>)
    modifies r
    ensures a.Some? && b.Some? && r.routes == old(r.routes) + [a.value, b.value]
    ensures a.value.target == t1 && b.value.target == t2
    ensures a.value.methods == DefaultMethod && a.value.protocol == DefaultProtocol
  {
    a := r.AddRoute(p1, Given(t1));
    b := r.AddRoute(p2, Given(t2));
  }
}
