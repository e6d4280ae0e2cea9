/**
 * The legacy dispatcher's start-up (spitfire/spitfire.php): init() runs once, and
 * getPath() splits the request path into controller, action and object, with the
 * configured defaults and two rejections; baseUrl() cuts the script path at
 * "/index.php".
 *
 * The environment's settings, $_SERVER and the legacy static router's rewrite are
 * parameters; the autoloader, the includes and the exception handler are not modelled.
 */
module Bootstrap {
  import opened Wrappers
  import opened Php
  import opened Entities

  const IndexScript: string := "/index.php"

  /** list($base_url) = explode('/index.php', $_SERVER['PHP_SELF'], 2) */
  function BaseUrl(self: string): (r: string)
    ensures |r| <= |self| && r == self[..|r|]
    ensures forall j :: 0 <= j <= |r| ==> !OccursAt(r, IndexScript, j)
    ensures r == self || OccursAt(self, IndexScript, |r|)
  {
    match Find(self, IndexScript)
    case None => self
    case Some(i) =>
      var r := self[..i];
      assert forall j :: 0 <= j <= |r| && OccursAt(r, IndexScript, j) ==> OccursAt(self, IndexScript, j) by {
        forall j | 0 <= j <= |r| && OccursAt(r, IndexScript, j) ensures OccursAt(self, IndexScript, j) {
          assert r[j..j + |IndexScript|] == self[j..j + |IndexScript|];
        }
      }
      r
  }

  /** The settings getPath() reads from the environment, and the not-found error's message and code. */
  datatype Env = Env(
    maintenance: bool,
    maintenanceController: string,
    defaultController: string,
    defaultAction: string,
    defaultObject: seq<string>,
    notFoundMessage: string,
    notFoundCode: int)

  /** What getPath() settles on: a controller, an action (false in maintenance mode) and an object. */
  datatype Dispatch = Dispatch(controller: string, action: Option<string>, objectParts: Option<seq<string>>)

  /** empty() of a path segment: "" and "0" are empty. */
  predicate EmptySegment(s: string) { s == "" || s == "0" }

  /** substr($p, 1): the path without its first character ("" for a path that is too short). */
  function DropFirst(p: string): string
  {
    if |p| >= 1 then p[1..] else ""
  }

  /** The exception getPath() throws for a request to the maintenance controller. */
  const MaintenanceRequested: Exception := PublicException("User tried to access maintenance mode", 401)

  /**
   * getPath() outside maintenance mode, given the rewritten path: segment 0 is the
   * controller, segment 1 the action and the rest the object; empty ones take the
   * defaults; the maintenance controller and actions starting with '_' are rejected.
   */
  function ParsePath(env: Env, rewritten: string): (r: Result<Dispatch, Exception>)
    ensures r.Success? ==> r.value.action.Some? && r.value.objectParts.Some?
  {
    var path := Explode('/', DropFirst(rewritten));
    var controller := if EmptySegment(path[0]) then env.defaultController else path[0];
    var action := if |path| < 2 || EmptySegment(path[1]) then env.defaultAction else path[1];
    var objectParts := if |path| <= 2 then env.defaultObject else path[2..];
    if controller == env.maintenanceController then Failure(MaintenanceRequested)
    else if |action| >= 1 && action[0] == '_' then Failure(PublicException(env.notFoundMessage, env.notFoundCode))
    else Success(Dispatch(controller, Some(action), Some(objectParts)))
  }

  /** Without defaults at play, the three parts joined by "/" give back the path after its first character. */
  lemma ParseRoundTrip(env: Env, rewritten: string)
    requires ParsePath(env, rewritten).Success?
    requires var path := Explode('/', DropFirst(rewritten));
             |path| > 2 && !EmptySegment(path[0]) && !EmptySegment(path[1])
    ensures var d := ParsePath(env, rewritten).value;
            Join([d.controller, d.action.value] + d.objectParts.value, "/") == DropFirst(rewritten)
  {
    var path := Explode('/', DropFirst(rewritten));
    JoinExplode('/', DropFirst(rewritten));
    assert [path[0], path[1]] + path[2..] == path;
  }

  /** The rejections: the maintenance controller gives 401, a hidden action ('_' first) gives not-found; nothing else fails. */
  lemma ParseRejections(env: Env, rewritten: string)
    ensures var path := Explode('/', DropFirst(rewritten));
            var controller := if EmptySegment(path[0]) then env.defaultController else path[0];
            var action := if |path| < 2 || EmptySegment(path[1]) then env.defaultAction else path[1];
            (controller == env.maintenanceController ==> ParsePath(env, rewritten) == Failure(MaintenanceRequested)) &&
            (controller != env.maintenanceController && |action| >= 1 && action[0] == '_' ==>
               ParsePath(env, rewritten) == Failure(PublicException(env.notFoundMessage, env.notFoundCode))) &&
            (ParsePath(env, rewritten).Failure? <==>
               controller == env.maintenanceController || (|action| >= 1 && action[0] == '_'))
  {
  }

  /**
   * A path of at most two segments, each of them empty ("" or "0"), dispatches to the
   * default controller, action and object; a third segment, even an empty one, is the object.
   */
  lemma EmptySegmentsDefault(env: Env, rewritten: string)
    requires env.defaultController != env.maintenanceController
    requires env.defaultAction == "" || env.defaultAction[0] != '_'
    ensures var path := Explode('/', DropFirst(rewritten));
            |path| <= 2 && (forall k :: 0 <= k < |path| ==> EmptySegment(path[k])) ==>
              ParsePath(env, rewritten) == Success(Dispatch(env.defaultController, Some(env.defaultAction), Some(env.defaultObject)))
    ensures var path := Explode('/', DropFirst(rewritten));
            |path| > 2 && ParsePath(env, rewritten).Success? ==> ParsePath(env, rewritten).value.objectParts == Some(path[2..])
  {
  }

  /** An empty path ("" or "/") dispatches to the default controller, action and object. */
  lemma EmptyPathDefaults(env: Env, rewritten: string)
    requires |rewritten| <= 1
    requires env.defaultController != env.maintenanceController
    requires env.defaultAction == "" || env.defaultAction[0] != '_'
    ensures ParsePath(env, rewritten) == Success(Dispatch(env.defaultController, Some(env.defaultAction), Some(env.defaultObject)))
  {
    assert DropFirst(rewritten) == "";
    assert Explode('/', "") == [""];
  }

  /** The static state of the dispatcher that init() and getPath() touch. */
  class Dispatcher {
    var started: bool
    /** $controller_name, $action, $object (false until getPath() succeeds). */
    var controllerName: Option<string>
    var action: Option<string>
    var objectParts: Option<seq<string>>
    /** The controller/action/object constants defined in maintenance mode. */
    var constants: Option<Dispatch>

    constructor()
      ensures !started && controllerName.None? && action.None? && objectParts.None? && constants.None?
    {
      started := false;
      controllerName := None;
      action := None;
      objectParts := None;
      constants := None;
    }

    /**
     * getPath(): in maintenance mode the constants name the maintenance controller,
     * with action and object false; otherwise the rewritten PATH_INFO is parsed and
     * stored, or the exception propagates and nothing is stored.
     */
    method GetPath(env: Env, pathInfo: string, rewrite: string -> string) returns (r: Result<bool, Exception>)
      modifies this
      ensures started == old(started)
      ensures env.maintenance ==>
                r == Success(true) && constants == Some(Dispatch(env.maintenanceController, None, None)) &&
                controllerName == old(controllerName) && action == old(action) && objectParts == old(objectParts)
      ensures !env.maintenance ==> constants == old(constants)
      ensures !env.maintenance && ParsePath(env, rewrite(pathInfo)).Failure? ==>
                r == Failure(ParsePath(env, rewrite(pathInfo)).error) &&
                controllerName == old(controllerName) && action == old(action) && objectParts == old(objectParts)
      ensures !env.maintenance && ParsePath(env, rewrite(pathInfo)).Success? ==>
                var d := ParsePath(env, rewrite(pathInfo)).value;
                r == Success(true) && controllerName == Some(d.controller) && action == d.action && objectParts == d.objectParts
    {
      if env.maintenance {
        constants := Some(Dispatch(env.maintenanceController, None, None));
        return Success(true);
      }
      var info := rewrite(pathInfo);
      info := DropFirst(info);
      var path := Explode('/', info);
      var controller := path[0];
      var act: Option<string> := if |path| >= 2 then Some(path[1]) else None;
      path := path[1..];
      if |path| > 0 {
        path := path[1..];
      }
      var obj := path;
      if EmptySegment(controller) {
        controller := env.defaultController;
      }
      if act.None? || EmptySegment(act.value) {
        act := Some(env.defaultAction);
      }
      if obj == [] {
        obj := env.defaultObject;
      }
      if controller == env.maintenanceController {
        return Failure(MaintenanceRequested);
      }
      if |act.value| >= 1 && act.value[0] == '_' {
        return Failure(PublicException(env.notFoundMessage, env.notFoundCode));
      }
      controllerName := Some(controller);
      action := act;
      objectParts := Some(obj);
      r := Success(true);
    }

    /**
     * init(): once started it returns false and does nothing; otherwise it reads the
     * path and only then records that it has started. An exception from getPath()
     * leaves it not started.
     */
    method Init(env: Env, pathInfo: string, rewrite: string -> string) returns (r: Result<bool, Exception>)
      modifies this
      ensures old(started) ==> r == Success(false) && started && controllerName == old(controllerName) &&
                               action == old(action) && objectParts == old(objectParts) && constants == old(constants)
      ensures !old(started) ==> (r == Success(true) <==> started)
      ensures !old(started) && !env.maintenance ==> (started <==> ParsePath(env, rewrite(pathInfo)).Success?)
      ensures !old(started) && env.maintenance ==> started && r == Success(true)
    {
      if started {
        return Success(false);
      }
      var p := GetPath(env, pathInfo, rewrite);
      if p.Failure? {
        return p;
      }
      started := true;
      r := Success(true);
    }
  }

  /** A second init() after a successful first one does nothing and returns false. */
  method InitTwice(d: Dispatcher, env: Env, pathInfo: string, rewrite: string -> string) returns (first: Result<bool, Exception>, second: Result<bool, Exception>)
    modifies d
    requires !d.started && (env.maintenance || ParsePath(env, rewrite(pathInfo)).Success?)
    ensures first == Success(true) && second == Success(false) && d.started
  {
    first := d.Init(env, pathInfo, rewrite);
    second := d.Init(env, pathInfo, rewrite);
  }
}
