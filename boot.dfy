/**
 * `boot` (boot.go:13-108): walk every router and every route, check each
 * declared entity, register a GET handler for every route that has a
 * controller, and report a boot error once the walk is over if any entity
 * was rejected.
 */
module Boot {
  import opened Options

  /** A route's declared entity value, identified by its type. */
  datatype EntityDesc = EntityDesc(typeName: string)

  /** A controller function, identified by name. */
  datatype ControllerId = ControllerId(name: string)

  datatype Route = Route(path: string, entity: Option<EntityDesc>, controller: Option<ControllerId>)

  datatype Router = Router(basePath: string, routes: seq<Route>)

  /** One handler registered on the multiplexer: method, mounted path and the route it serves. */
  datatype Registration = Registration(verb: string, path: string, route: Route)

  /**
   * Helpers whose definitions lie outside `boot`: the two path normalisers
   * and the entity shape check.
   */
  datatype BootHooks = BootHooks(safeRouterPath: string -> string,
                                 safeRoutePath: string -> string,
                                 checkIsEntity: EntityDesc -> bool)

  const BootErrorMessage: string := "BootError: error while running rubik boot sequence"

  /** The path a route is mounted at. */
  function MountPath(router: Router, route: Route, hooks: BootHooks): string
  {
    hooks.safeRouterPath(router.basePath) + hooks.safeRoutePath(route.path)
  }

  /** A route whose declared entity fails the shape check. */
  predicate Rejected(route: Route, checkIsEntity: EntityDesc -> bool)
  {
    route.entity.Some? && !checkIsEntity(route.entity.value)
  }

  /** A route that gets a handler: it is not rejected and it has a controller. */
  predicate Served(route: Route, checkIsEntity: EntityDesc -> bool)
  {
    !Rejected(route, checkIsEntity) && route.controller.Some?
  }

  /** What the inner loop registers for a prefix of one router's routes. */
  function RouteRegistrations(router: Router, routes: seq<Route>, hooks: BootHooks): seq<Registration>
  {
    if routes == [] then []
    else
      var route := routes[|routes| - 1];
      RouteRegistrations(router, routes[..|routes| - 1], hooks)
        + (if Served(route, hooks.checkIsEntity) then [Registration("GET", MountPath(router, route, hooks), route)] else [])
  }

  /** What the outer loop registers for a prefix of the routers. */
  function Registrations(routers: seq<Router>, hooks: BootHooks): seq<Registration>
  {
    if routers == [] then []
    else
      var router := routers[|routers| - 1];
      Registrations(routers[..|routers| - 1], hooks) + RouteRegistrations(router, router.routes, hooks)
  }

  /** The `errored` flag after the inner loop has seen `routes`. */
  function AnyRejected(routes: seq<Route>, checkIsEntity: EntityDesc -> bool): bool
  {
    routes != [] && (AnyRejected(routes[..|routes| - 1], checkIsEntity) || Rejected(routes[|routes| - 1], checkIsEntity))
  }

  /** The `errored` flag after the outer loop has seen `routers`. */
  function Errored(routers: seq<Router>, checkIsEntity: EntityDesc -> bool): bool
  {
    routers != []
    && (Errored(routers[..|routers| - 1], checkIsEntity) || AnyRejected(routers[|routers| - 1].routes, checkIsEntity))
  }

  /** The application: its routers and the multiplexer's registrations (`app.routers`, `app.mux`). */
  class App {
    var routers: seq<Router>
    var mux: seq<Registration>

    constructor (routers: seq<Router>)
      ensures this.routers == routers && mux == []
    {
      this.routers := routers;
      mux := [];
    }

    /** `boot()`: register every served route and report whether any route was rejected. */
    method Boot(hooks: BootHooks) returns (err: Option<string>)
      modifies this`mux
      ensures mux == old(mux) + Registrations(routers, hooks)
      ensures err.Some? <==> Errored(routers, hooks.checkIsEntity)
      ensures err.Some? ==> err.value == BootErrorMessage
    {
      var errored := false;
      var r := 0;
      while r < |routers|
        invariant r <= |routers|
        invariant mux == old(mux) + Registrations(routers[..r], hooks)
        invariant errored == Errored(routers[..r], hooks.checkIsEntity)
      {
        assert routers[..r + 1][..r] == routers[..r];
        errored := MountRoutes(routers[r], hooks, errored);
        r := r + 1;
      }
      assert routers[..r] == routers;
      if errored {
        return Some(BootErrorMessage);
      }
      return None;
    }

    /** The inner loop of `boot` (boot.go:21-101) over one router's routes. */
    method MountRoutes(router: Router, hooks: BootHooks, errored: bool) returns (errored': bool)
      modifies this`mux
      ensures mux == old(mux) + RouteRegistrations(router, router.routes, hooks)
      ensures errored' == (errored || AnyRejected(router.routes, hooks.checkIsEntity))
    {
      errored' := errored;
      var index := 0;
      while index < |router.routes|
        invariant index <= |router.routes|
        invariant mux == old(mux) + RouteRegistrations(router, router.routes[..index], hooks)
        invariant errored' == (errored || AnyRejected(router.routes[..index], hooks.checkIsEntity))
      {
        var route := router.routes[index];
        assert router.routes[..index + 1][..index] == router.routes[..index];
        var finalPath := hooks.safeRouterPath(router.basePath) + hooks.safeRoutePath(route.path);
        if route.entity.Some? {
          var validEntity := hooks.checkIsEntity(route.entity.value);
          if !validEntity {
            errored' := true;
            index := index + 1;
            continue;
          }
        }
        if route.controller.Some? {
          mux := mux + [Registration("GET", finalPath, route)];
        }
        index := index + 1;
      }
      assert router.routes[..index] == router.routes;
    }
  }

  // ---------------------------------------------------------------------
  // What boot promises

  lemma {:induction false} AnyRejectedIff(routes: seq<Route>, checkIsEntity: EntityDesc -> bool)
    ensures AnyRejected(routes, checkIsEntity) <==> exists k :: 0 <= k < |routes| && Rejected(routes[k], checkIsEntity)
  {
    if routes != [] {
      var init := routes[..|routes| - 1];
      AnyRejectedIff(init, checkIsEntity);
      if exists k :: 0 <= k < |init| && Rejected(init[k], checkIsEntity) {
        var k :| 0 <= k < |init| && Rejected(init[k], checkIsEntity);
        assert routes[k] == init[k];
      }
      if exists k :: 0 <= k < |routes| && Rejected(routes[k], checkIsEntity) {
        var k :| 0 <= k < |routes| && Rejected(routes[k], checkIsEntity);
        if k < |init| {
          assert init[k] == routes[k];
        }
      }
    }
  }

  /**
   * Boot fails exactly when some route of some router declares an entity
   * that fails the shape check: every route is visited whatever happened
   * before it, and a route without a controller plays no part.
   */
  lemma {:induction false} ErroredIff(routers: seq<Router>, checkIsEntity: EntityDesc -> bool)
    ensures Errored(routers, checkIsEntity)
        <==> exists a, k :: 0 <= a < |routers| && 0 <= k < |routers[a].routes|
                            && Rejected(routers[a].routes[k], checkIsEntity)
  {
    if routers != [] {
      var init := routers[..|routers| - 1];
      var last := routers[|routers| - 1];
      ErroredIff(init, checkIsEntity);
      AnyRejectedIff(last.routes, checkIsEntity);
      if exists a, k :: 0 <= a < |init| && 0 <= k < |init[a].routes| && Rejected(init[a].routes[k], checkIsEntity) {
        var a, k :| 0 <= a < |init| && 0 <= k < |init[a].routes| && Rejected(init[a].routes[k], checkIsEntity);
        assert routers[a] == init[a];
      }
      if exists a, k :: 0 <= a < |routers| && 0 <= k < |routers[a].routes| && Rejected(routers[a].routes[k], checkIsEntity) {
        var a, k :| 0 <= a < |routers| && 0 <= k < |routers[a].routes| && Rejected(routers[a].routes[k], checkIsEntity);
        if a < |init| {
          assert init[a] == routers[a];
        }
      }
    }
  }

  lemma {:induction false} RouteRegistrationsIff(router: Router, routes: seq<Route>, hooks: BootHooks, reg: Registration)
    ensures reg in RouteRegistrations(router, routes, hooks)
        <==> exists k :: 0 <= k < |routes| && Served(routes[k], hooks.checkIsEntity)
                         && reg == Registration("GET", MountPath(router, routes[k], hooks), routes[k])
  {
    if routes != [] {
      var init := routes[..|routes| - 1];
      RouteRegistrationsIff(router, init, hooks, reg);
      if exists k :: 0 <= k < |init| && Served(init[k], hooks.checkIsEntity)
                     && reg == Registration("GET", MountPath(router, init[k], hooks), init[k]) {
        var k :| 0 <= k < |init| && Served(init[k], hooks.checkIsEntity)
                 && reg == Registration("GET", MountPath(router, init[k], hooks), init[k]);
        assert routes[k] == init[k];
      }
      if exists k :: 0 <= k < |routes| && Served(routes[k], hooks.checkIsEntity)
                     && reg == Registration("GET", MountPath(router, routes[k], hooks), routes[k]) {
        var k :| 0 <= k < |routes| && Served(routes[k], hooks.checkIsEntity)
                 && reg == Registration("GET", MountPath(router, routes[k], hooks), routes[k]);
        if k < |init| {
          assert init[k] == routes[k];
        }
      }
    }
  }

  /**
   * The handlers registered are exactly one GET handler per served route,
   * mounted at `safeRouterPath(basePath) + safeRoutePath(path)`: a route
   * with a rejected entity or without a controller gets none.
   */
  lemma {:induction false} RegisteredIff(routers: seq<Router>, hooks: BootHooks, reg: Registration)
    ensures reg in Registrations(routers, hooks)
        <==> exists a, k :: 0 <= a < |routers| && 0 <= k < |routers[a].routes|
                            && Served(routers[a].routes[k], hooks.checkIsEntity)
                            && reg == Registration("GET", MountPath(routers[a], routers[a].routes[k], hooks),
                                                   routers[a].routes[k])
  {
    if routers != [] {
      var init := routers[..|routers| - 1];
      var last := routers[|routers| - 1];
      RegisteredIff(init, hooks, reg);
      RouteRegistrationsIff(last, last.routes, hooks, reg);
      if exists a, k :: 0 <= a < |init| && 0 <= k < |init[a].routes|
                        && Served(init[a].routes[k], hooks.checkIsEntity)
                        && reg == Registration("GET", MountPath(init[a], init[a].routes[k], hooks), init[a].routes[k]) {
        var a, k :| 0 <= a < |init| && 0 <= k < |init[a].routes|
                    && Served(init[a].routes[k], hooks.checkIsEntity)
                    && reg == Registration("GET", MountPath(init[a], init[a].routes[k], hooks), init[a].routes[k]);
        assert routers[a] == init[a];
      }
      if exists a, k :: 0 <= a < |routers| && 0 <= k < |routers[a].routes|
                        && Served(routers[a].routes[k], hooks.checkIsEntity)
                        && reg == Registration("GET", MountPath(routers[a], routers[a].routes[k], hooks), routers[a].routes[k]) {
        var a, k :| 0 <= a < |routers| && 0 <= k < |routers[a].routes|
                    && Served(routers[a].routes[k], hooks.checkIsEntity)
                    && reg == Registration("GET", MountPath(routers[a], routers[a].routes[k], hooks), routers[a].routes[k]);
        if a < |init| {
          assert init[a] == routers[a];
        }
      }
    }
  }

  /** How many of `routes` are served. */
  function ServedCount(routes: seq<Route>, checkIsEntity: EntityDesc -> bool): nat
  {
    if routes == [] then 0
    else ServedCount(routes[..|routes| - 1], checkIsEntity) + (if Served(routes[|routes| - 1], checkIsEntity) then 1 else 0)
  }

  /** How many routes of all `routers` are served. */
  function TotalServed(routers: seq<Router>, checkIsEntity: EntityDesc -> bool): nat
  {
    if routers == [] then 0
    else TotalServed(routers[..|routers| - 1], checkIsEntity) + ServedCount(routers[|routers| - 1].routes, checkIsEntity)
  }

  /** A router registers one handler per served route: no more, even for routes that look alike. */
  lemma {:induction false} RouteRegistrationsCount(router: Router, routes: seq<Route>, hooks: BootHooks)
    ensures |RouteRegistrations(router, routes, hooks)| == ServedCount(routes, hooks.checkIsEntity)
  {
    if routes != [] {
      RouteRegistrationsCount(router, routes[..|routes| - 1], hooks);
    }
  }

  /** The mux receives one handler per served route of any router. */
  lemma {:induction false} RegistrationsCount(routers: seq<Router>, hooks: BootHooks)
    ensures |Registrations(routers, hooks)| == TotalServed(routers, hooks.checkIsEntity)
  {
    if routers != [] {
      var last := routers[|routers| - 1];
      RegistrationsCount(routers[..|routers| - 1], hooks);
      RouteRegistrationsCount(last, last.routes, hooks);
    }
  }

  /** Every registration is a GET handler for a route that has a controller and an accepted entity. */
  lemma OnlyServedRegistered(routers: seq<Router>, hooks: BootHooks)
    ensures forall reg :: reg in Registrations(routers, hooks) ==>
              reg.verb == "GET" && reg.route.controller.Some? && !Rejected(reg.route, hooks.checkIsEntity)
  {
    forall reg | reg in Registrations(routers, hooks)
      ensures reg.verb == "GET" && reg.route.controller.Some? && !Rejected(reg.route, hooks.checkIsEntity)
    {
      RegisteredIff(routers, hooks, reg);
    }
  }
}
