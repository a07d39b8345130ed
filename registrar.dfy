/** Registration of middleware (`app.use`, lib/proto.js:47-86). */
module Registrar {
  import opened Values

  /** A plain handler function. `arity` is its declared parameter count
      (JavaScript's `fn.length`), the one thing dispatch inspects; `id`
      tells handlers apart. */
  datatype Fn = Fn(id: nat, arity: nat)

  /** What can be passed to `use` as the handler: a function, or a sub-app
      (anything with a `handle` method). */
  datatype Middleware = Callable(f: Fn) | SubApp(app: App)

  /** The function stored in a layer: the handler itself, or the wrapper
      `function(req, res, next) { server.handle(req, res, next) }` built
      around a sub-app (lines 60-62). */
  datatype Handle = Direct(f: Fn) | Wrapped(app: App)

  /** One entry of the stack: `{route, handle}` (lines 80-83). */
  datatype Layer = Layer(route: string, handle: Handle)

  /** The declared parameter count of a stored handle; the sub-app wrapper
      declares three. */
  function Arity(h: Handle): nat {
    match h
    case Direct(f) => f.arity
    case Wrapped(_) => 3
  }

  /** The handle `use` stores for a middleware argument (lines 55-63). */
  function HandleOf(fn: Middleware): Handle {
    match fn
    case Callable(f) => Direct(f)
    case SubApp(app) => Wrapped(app)
  }

  /** The route after defaulting (lines 49-53): a first argument that is not
      a string (`None`) gives "/". This is also what a mounted sub-app's
      `route` is set to (line 59), before any slash is stripped. */
  function MountPoint(route: Option<string>): string {
    if route.Some? then route.value else "/"
  }

  /** The route stored in the layer (lines 49-53 and 71-75): the mount point
      with one trailing '/' removed. */
  function NormalizeRoute(route: Option<string>): (r: string)
    ensures route.None? ==> r == ""
    ensures MountPoint(route) == r || MountPoint(route) == r + "/"
    ensures MountPoint(route) == r <==> MountPoint(route) == "" || MountPoint(route)[|MountPoint(route)| - 1] != '/'
  {
    var s := MountPoint(route);
    if |s| > 0 && s[|s| - 1] == '/' then s[..|s| - 1] else s
  }

  /** Only the last slash goes: "/a//" is stored as "/a/". */
  lemma NormalizeStripsOneSlash()
    ensures NormalizeRoute(Some("/a//")) == "/a/"
    ensures NormalizeRoute(Some("")) == ""
    ensures NormalizeRoute(Some("/admin")) == "/admin"
  {
    assert "/a//"[..3] == "/a/";
  }

  /** A dispatcher (the `app` prototype of lib/proto.js). */
  class App {
    /** `this.stack`: the layers, in registration order. */
    var stack: seq<Layer>
    /** `this.route`: set when this app is mounted on another (line 59);
        `None` while it is not. */
    var route: Option<string>

    constructor ()
      ensures stack == [] && route == None
    {
      stack := [];
      route := None;
    }

    /** The objects `use` may change: this app and a sub-app being mounted. */
    static function Footprint(self: App, fn: Middleware): set<object> {
      if fn.SubApp? then {self, fn.app} else {self}
    }

    /** `app.use(route, fn)`, lines 47-86. `route == None` stands for a
        first argument that is not a string, which the source then takes as
        the handler (`fn` here). Appends exactly one layer and returns this
        app for chaining; a sub-app is wrapped and told its mount point. */
    method Use(route: Option<string>, fn: Middleware) returns (self: App)
      modifies Footprint(this, fn)
      ensures self == this
      ensures stack == old(stack) + [Layer(NormalizeRoute(route), HandleOf(fn))]
      ensures fn.SubApp? ==> fn.app.route == Some(MountPoint(route))
      ensures fn.SubApp? && fn.app != this ==> fn.app.stack == old(fn.app.stack)
      ensures !fn.SubApp? || fn.app != this ==> this.route == old(this.route)
    {
      var path := MountPoint(route);
      var handle := HandleOf(fn);
      if fn.SubApp? {
        fn.app.route := Some(path);
      }
      if |path| > 0 && path[|path| - 1] == '/' {
        path := path[..|path| - 1];
      }
      stack := stack + [Layer(path, handle)];
      self := this;
    }
  }
}
