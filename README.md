# connect dispatch core, modelled in Dafny

This project models the request-dispatch engine of connect's `lib/proto.js`:

- `app.use` registers middleware on an app's stack.
- `app.handle` sends a request down that stack through its `next(err)` closure.
- `call` invokes one layer's handler.

Each file is one part of that engine:

- `values.dfy`: `Option`, and the `err` values that flow through `next`. Only
  their JavaScript truthiness matters.
- `jsstring.dfy`: the JavaScript string operations the dispatcher relies on.
  These are `substr` with its clamping, `indexOf` and `toLowerCase`.
- `routing.dfy`: the string side of dispatch. It covers `fqdn` and `protohost`,
  the path a layer is matched against, and the case-insensitive prefix match
  with its border check. It also covers the cut of a matched route out of
  `req.url` and how the URL is put back before the next layer.
- `registrar.dfy`: `app.use` as a method of the `App` class. It normalises the
  route, wraps sub-apps, appends exactly one layer and returns the app.
- `invoker.dfy`: `call` as a pure choice of invocation mode. It includes the
  capture of a synchronous throw.
- `dispatcher.dfy`: `app.handle` as the `Dispatch` class. Its fields are the
  closure variables `index`, `removed` and `slashAdded`, plus the `fqdn` and
  `protohost` constants, the `req` object and the list of `done` calls.
  - `Step` is one pass through the body of `next`.
  - `Next` is one call `next(err)`, with its skips and hand-backs, up to the
    moment a handler takes the request or `done` is scheduled.
  - `Next` is proved against `Scan`, a pure search for the first layer that
    runs.
  - `Run` drives a whole traversal. Each invoked handler behaves as the next
    entry of a script: call `next`, throw, return, or register a new layer
    and then call `next`.

Handlers are user code. The model represents each handler by its declared
arity (`fn.length`) and by a behaviour chosen per invocation.

### Where the code and its comments differ

The comment above `app.use` (lib/proto.js:30-40) says a route defaults to "/"
and that middleware mounted at "/admin" runs for "/admin" and
"/admin/settings" but not for "/" or "/posts". The model follows the code,
which differs from that comment in these cases:

- A layer registered with `use(fn)` or `use('/', fn)` is stored with route `""`,
  because the trailing '/' of the default "/" is stripped (lines 71-75).
  It matches every path that starts with '/' (`EmptyRouteMatchesSlashPaths`).
  It does not match arbitrary strings, because the border check still applies.
- A layer stored with route `"/"` (registered as `use('//', fn)`) is not a
  catch-all. It matches `"/"` but not `"/admin"` (`SlashRouteIsNotCatchAll`).

### Behaviour worth knowing

Putting the URL back (lines 127-130) inserts the registered route's text, not
the text that was cut. A request whose case differs from the route's comes
back carrying the route's case (`RestoreTakesRouteText`). The URL therefore
stays equal to the original only up to ASCII case across a traversal
(`TraverseKeepsUrl`).

### How a traversal is stated

`Pick` says what one call `next(err)` does, as a function of the stack, the
index it starts at, the URL at rest and the error: which layer's handler is
invoked (the first from that index on whose route matches and that `call`
runs), in which mode, with which URL, and which URL is left at rest for the
following call. `PickFindsFirst` proves that reading. `Traverse` strings
turns together: each invoked handler behaves as the next entry of a script,
which decides the stack (a handler may register a layer) and the error the
next `next` gets. `Dispatch.Next`, `Dispatch.Serve`, `Dispatch.Play` and
`Dispatch.Run` are the imperative code, proved to do exactly what `Pick` and
`Traverse` describe. The lemmas about `Traverse` then hold of every run.
`TraverseKeepsUrl` is stated over any turns that keep the URL (`KeepsUrl`),
and `TurnsOfKeepUrl` shows that `Pick`'s turns do.

## Model

| member | source | states |
|---|---|---|
| `JsString.SubstrFrom` | lib/proto.js:123 | `substr(start)`: what precedes `start` plus the result is the whole string; "" past the end |
| `JsString.SubstrTo` | lib/proto.js:147 | `substr(0, n)`: a prefix of the string, of length `n` clamped to the string's length, and empty for `n <= 0` |
| `JsString.IndexOf` | lib/proto.js:99 | `indexOf(pat, from)`: -1 or a position at or after `from` where `pat` occurs, with no occurrence from `from` up to the result (or anywhere from `from` on when the result is -1) |
| `JsString.Lower` | lib/proto.js:147 | `toLowerCase` keeps the length and lower-cases each code unit on its own |
| `JsString.LowerCharFixesPunctuation` | lib/proto.js:153-154 | a code unit lower-cases to '/', '.' or '?' exactly when it already is that character, so case folding never creates or hides a border |
| `Routing.PathLength` | lib/proto.js:99-100 | the length of the URL before its first '?', or the whole length when there is none |
| `Routing.Fqdn` | lib/proto.js:101 | positive only for a URL not starting with '/' in which "://" occurs before any '?', and then one past the first such occurrence; 0 otherwise |
| `Routing.Protohost` | lib/proto.js:102 | a prefix of the URL; "" when `fqdn` is falsy or when no '/' follows the host; otherwise it runs up to, not including, the first '/' after "://" |
| `Routing.Pathname` | lib/proto.js:143 | the path is never empty and contains no '?' |
| `Routing.PathnameShape` | lib/proto.js:143 | the path is "/" when a fully qualified URL has no '/' after its host or nothing comes between `protohost` and the query; otherwise it is exactly the URL's text after `protohost`, up to the first '?' or the end |
| `Routing.Matches` | lib/proto.js:146-157 | the two skip tests of `next`: the lower-cased path starts with the lower-cased route, and the character after it is absent, '/' or '.' (its meaning is proved by `MatchesIff`) |
| `Routing.MatchesIff` | lib/proto.js:146-157 | a layer is entered exactly when the route is no longer than the path, equals its start up to case, and is followed by nothing, '/' or '.' |
| `Routing.RouteMatchesAtBorder` | lib/proto.js:152-157 | a route matches itself and every extension by '/' or '.', and no extension by any other character |
| `Routing.EmptyRouteMatchesSlashPaths` | lib/proto.js:146-157 | the stored route "" matches every path starting with '/' |
| `Routing.SlashRouteIsNotCatchAll` | lib/proto.js:152-157 | the stored route "/" matches "/" but not "/admin" |
| `Routing.MatchesIgnoresCase` | lib/proto.js:147 | whether a route matches depends on the path only up to ASCII case |
| `Routing.PathnameIgnoresCase` | lib/proto.js:143 | URLs equal up to case have paths equal up to case |
| `Routing.MatchedRouteLiesInUrl` | lib/proto.js:143-162 | a matched route other than "" and "/" lies in the URL right after `protohost`, equal to it up to case, so the cut removes exactly that text |
| `Routing.Strip` | lib/proto.js:160-169 | the cut: `protohost` followed by what comes after the route's length, with a '/' prepended (and flagged) when the URL is not fully qualified and lost its leading '/' (its shape is proved by `StripShape`) |
| `Routing.StripShape` | lib/proto.js:160-169 | while a layer runs, the URL still starts with `protohost`; a synthetic '/' is added only to a URL that is not fully qualified, and such a URL then starts with '/' |
| `Routing.Restore` | lib/proto.js:122-130 | the put-back: drop the synthetic '/', then splice the removed route in after `protohost` (its round trip with `Strip` is proved by `RestoreUndoesStrip`) |
| `Routing.EnteredUrl` | lib/proto.js:159-169 | the URL a matched layer's handler runs with: the URL itself for the routes "" and "/", and otherwise the cut `Strip` makes (stated by `EnteredUrlIgnoresCase`, `MountedRouteSeesRemainder` and `Dispatcher.PickFindsFirst`) |
| `Routing.Reentered` | lib/proto.js:122-169 | the URL a layer leaves for the next pass: its route cut out on entry, then put back (stated by `RestoreUndoesStrip` and `EnterLeavePreservesUrl`) |
| `Routing.Pass` | lib/proto.js:122-169 | the URL the next layer is matched against after one layer is passed: put back after a matched route other than "" and "/", and unchanged otherwise (stated by `PassKeepsUrl`) |
| `Routing.RestoreKeepsProtohost` | lib/proto.js:122-130 | putting the URL back keeps `protohost` at its front whenever a synthetic '/' comes only with a removed route |
| `Routing.RestoreUndoesStrip` | lib/proto.js:122-169 | cutting the route out and putting it back gives `protohost`, then the route, then what followed the cut text; when the cut text equals the route, the URL is exactly as before |
| `Routing.EnterLeavePreservesUrl` | lib/proto.js:122-169 | after a layer is entered and left, the URL equals the original up to case, and cutting the route again gives what the layer saw |
| `Routing.SpliceIgnoresCase` | lib/proto.js:128 | putting a route back in place of text equal to it up to case keeps the URL equal up to case |
| `Routing.PassKeepsUrl` | lib/proto.js:122-169 | passing one layer, whether its handler ran or not, keeps `protohost` at the URL's front and the URL equal up to case |
| `Routing.EnteredUrlIgnoresCase` | lib/proto.js:159-169 | URLs equal up to case give a handler URLs equal up to case |
| `Routing.RestoreTakesRouteText` | lib/proto.js:128 | when the cut text differs from the route (e.g. in case), the URL comes back different from before, carrying the route's text |
| `Routing.MountedRouteMatches` | mytest.js:16-20 | a request for "/x/yz/extra" reaches the layer registered as "/x/yz" |
| `Routing.MountedRouteSeesRemainder` | lib/proto.js:159-169 | that layer sees URL "/extra", and `next` turns it back into "/x/yz/extra" |
| `Registrar.Arity` | lib/proto.js:191 | `handle.length`: a function's declared arity, and 3 for the wrapper around a sub-app |
| `Registrar.HandleOf` | lib/proto.js:55-63 | the handle stored for a middleware: the function itself, or the wrapper around a sub-app |
| `Registrar.MountPoint` | lib/proto.js:48-53 | a first argument that is not a string gives the route "/" |
| `Registrar.NormalizeRoute` | lib/proto.js:49-75 | a non-string first argument gives the stored route ""; otherwise the route loses exactly one trailing '/' when it has one and is unchanged otherwise |
| `Registrar.NormalizeStripsOneSlash` | lib/proto.js:72-75 | "/a//" is stored as "/a/", "" and "/admin" are unchanged |
| `Registrar.App.Use` | lib/proto.js:47-86 | appends exactly one layer (normalised route, handler or sub-app wrapper) to `stack` and leaves earlier layers as they were; returns this app; a mounted sub-app gets `route` set to the route before slash stripping; nothing else changes |
| `Invoker.Select` | lib/proto.js:191-205 | the mode `call` picks from the arity and the truthiness of `err` (characterised by `ErrorRouting`) |
| `Invoker.Call` | lib/proto.js:190-213 | a handler that `call` does not run gets `next(err)` with `err` unchanged; for a handler that runs, `call` passes what it threw to `next`, and calls nothing when the handler returns |
| `Invoker.ErrorRouting` | lib/proto.js:191-205 | error-handling mode exactly for a truthy `err` and arity 4; request-handling mode exactly for a falsy `err` and arity below 4; arity above 4 never runs |
| `Dispatcher.Runs` | lib/proto.js:146-205 | a layer takes the request when its route matches the path and `call` runs its handler for the pending error (used by `Scan` and stated by `ScanFindsFirst` and `Invoker.ErrorRouting`) |
| `Dispatcher.Scan` | lib/proto.js:133-157 | the search of repeated `next` passes: a layer it returns lies in the stack, at or after the start, and runs |
| `Dispatcher.ScanFindsFirst` | lib/proto.js:133-157 | the layer the search returns runs, and no layer between the start and it (or, when none is returned, no later layer at all) does |
| `Dispatcher.ScanAtStep` | lib/proto.js:143-157 | one pass settles the search at its layer: it stops there when the layer matches and `call` would run it, and otherwise continues with the next layer |
| `Dispatcher.ScanAppended` | lib/proto.js:133-140 | appending a layer keeps earlier results of the search, and a search that found nothing now finds the new layer exactly when it runs |
| `Dispatcher.Continuation` | lib/proto.js:190-213 | what the traversal continues with after a handler's behaviour: the error it passes to `next`, or what `call` passes, or nothing |
| `Dispatcher.ThrowingIsCallingNext` | lib/proto.js:206-212 | for a handler that runs, throwing `e` has the same effect on the traversal as calling `next(e)`, and returning stops the traversal |
| `Dispatcher.RecordedGrows` | lib/proto.js:80-83 | layers are only appended, so a visit recorded against a stack stays recorded against any longer one |
| `Dispatcher.Passed` | lib/proto.js:122-157 | the URL a layer is matched against after `next` has passed every earlier layer of the same call (stated by `PassedStep` and `PassedKeepsUrl`) |
| `Dispatcher.PassedStep` | lib/proto.js:122-157 | proof helper for the traversal lemmas: the URL at a layer is the one at the layer before, passed through that layer |
| `Dispatcher.PassedKeepsUrl` | lib/proto.js:122-169 | however many layers `next` passes, the URL keeps `protohost` at its front and stays equal to where it started up to case |
| `Dispatcher.Pick` | lib/proto.js:116-174 | one call `next(err)`: the handler it invokes lies at or after the start index, with its layer's route and arity, the pending error and the mode `call` picks |
| `Dispatcher.PickFindsFirst` | lib/proto.js:116-174 | the invoked layer runs and no layer between the start and it runs (none at all when `done` is scheduled); its handler sees the URL cut for its route; every URL is the starting one up to case |
| `Dispatcher.PickedKeepsUrl` | lib/proto.js:122-169 | the URL left at rest after an invoked layer, and the one its handler sees, agree with the starting URL up to case |
| `Dispatcher.TurnsOfAgree` | lib/proto.js:116-174 | every turn of `app.handle` invokes a layer at or after the index `next` starts at, recorded with its route, arity, error and mode |
| `Dispatcher.TurnsOfIsPick` | lib/proto.js:116-174 | proof helper for the traversal lemmas: a turn of `app.handle` is `Pick` |
| `Dispatcher.Registered` | lib/proto.js:47-86 | the stack after a handler that registers a layer with `use` while the request is in flight: that layer appended, with its normalised route (stated by `TraverseGrows` and `Dispatch.Behave`) |
| `Dispatcher.Traverse` | lib/proto.js:116-212 | a whole traversal as a value: each handler behaves as the next script entry, `Continuation` gives the next error, and `Registered` the next stack (stated by `TraverseOnce`, `TraverseGoesOn`, `TraverseGrows`, `TraverseAdvances`, `TraverseChains`, `TraverseEnds` and `TraverseKeepsUrl`) |
| `Dispatcher.TraverseOnce` | lib/proto.js:116-212 | proof helper for the traversal lemmas: a traversal's first turn: `done` scheduled with the pending error, a handler still holding the request, or a handler after which nothing calls `next` |
| `Dispatcher.TraverseGoesOn` | lib/proto.js:171-212 | proof helper for the traversal lemmas: a traversal whose first handler passes `e` on continues from the layer after it, with the stack that handler left and the URL at rest |
| `Dispatcher.TraverseTurn` | lib/proto.js:171-212 | proof helper for the traversal lemmas: a traversal is determined by its first turn: the handler invoked, the stack and index it left, and what it passed to `next` |
| `Dispatcher.TraceExtends` | lib/proto.js:171-176 | proof helper for the traversal lemmas: the visits of a traversal are the visits so far, the current one, then the rest |
| `Dispatcher.TraverseGrows` | lib/proto.js:47-86 | the stack only grows during a traversal, and every invoked handler is a layer of the final stack, recorded with its route, arity and mode |
| `Dispatcher.AdvancingOrders` | lib/proto.js:133 | advancing visits lie at or after the start, at strictly increasing stack positions |
| `Dispatcher.TraverseAdvances` | lib/proto.js:133 | handlers are invoked at or after the start, each at a later stack position than the one before |
| `Dispatcher.TraverseEnds` | lib/proto.js:135-139 | `done` gets the starting error when no handler ran and otherwise what the last handler passed on; `Stopped` follows a handler after which nothing calls `next`; `Pending` exactly when the script ran out; each behaviour serves one handler |
| `Dispatcher.EndsAfterVisit` | lib/proto.js:171-212 | proof helper for the traversal lemmas: how a traversal ends is kept when a visit that passed an error on is put in front of it |
| `Dispatcher.ChainedLinks` | lib/proto.js:206-212 | in a chain, each handler gets what the one before passed to `next` under its behaviour |
| `Dispatcher.TraverseChains` | lib/proto.js:206-212 | the first handler gets the starting error, and each later one what the handler before it passed to `next` |
| `Dispatcher.Sees` | lib/proto.js:143-169 | a visit is one the request with a given URL could get: its route matches the request's path, and its handler sees the URL cut for that route, both up to ASCII case |
| `Dispatcher.SeesIgnoresCase` | lib/proto.js:143-169 | whether a visit fits a URL depends on the URL only up to ASCII case |
| `Dispatcher.AllSeeIgnoresCase` | lib/proto.js:143-169 | visits that all fit a URL fit every URL equal to it up to case |
| `Dispatcher.AllSeeCons` | lib/proto.js:143-169 | proof helper for the traversal lemmas: a visit that fits the URL, followed by visits that fit a URL equal to it up to case, all fit the URL |
| `Dispatcher.AllSeeEach` | lib/proto.js:143-169 | proof helper for the traversal lemmas: `AllSee` says of each visit, by position, that it fits the URL |
| `Dispatcher.TurnsOfKeepUrl` | lib/proto.js:122-174 | every call `next(err)` of `app.handle` leaves the URL at rest keeping `protohost` and equal to where it started up to case, and the handler it invokes fits that URL |
| `Dispatcher.TraverseKeepsUrl` | lib/proto.js:116-212 | over a whole traversal whose turns keep the URL, the URL at rest ends keeping `protohost` and equal to the starting one up to case, and every handler invoked, however late, has a route matching the request's path and sees the starting URL cut for its route |
| `Dispatcher.HandleTraversal` | lib/proto.js:116-176 | a whole traversal from `next()`: the first handler gets no error, each later one what the one before passed on, at increasing positions, and it ends as its behaviours say; for a URL that starts with its `protohost`, the URL is kept up to case and every handler fits the request's URL |
| `Dispatcher.Dispatch.ValidRestingKeepsProtohost` | lib/proto.js:122-130 | the URL at rest keeps `protohost` at its front |
| `Dispatcher.Dispatch.constructor` | lib/proto.js:98-114 | `fqdn` and `protohost` are computed from the URL; `done` is `out` when given and the final handler otherwise; `originalUrl` is set only when it was unset; the traversal starts at index 0 with nothing removed |
| `Dispatcher.Dispatch.RestoreUrl` | lib/proto.js:122-130 | drops the synthetic '/' and puts the removed route back, clearing both |
| `Dispatcher.Dispatch.Cut` | lib/proto.js:159-169 | records the route as removed and rewrites the URL to its cut; putting it back gives what `Reentered` says |
| `Dispatcher.Dispatch.Step` | lib/proto.js:116-169 | one pass of `next`, which changes only `req.url` and the closure state (`originalUrl` is outside its frame): restores the URL and advances `index` by exactly 1; an exhausted stack schedules `done` once with `err`; a skipped layer did not match the restored path; a matched layer has the URL cut for its route, or left alone for "" and "/" |
| `Dispatcher.Dispatch.StepFrom` | lib/proto.js:143-157 | the same pass, with the same frame, judged against the URL at the start of the `next` call: it settles the call at this layer, or leaves the search to the next layer with the URL every pass so far left |
| `Dispatcher.Dispatch.Settles` | lib/proto.js:143-157 | what one pass tells about the `next` call it belongs to: `done` scheduled, the first running layer invoked, or the search left to the next layer |
| `Dispatcher.Dispatch.Next` | lib/proto.js:116-174 | `next(err)`, which changes only `req.url` and the closure state, invokes the first layer from `index` on that matches and that `call` runs, in the mode `call` picks, with `index` one past it and the URL cut for its route; when there is none, it schedules `done` with `err` once, with the URL every pass left |
| `Dispatcher.Dispatch.SettledIsPick` | lib/proto.js:116-174 | a settled call of `next` is the turn `Pick` describes, with the URL the handler sees and the one left at rest |
| `Dispatcher.Dispatch.Serve` | lib/proto.js:171-213 | one handler turn: the handler invoked and the URL at rest are exactly `Pick`'s, and `req.url` is the URL its handler sees; `index` is one past the stack when `done` is scheduled; the handler's behaviour decides the stack and the value the traversal goes on with, through `call`; `originalUrl` and the app's `route` are unchanged |
| `Dispatcher.Dispatch.Behave` | lib/proto.js:47-86 | a handler that registers a layer appends it to the stack being traversed, and `originalUrl` and the app's `route` stay as they were |
| `Dispatcher.Dispatch.Play` | lib/proto.js:171-213 | one round of a traversal is the first step of `Traverse` from the state it starts in; `req.url` is then the URL the invoked handler sees, and `index` is one past its layer (one past the stack when `done` is scheduled); `originalUrl` and the app's `route` are unchanged |
| `Dispatcher.Dispatch.Run` | lib/proto.js:116-176 | a whole traversal from the first `next()` is exactly `Traverse` over `Pick`'s turns: its visits, how it ends, the final stack and URL; the first handler gets no error, each later one what the one before passed on, at increasing positions; `done` is scheduled at most once, with the error the traversal ends on; `index` ends one past the stack when `done` is scheduled and one past the last handler invoked otherwise, so it never resets; the URL at rest keeps `protohost` and equals the starting URL up to case, every handler fits the request's URL, and a handler still holding the request, or one that returned, leaves `req.url` as it saw it; `originalUrl` and the app's `route` are unchanged |
| `Dispatcher.Dispatch.Drive` | lib/proto.js:171-212 | the loop of a traversal: its visits, end, final stack and resting URL are `Traverse` over `Pick`'s turns, `done` is scheduled at most once, and at a `Stopped` or `Pending` end `req.url` is the last handler's URL; `index` ends one past the stack when `done` is scheduled and one past the last handler invoked otherwise |

## Left out

- `finalhandler`, `logerror` and `env` (lib/proto.js:108-111, 222-224) are external. `done` is a tag, `Out(id)` or `FinalHandler`. Its calls are the list `scheduled`.
- `defer` (lib/proto.js:138) is asynchronous scheduling. The model records only that `done` is scheduled once, with this `err`, when the stack is exhausted.
- `app.listen` and the `http.Server` unwrapping through `fn.listeners('request')[0]` (lib/proto.js:66-69, 179-182) are network plumbing and a foreign call. A `Middleware` here is a function or a sub-app.
- `debug` and `console.log` have no effect on state.
- The URL parser `parseurl` is not part of this model. `Routing.Pathname` is a stated assumption:
  - the part of the URL after `protohost` and before the first '?';
  - "/" when that part is empty or when a fully qualified URL has no '/' after its host.
- Percent-decoding, fragments, and a fully qualified URL whose query holds a '/' are therefore not modelled as the parser would treat them.
- `toLowerCase` maps only the ASCII letters. Unicode case mapping is not modelled. JavaScript strings are sequences of UTF-16 code units; here a string is a sequence of Dafny `char`, which is a Unicode scalar value, so a lone surrogate code unit cannot be represented. The dispatcher only compares, slices and lower-cases URLs, which never depends on that.
- Handler bodies and `res` are user code. A handler is its arity plus one `Behaviour` per invocation, such as calling `next(err)`, throwing, returning, or registering a layer and then calling `next`.
- A handler that calls `next` more than once, calls it later, or changes `req.url` itself is not modelled.
- A sub-app's own traversal is not followed into. Its wrapper is a handler with arity 3 whose behaviour is given like any other.
- Concurrency between requests in flight is not modelled. Each traversal's state is local to its `Dispatch` object.
- `Dispatcher.Dispatch.Next` requires `index` to be at most the stack's length. `index` passes the end only once `done` has been scheduled, and calling `next` after that is a handler calling it twice, which is not modelled. `Serve` and `Play` carry the same requirement.
- `Dispatcher.Dispatch.Run` and `Dispatcher.Dispatch.Drive` bound the traversal by the length of the script. A traversal that would go on longer ends `Pending`, with the request still held by a handler.
