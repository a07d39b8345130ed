/** Invoking one layer's handler (`call`, lib/proto.js:190-213). */
module Invoker {
  import opened Values

  /** How `call` treats a handler: run it as error-handling middleware
      `handle(err, req, res, next)`, run it as request-handling middleware
      `handle(req, res, next)`, or not run it and pass `err` on. */
  datatype Invocation = ErrorHandling | RequestHandling | Forwarded

  /** Lines 191-205: the choice made from the handler's declared arity and
      the truthiness of the pending error. */
  function Select(arity: nat, err: ErrValue): Invocation {
    if err.Truthy? && arity == 4 then ErrorHandling
    else if !err.Truthy? && arity < 4 then RequestHandling
    else Forwarded
  }

  /** How the synchronous invocation of a handler ended. */
  datatype Reaction = Returned | Threw(thrown: ErrValue)

  /** Lines 190-213: the value `call` itself passes to `next`, or `None` when
      `call` returns without calling it. A handler is run only when its kind
      agrees with the pending error; otherwise `next(err)` is called with the
      error unchanged. A synchronous throw becomes the new pending error; a
      normal return leaves calling `next` to the handler. */
  function Call(arity: nat, err: ErrValue, reaction: Reaction): (next: Option<ErrValue>)
    ensures Select(arity, err) == Forwarded ==> next == Some(err)
    ensures Select(arity, err) != Forwarded ==>
      (next == None <==> reaction.Returned?) && (reaction.Threw? ==> next == Some(reaction.thrown))
  {
    var mode := Select(arity, err);
    if mode == Forwarded then Some(err)
    else match reaction
      case Returned => None
      case Threw(e) => Some(e)
  }

  /** Only error-handling middleware (declared arity 4) runs while a truthy
      error is pending, and only request-handling middleware (arity below 4)
      runs while none is; a handler declaring more than four parameters never
      runs. */
  lemma ErrorRouting(arity: nat, err: ErrValue)
    ensures Select(arity, err) == ErrorHandling <==> err.Truthy? && arity == 4
    ensures Select(arity, err) == RequestHandling <==> !err.Truthy? && arity < 4
    ensures arity > 4 ==> Select(arity, err) == Forwarded
  {
  }
}
