/** Values that flow through the dispatcher. */
module Values {

  datatype Option<+T> = None | Some(value: T)

  /** The JavaScript value passed as `err` to `next`, or thrown by a handler.
      Only its truthiness matters to the dispatcher (lib/proto.js:192), and it is
      handed on unchanged otherwise: `Undefined` is what `next()` passes,
      `Falsy` stands for the other falsy values (null, false, 0, '') and
      `Truthy` for every truthy value, each identified by a tag. */
  datatype ErrValue = Undefined | Falsy(tag: nat) | Truthy(tag: nat)
}
