/** Outcomes of calls into code that the model does not see: the chat model,
    the search tool, the JSON decoder and the worker bodies built on them.
    Every such call is a function parameter of the operations that make it;
    a call either returns a value or raises an exception, whose `str(e)` is
    kept as the message. */
module Foreign {

  /** What a foreign call, or a node that lets its exception through, produced. */
  datatype Reply<+T> = Returned(value: T) | Raised(message: string) {

    predicate IsFailure() {
      Raised?
    }

    function PropagateFailure<U>(): Reply<U>
      requires Raised?
    {
      Raised(message)
    }

    function Extract(): T
      requires Returned?
    {
      value
    }
  }

  datatype Option<+T> = None | Some(value: T)
}
