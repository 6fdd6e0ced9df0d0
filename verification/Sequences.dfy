/** The report of a whole sequence in the operations framework: once a sequence has
    succeeded on an input, executing it again on that input returns its old output
    and does nothing. */
module Sequences {
  import opened Wrappers

  /** The state a sequence works on, and the reports of its successful executions. */
  datatype Store<W, !I, O> = Store(world: W, outputs: map<I, O>)

  /** ExecuteSequence, given what running the body would do. */
  function ExecuteSequence<W, I, O, E>(s: Store<W, I, O>, input: I, body: (W, Result<O, E>))
    : (Store<W, I, O>, Result<O, E>)
  {
    if input in s.outputs then (s, Success(s.outputs[input])) else
    match body
    case (w, Success(out)) => (Store(w, s.outputs[input := out]), Success(out))
    case (w, Failure(e)) => (Store(w, s.outputs), Failure(e))
  }
}
