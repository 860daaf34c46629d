/** Optional values: the model's stand-in for Python's `None`. */
module Wrappers {

  datatype Option<+T> = None | Some(value: T)

  /** The values an option holds, as a set: empty for None, a singleton for Some. */
  function OptionSet<T(!new)>(o: Option<T>): (s: set<T>)
    ensures o.None? <==> s == {}
    ensures forall x :: x in s <==> o == Some(x)
  {
    match o
    case None => {}
    case Some(x) => {x}
  }
}
