// A value that may be absent: the source's NULL results and its sentinels; and, where a run of the
// source yields a list and a final state, the absence of both after a deliberate stop.
module Options {
  datatype Option<+T> = None | Some(value: T)

  /** Put what came first in front of what a later run yields. */
  function Then<T, S>(first: seq<T>, r: Option<(seq<T>, S)>): Option<(seq<T>, S)> {
    match r
    case None => None
    case Some((more, end)) => Some((first + more, end))
  }

  lemma ThenThen<T, S>(a: seq<T>, b: seq<T>, r: Option<(seq<T>, S)>)
    ensures Then(a, Then(b, r)) == Then(a + b, r)
    ensures Then([], r) == r
  {
    if r.Some? {
      assert a + (b + r.value.0) == a + b + r.value.0;
      assert [] + r.value.0 == r.value.0;
    }
  }
}
