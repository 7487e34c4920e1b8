/** The record of remote calls a screen has issued, oldest first. It is kept as a list
    that grows at its end, so that "one more call was made" is a constructor, not a
    sequence concatenation. */
module CallLog {

  datatype Log<T> = Empty | Then(before: Log<T>, last: T)

  /** The log after `calls` were issued, in order. */
  function Extend<T>(log: Log<T>, calls: seq<T>): (r: Log<T>)
    ensures Size(r) == Size(log) + |calls|
  {
    if |calls| == 0 then log else Then(Extend(log, calls[..|calls| - 1]), calls[|calls| - 1])
  }

  /** Number of calls in the log. */
  function Size<T>(log: Log<T>): nat {
    match log
    case Empty => 0
    case Then(before, _) => Size(before) + 1
  }

  /** Extending by one, two or three calls, spelled out. */
  lemma ExtendSmall<T>(log: Log<T>, a: T, b: T, c: T)
    ensures Extend(log, [a]) == Then(log, a)
    ensures Extend(log, [a, b]) == Then(Then(log, a), b)
    ensures Extend(log, [a, b, c]) == Then(Then(Then(log, a), b), c)
  {
    assert [a, b, c][..2] == [a, b];
    assert [a, b][..1] == [a];
    assert [a][..0] == [];
  }
}
