/** Picking, in order, the payloads of the elements of a sequence that a
    selector recognises. Used to read one kind of event out of a trace. */
module Selection {
  import opened Wrappers

  /** The payloads `pick` yields on the elements of `s`, in the order of `s`. */
  function Select<E, T>(s: seq<E>, pick: E -> Option<T>): seq<T>
  {
    if s == [] then []
    else (match pick(s[0]) case Some(v) => [v] case None => []) + Select(s[1..], pick)
  }

  /** Selecting from a concatenation selects from each part in turn. */
  lemma {:induction false} SelectConcat<E, T>(a: seq<E>, b: seq<E>, pick: E -> Option<T>)
    ensures Select(a + b, pick) == Select(a, pick) + Select(b, pick)
  {
    if a == [] {
      assert a + b == b;
    } else {
      assert (a + b)[0] == a[0];
      assert (a + b)[1..] == a[1..] + b;
      SelectConcat(a[1..], b, pick);
    }
  }

  /** A sequence none of whose elements the selector recognises selects nothing. */
  lemma {:induction false} SelectNothing<E, T>(s: seq<E>, pick: E -> Option<T>)
    requires forall i | 0 <= i < |s| :: pick(s[i]).None?
    ensures Select(s, pick) == []
  {
    if s != [] {
      assert pick(s[0]).None?;
      SelectNothing(s[1..], pick);
    }
  }
}
