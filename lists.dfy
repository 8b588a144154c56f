/** Small sequence vocabulary shared by the chat modules. */
module Lists {

  /** A value that may be absent: JavaScript's `string | null` and the
      `undefined` returned by `Array.prototype.find`. */
  datatype Option<T> = None | Some(value: T)

  /** `a` is obtained from `b` by deleting elements, without reordering
      the ones that remain (greedy matching is complete for this). */
  predicate IsSubsequence<T(==)>(a: seq<T>, b: seq<T>)
    decreases |b|
  {
    if |a| == 0 then true
    else if |b| == 0 then false
    else if a[0] == b[0] then IsSubsequence(a[1..], b[1..])
    else IsSubsequence(a, b[1..])
  }

  /** A non-empty list is its head in front of its tail, with or without
      a list appended. */
  lemma HeadTail<T>(a: seq<T>, b: seq<T>)
    requires a != []
    ensures a == [a[0]] + a[1..] && a + b == [a[0]] + (a[1..] + b)
  {
  }

  /** Putting an element in front commutes with appending. */
  lemma ConsAppend<T>(x: T, a: seq<T>, b: seq<T>)
    ensures [x] + (a + b) == ([x] + a) + b
  {
  }

  /** Dropping the first element of a subsequence keeps it a subsequence. */
  lemma {:induction false} SubsequenceTail<T>(a: seq<T>, b: seq<T>)
    requires |a| > 0 && IsSubsequence(a, b)
    ensures IsSubsequence(a[1..], b)
    decreases |b|
  {
    if |a| == 1 {
      // a[1..] is empty
    } else if a[0] == b[0] {
      // a[1..] matches inside b[1..]; so a[2..] does too, and a[1] either
      // matches b[0] or still matches inside b[1..]
      SubsequenceTail(a[1..], b[1..]);
      assert a[1..][1..] == a[2..];
    } else {
      // a matches inside b[1..], hence so does a[1..], and (should a[1]
      // match b[0]) so does a[2..]
      SubsequenceTail(a, b[1..]);
      SubsequenceTail(a[1..], b[1..]);
      assert a[1..][1..] == a[2..];
    }
  }

  /** A subsequence of `b` is a subsequence of `b` with anything put in front. */
  lemma SubsequenceCons<T>(a: seq<T>, x: T, b: seq<T>)
    requires IsSubsequence(a, b)
    ensures IsSubsequence(a, [x] + b)
  {
    assert ([x] + b)[1..] == b;
    if |a| > 0 && a[0] == x {
      SubsequenceTail(a, b);
    }
  }

  /** Every element of a subsequence occurs in the sequence it was taken from. */
  lemma {:induction false} SubsequenceMembers<T>(a: seq<T>, b: seq<T>)
    requires IsSubsequence(a, b)
    ensures forall x :: x in a ==> x in b
    decreases |b|
  {
    if |a| == 0 {
    } else if a[0] == b[0] {
      SubsequenceMembers(a[1..], b[1..]);
      forall x | x in a ensures x in b {
        if x != a[0] {
          assert x in a[1..];
        }
      }
    } else {
      SubsequenceMembers(a, b[1..]);
    }
  }
}
