/** Small definitions that several modules share. */
module Common {

  datatype Option<+T> = None | Some(value: T)

  /** What a piece of code the model cannot see does when it is called. */
  datatype Outcome<+T, +E> = Returned(value: T) | Threw(error: E)

  /** What a promise that the code awaits does. */
  datatype Awaited<+T, +E> = Resolves(value: T) | Rejects(error: E) | Hangs

  function Settling<T, E>(o: Outcome<T, E>): Awaited<T, E> {
    match o
    case Returned(value) => Resolves(value)
    case Threw(error) => Rejects(error)
  }

  function Reversed<T>(s: seq<T>): seq<T> {
    if s == [] then [] else Reversed(s[1..]) + [s[0]]
  }

  lemma {:induction false} ReversedConcat<T>(a: seq<T>, b: seq<T>)
    ensures Reversed(a + b) == Reversed(b) + Reversed(a)
  {
    if a == [] {
      assert a + b == b;
    } else {
      assert (a + b)[0] == a[0] && (a + b)[1..] == a[1..] + b;
      ReversedConcat(a[1..], b);
    }
  }

  /** A sequence of distinct numbers below `n` has at most `n` members. */
  lemma {:induction false} Pigeonhole(s: seq<nat>, n: nat)
    requires forall i :: 0 <= i < |s| ==> s[i] < n
    requires forall i, j :: 0 <= i < j < |s| ==> s[i] != s[j]
    ensures |s| <= n
  {
    if |s| == 0 {
    } else if n - 1 in s {
      var k :| 0 <= k < |s| && s[k] == n - 1;
      var rest := s[..k] + s[k + 1..];
      assert forall i :: 0 <= i < |rest| ==> rest[i] == if i < k then s[i] else s[i + 1];
      Pigeonhole(rest, n - 1);
    } else {
      Pigeonhole(s, n - 1);
    }
  }
}
