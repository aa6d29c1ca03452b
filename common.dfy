/** Shared vocabulary of the engine: optional values, Math.min on reals, and
    "keep only the newest n" for the bounded lists (band histories, live
    flashes). */
module Common {

  datatype Option<T> = None | Some(value: T)

  /** Math.min on two numbers. */
  function Min(a: real, b: real): (m: real)
    ensures m <= a && m <= b
    ensures m == a || m == b
  {
    if a <= b then a else b
  }

  /** The last n elements of s, or all of s when it is not longer than n:
      what `xs.slice(-n)` after a length check leaves. */
  function Newest<T>(s: seq<T>, n: nat): seq<T>
  {
    if |s| > n then s[|s| - n..] else s
  }

  /** Newest keeps exactly min(|s|, n) elements, and they are the tail of s:
      the oldest ones are the ones dropped. */
  lemma NewestIsTail<T>(s: seq<T>, n: nat)
    ensures |Newest(s, n)| == (if |s| <= n then |s| else n)
    ensures Newest(s, n) == s[|s| - |Newest(s, n)|..]
  {
  }

  /** Truncating before appending more and truncating again loses nothing:
      a bounded list that is trimmed after every append holds the newest n of
      everything ever appended. */
  lemma NewestOfNewest<T>(a: seq<T>, b: seq<T>, n: nat)
    ensures Newest(Newest(a, n) + b, n) == Newest(a + b, n)
  {
    if |a| > n {
      var tb := a[|a| - n..] + b;
      var ab := a + b;
      assert |ab| == |a| - n + |tb|;
      forall k | 0 <= k < |tb| ensures tb[k] == ab[|a| - n + k] {
        if k < n {
          assert tb[k] == a[|a| - n + k];
        } else {
          assert tb[k] == b[k - n];
        }
      }
      SameTail(tb, ab, |a| - n, n);
    }
  }

  /** A sequence and one that extends it at the front share their newest n
      elements once the shorter one has at least n. */
  lemma SameTail<T>(tb: seq<T>, ab: seq<T>, d: nat, n: nat)
    requires |ab| == d + |tb| && |tb| >= n
    requires forall k :: 0 <= k < |tb| ==> tb[k] == ab[d + k]
    ensures Newest(tb, n) == Newest(ab, n)
  {
    var x, y := tb[|tb| - n..], ab[|ab| - n..];
    assert |x| == |y|;
    forall k | 0 <= k < n ensures x[k] == y[k] {
      assert x[k] == tb[|tb| - n + k];
    }
    if |tb| == n && d == 0 {
      assert tb == ab;
    }
  }
}
