/** Small datatypes and cardinality facts shared by the other modules. */
module Basics {

  datatype Option<+T> = None | Some(value: T)

  /** The four ready states of a `ws` socket; a socket only ever moves to the right. */
  datatype ReadyState = Connecting | Open | Closing | Closed

  function Rank(s: ReadyState): nat {
    match s
    case Connecting => 0
    case Open => 1
    case Closing => 2
    case Closed => 3
  }

  function Max(a: int, b: int): int { if a < b then b else a }

  function Sum(s: seq<int>): int {
    if s == [] then 0 else Sum(s[..|s| - 1]) + s[|s| - 1]
  }

  lemma SumAppend(s: seq<int>, n: int)
    ensures Sum(s + [n]) == Sum(s) + n
  {
    assert (s + [n])[..|s|] == s;
  }

  lemma SubsetSize<T>(a: set<T>, b: set<T>)
    requires a <= b
    ensures |a| <= |b|
    ensures |a| == |b| ==> a == b
  {
    if a != {} {
      var x :| x in a;
      SubsetSize(a - {x}, b - {x});
      assert a == (a - {x}) + {x} && b == (b - {x}) + {x};
    }
  }

  /** An injective image of `a` inside `b` bounds the size of `a`. */
  lemma InjectionSize<S, T>(a: set<S>, b: set<T>, f: map<S, T>)
    requires a <= f.Keys
    requires forall x | x in a :: f[x] in b
    requires forall x, y | x in a && y in a && f[x] == f[y] :: x == y
    ensures |a| <= |b|
  {
    if a != {} {
      var x :| x in a;
      InjectionSize(a - {x}, b - {f[x]}, f);
    }
  }
}
