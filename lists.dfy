/** List rebuilds shared by the history writers: `[item, ...list].slice(0, cap)` and order facts. */
module Lists {

  function Min(a: nat, b: nat): nat {
    if a <= b then a else b
  }

  /** `[item, ...list].slice(0, cap)`: the new item first, then as much of the old list as fits. */
  function PrependCapped<T>(item: T, list: seq<T>, cap: nat): (r: seq<T>)
    ensures |r| == Min(|list| + 1, cap)
    ensures cap >= 1 ==> r[0] == item
    ensures cap >= 1 ==> r[1..] <= list
  {
    ([item] + list)[..Min(|list| + 1, cap)]
  }

  /** `a` is `b` with some elements left out, the rest kept in order. */
  predicate IsSubsequence<T(==)>(a: seq<T>, b: seq<T>)
    decreases |b|
  {
    if a == [] then true
    else if b == [] then false
    else if a[0] == b[0] then IsSubsequence(a[1..], b[1..])
    else IsSubsequence(a, b[1..])
  }

  lemma {:induction false} PrefixIsSubsequence<T>(a: seq<T>, b: seq<T>)
    requires a <= b
    ensures IsSubsequence(a, b)
    decreases |b|
  {
    if a != [] {
      PrefixIsSubsequence(a[1..], b[1..]);
    }
  }

  lemma {:induction false} SubsequenceTail<T>(a: seq<T>, b: seq<T>)
    requires a != [] && IsSubsequence(a, b)
    ensures IsSubsequence(a[1..], b)
    decreases |b|, 1
  {
    if a[0] == b[0] {
      SubsequenceCons(a[1..], b);
    } else {
      SubsequenceTail(a, b[1..]);
      SubsequenceCons(a[1..], b);
    }
  }

  lemma {:induction false} SubsequenceCons<T>(x: seq<T>, b: seq<T>)
    requires b != [] && IsSubsequence(x, b[1..])
    ensures IsSubsequence(x, b)
    decreases |b|, 0
  {
    if x != [] && x[0] == b[0] {
      SubsequenceTail(x, b[1..]);
    }
  }

  lemma {:induction false} SubsequenceTrans<T>(a: seq<T>, b: seq<T>, c: seq<T>)
    requires IsSubsequence(a, b) && IsSubsequence(b, c)
    ensures IsSubsequence(a, c)
    decreases |c|
  {
    if a != [] && b != [] && c != [] {
      if b[0] == c[0] {
        if a[0] == b[0] {
          SubsequenceTrans(a[1..], b[1..], c[1..]);
        } else {
          SubsequenceTrans(a, b[1..], c[1..]);
          SubsequenceCons(a, c);
        }
      } else {
        SubsequenceTrans(a, b, c[1..]);
        SubsequenceCons(a, c);
      }
    }
  }
}
