/** The array helpers the pages use on record lists: `Math.min`, `slice(0, n)`, and
    the "how many" choice of the page selectors. */
module Lists {

  function Min(a: int, b: int): (r: int)
  {
    if a <= b then a else b
  }

  /** `s.slice(0, n)` for a count `n`: the first `n` elements, or all of them when
      there are fewer. */
  function Slice<T>(s: seq<T>, n: nat): (r: seq<T>)
    ensures |r| == Min(n, |s|)
    ensures forall i :: 0 <= i < |r| ==> r[i] == s[i]
  {
    s[..Min(n, |s|)]
  }

  /** A page's "how many" selector: the string `'all'` or a number of rows. */
  datatype Limit = All | Top(n: nat)
}
