/** Strings as the two programs see them: one character per octet. */
module Text {

  const NUL: char := '\0'

  datatype Result<+T, +E> = Ok(value: T) | Err(error: E)

  datatype Option<+T> = None | Some(value: T)

  /** Index of the first `c` at or after `i`, or `|s|` when there is none. */
  function IndexFrom(s: string, c: char, i: nat): (r: nat)
    requires i <= |s|
    ensures i <= r <= |s|
    ensures forall k | i <= k < r :: s[k] != c
    ensures r < |s| ==> s[r] == c
    decreases |s| - i
  {
    if i == |s| || s[i] == c then i else IndexFrom(s, c, i + 1)
  }

  function IndexOf(s: string, c: char): (r: nat)
    ensures r <= |s|
    ensures forall k | 0 <= k < r :: s[k] != c
    ensures r < |s| ==> s[r] == c
  {
    IndexFrom(s, c, 0)
  }

  predicate Free(s: string, c: char) {
    forall k | 0 <= k < |s| :: s[k] != c
  }

  /** No line end and no NUL. */
  predicate Plain(s: string) {
    Free(s, '\n') && Free(s, NUL)
  }

  lemma IndexOfUnique(s: string, c: char, i: nat)
    requires i <= |s|
    requires forall k | 0 <= k < i :: s[k] != c
    requires i < |s| ==> s[i] == c
    ensures IndexOf(s, c) == i
  {
  }

  lemma IndexOfAfter(l: string, c: char, r: string)
    requires Free(l, c)
    ensures IndexOf(l + [c] + r, c) == |l|
  {
    var s := l + [c] + r;
    assert forall k | 0 <= k < |l| :: s[k] == l[k];
    IndexOfUnique(s, c, |l|);
  }

  lemma Assoc<T>(a: seq<T>, b: seq<T>, c: seq<T>)
    ensures (a + b) + c == a + (b + c)
  {
  }
}
