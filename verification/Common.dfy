/** Types shared by every component of the transfer engine. */
module Common {

  /** A raw byte string; the source moves `char` buffers. */
  type Octets = seq<char>

  datatype Option<+T> = None | Some(value: T)

  function Min(a: nat, b: nat): nat {
    if a < b then a else b
  }

  lemma SliceOfSlice<T>(s: seq<T>, a: nat, b: nat, i: nat, j: nat)
    requires a <= b <= |s| && i <= j <= b - a
    ensures s[a..b][i..j] == s[a + i..a + j]
  {
    var t := s[a..b][i..j];
    assert |t| == j - i && forall k | 0 <= k < j - i :: t[k] == s[a..b][i + k] == s[a + i + k];
  }
}
