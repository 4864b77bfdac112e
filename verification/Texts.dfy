/** What the modules that read text share. */
module Texts {
  /** The characters with the Unicode White_Space property. */
  predicate IsWhite(c: int) {
    || 0x09 <= c <= 0x0D || c == 0x20 || c == 0x85 || c == 0xA0 || c == 0x1680
    || 0x2000 <= c <= 0x200A || c == 0x2028 || c == 0x2029 || c == 0x202F || c == 0x205F || c == 0x3000
  }

  /** Slices of what is behind the first element. */
  lemma BehindFirst<T>(s: seq<T>, lo: nat, hi: nat)
    requires lo <= hi < |s|
    ensures s[..hi+1][1..] == s[1..][..hi]
    ensures s[lo+1..hi+1] == s[1..][lo..hi]
    ensures s[hi+1..] == s[1..][hi..]
  {
  }

  lemma Regroup<T>(a: seq<T>, b: seq<T>, c: seq<T>)
    ensures a + (b + c) == a + b + c
  {
  }
}
