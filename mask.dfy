/**
 The display mask of the dashboard (`obfuscateValue`): a value shown while
 the balance is hidden is replaced by as many asterisks as it has characters.
 */
module Mask {

  /** `c.repeat(n)`: the string of `n` copies of `c`. */
  function Repeat(c: char, n: nat): (r: string)
    ensures |r| == n
    ensures forall i :: 0 <= i < |r| ==> r[i] == c
  {
    if n == 0 then "" else [c] + Repeat(c, n - 1)
  }

  /** `obfuscateValue(value)`: one `'*'` per character of `value`. */
  function Obfuscate(value: string): (r: string)
    ensures |r| == |value|
    ensures forall i :: 0 <= i < |r| ==> r[i] == '*'
  {
    Repeat('*', |value|)
  }

  /** The mask reveals nothing of a value but its length. */
  lemma ObfuscateDependsOnlyOnLength(u: string, v: string)
    ensures Obfuscate(u) == Obfuscate(v) <==> |u| == |v|
  {
  }

  /** Masking a mask changes nothing. */
  lemma ObfuscateIdempotent(v: string)
    ensures Obfuscate(Obfuscate(v)) == Obfuscate(v)
  {
  }
}
