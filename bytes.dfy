/** Byte strings: the servlet writes `String.getBytes()` of fixed ASCII text. */
module Bytes {

  /** The bytes `String.getBytes()` gives for text in an ASCII-compatible
      default charset: one byte per character, its low eight bits. Every
      text the servlet writes this way is ASCII apart from a task id and
      the exception trace. */
  function Ascii(s: string): (r: seq<bv8>)
    ensures |r| == |s|
  {
    seq(|s|, i requires 0 <= i < |s| => (s[i] as int % 256) as bv8)
  }

  /** Concatenation regrouped; stated once so that proofs about appending to
      an output stream need not rediscover it. */
  lemma AppendAssoc(a: seq<bv8>, b: seq<bv8>, c: seq<bv8>)
    ensures a + (b + c) == (a + b) + c
  {
  }

  /** A longer prefix is a shorter one followed by the bytes between. */
  lemma PrefixExtend(s: seq<bv8>, i: nat, j: nat)
    requires i <= j <= |s|
    ensures s[..j] == s[..i] + s[i..j]
  {
  }
}
