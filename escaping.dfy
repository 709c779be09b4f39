/** The HTML escape the servlet applies to log bytes: `<`, `>` and `&`
    become `&lt;`, `&gt;` and `&amp;`; every other byte passes through. */
module Escaping {

  const Lt: bv8 := 0x3C   // '<'
  const Gt: bv8 := 0x3E   // '>'
  const Amp: bv8 := 0x26  // '&'

  const EntityLt: seq<bv8> := [0x26, 0x6C, 0x74, 0x3B]         // "&lt;"
  const EntityGt: seq<bv8> := [0x26, 0x67, 0x74, 0x3B]         // "&gt;"
  const EntityAmp: seq<bv8> := [0x26, 0x61, 0x6D, 0x70, 0x3B]  // "&amp;"

  /** The three bytes the servlet quotes. */
  predicate IsQuotable(b: bv8) {
    b == Lt || b == Gt || b == Amp
  }

  /** The replacement of one byte. */
  function Escape(b: bv8): (r: seq<bv8>)
    ensures !IsQuotable(b) ==> r == [b]
    ensures IsQuotable(b) ==> 4 <= |r| && r[0] == Amp && r[|r| - 1] == 0x3B
  {
    if b == Lt then EntityLt
    else if b == Gt then EntityGt
    else if b == Amp then EntityAmp
    else [b]
  }

  /** The concatenation of the per-byte replacements. */
  function Escaped(s: seq<bv8>): (r: seq<bv8>)
    ensures |s| <= |r|
    ensures s == [] <==> r == []
  {
    if s == [] then [] else Escape(s[0]) + Escaped(s[1..])
  }

  /** Escaping distributes over concatenation. */
  lemma {:induction false} EscapedAppend(a: seq<bv8>, b: seq<bv8>)
    ensures Escaped(a + b) == Escaped(a) + Escaped(b)
  {
    if a == [] {
      assert a + b == b;
    } else {
      assert (a + b)[1..] == a[1..] + b;
      EscapedAppend(a[1..], b);
    }
  }

  /** A run without quotable bytes is copied unchanged. */
  lemma {:induction false} EscapedPlainRun(s: seq<bv8>)
    requires forall i :: 0 <= i < |s| ==> !IsQuotable(s[i])
    ensures Escaped(s) == s
  {
    if s != [] {
      EscapedPlainRun(s[1..]);
    }
  }

  /** Escaping a slice a run at a time: a run without quotable bytes is
      appended as it is. */
  lemma EscapedRunStep(s: seq<bv8>, a: int, i: int, j: int)
    requires 0 <= a <= i <= j <= |s|
    requires forall k :: i <= k < j ==> !IsQuotable(s[k])
    ensures Escaped(s[a..j]) == Escaped(s[a..i]) + s[i..j]
  {
    assert s[a..j] == s[a..i] + s[i..j];
    EscapedAppend(s[a..i], s[i..j]);
    EscapedPlainRun(s[i..j]);
  }

  /** Escaping a slice a byte at a time. */
  lemma EscapedByteStep(s: seq<bv8>, a: int, i: int)
    requires 0 <= a <= i < |s|
    ensures Escaped(s[a..i + 1]) == Escaped(s[a..i]) + Escape(s[i])
  {
    assert s[a..i + 1] == s[a..i] + [s[i]];
    EscapedAppend(s[a..i], [s[i]]);
    assert Escaped([s[i]]) == Escape(s[i]) + Escaped([]);
  }

  /** The number of occurrences of `b` in `s`. */
  function Count(s: seq<bv8>, b: bv8): nat
  {
    if s == [] then 0 else (if s[0] == b then 1 else 0) + Count(s[1..], b)
  }

  /** The output is as long as the input plus three bytes per `<` and `>`
      and four per `&`. */
  lemma {:induction false} EscapedLength(s: seq<bv8>)
    ensures |Escaped(s)| == |s| + 3 * Count(s, Lt) + 3 * Count(s, Gt) + 4 * Count(s, Amp)
  {
    if s != [] {
      EscapedLength(s[1..]);
      assert Escaped(s) == Escape(s[0]) + Escaped(s[1..]);
      assert |Escape(s[0])| == if s[0] == Amp then 5 else if IsQuotable(s[0]) then 4 else 1;
    }
  }

  /** No raw `<` or `>` survives escaping. */
  lemma {:induction false} EscapedHasNoAngles(s: seq<bv8>)
    ensures Lt !in Escaped(s) && Gt !in Escaped(s)
  {
    if s != [] {
      EscapedHasNoAngles(s[1..]);
      assert Escaped(s) == Escape(s[0]) + Escaped(s[1..]);
    }
  }

  /** `t` is a sequence of entities and bytes that are not `<`, `>` or `&`:
      every `&` in it starts one of the three entities. */
  predicate WellEscaped(t: seq<bv8>)
    decreases |t|
  {
    if t == [] then true
    else if |t| >= 4 && (t[..4] == EntityLt || t[..4] == EntityGt) then WellEscaped(t[4..])
    else if |t| >= 5 && t[..5] == EntityAmp then WellEscaped(t[5..])
    else !IsQuotable(t[0]) && WellEscaped(t[1..])
  }

  /** The decoding of the three entities, the inverse of `Escaped`. */
  function Unescaped(t: seq<bv8>): seq<bv8>
    decreases |t|
  {
    if t == [] then []
    else if |t| >= 4 && t[..4] == EntityLt then [Lt] + Unescaped(t[4..])
    else if |t| >= 4 && t[..4] == EntityGt then [Gt] + Unescaped(t[4..])
    else if |t| >= 5 && t[..5] == EntityAmp then [Amp] + Unescaped(t[5..])
    else [t[0]] + Unescaped(t[1..])
  }

  /** Escaping one byte in front of some output, seen from the decoder. */
  lemma EscapeThenDecode(b: bv8, rest: seq<bv8>)
    ensures Unescaped(Escape(b) + rest) == [b] + Unescaped(rest)
    ensures WellEscaped(Escape(b) + rest) == WellEscaped(rest)
  {
    var t := Escape(b) + rest;
    if b == Lt {
      assert t[..4] == EntityLt && t[4..] == rest;
    } else if b == Gt {
      assert t[..4] == EntityGt && t[4..] == rest;
    } else if b == Amp {
      assert t[1] == 0x61;
      assert t[..4] != EntityLt && t[..4] != EntityGt;
      assert t[..5] == EntityAmp && t[5..] == rest;
    } else {
      assert t[0] == b && t[1..] == rest;
      assert |t| >= 4 ==> t[..4][0] == b;
      assert |t| >= 5 ==> t[..5][0] == b;
    }
  }

  /** Escaped output is well escaped, and decoding it gives the input back. */
  lemma {:induction false} EscapedRoundTrip(s: seq<bv8>)
    ensures WellEscaped(Escaped(s))
    ensures Unescaped(Escaped(s)) == s
  {
    if s != [] {
      EscapedRoundTrip(s[1..]);
      EscapeThenDecode(s[0], Escaped(s[1..]));
    }
  }

  /** Every well-escaped byte string is the escape of its decoding. */
  lemma {:induction false} UnescapedRoundTrip(t: seq<bv8>)
    requires WellEscaped(t)
    ensures Escaped(Unescaped(t)) == t
    decreases |t|
  {
    if t == [] {
    } else if |t| >= 4 && t[..4] == EntityLt {
      UnescapedRoundTrip(t[4..]);
      assert Unescaped(t) == [Lt] + Unescaped(t[4..]);
      assert t == t[..4] + t[4..];
    } else if |t| >= 4 && t[..4] == EntityGt {
      UnescapedRoundTrip(t[4..]);
      assert Unescaped(t) == [Gt] + Unescaped(t[4..]);
      assert t == t[..4] + t[4..];
    } else if |t| >= 5 && t[..5] == EntityAmp {
      UnescapedRoundTrip(t[5..]);
      assert Unescaped(t) == [Amp] + Unescaped(t[5..]);
      assert t == t[..5] + t[5..];
    } else {
      UnescapedRoundTrip(t[1..]);
      assert Unescaped(t) == [t[0]] + Unescaped(t[1..]);
      assert t == [t[0]] + t[1..];
    }
  }

  /** Escaping one byte alone. */
  lemma EscapedSingle(b: bv8)
    ensures Escaped([b]) == Escape(b)
  {
    assert [b][1..] == [];
  }

  /** The worked example: "a<b>c&d" becomes "a&lt;b&gt;c&amp;d". */
  lemma EscapeExample()
    ensures Escaped([0x61] + [Lt] + [0x62] + [Gt] + [0x63] + [Amp] + [0x64])
         == [0x61] + EntityLt + [0x62] + EntityGt + [0x63] + EntityAmp + [0x64]
  {
    EscapedSingle(0x61);
    EscapedSingle(Lt);
    EscapedSingle(0x62);
    EscapedSingle(Gt);
    EscapedSingle(0x63);
    EscapedSingle(Amp);
    EscapedSingle(0x64);
    EscapedAppend([0x61], [Lt]);
    EscapedAppend([0x61] + [Lt], [0x62]);
    EscapedAppend([0x61] + [Lt] + [0x62], [Gt]);
    EscapedAppend([0x61] + [Lt] + [0x62] + [Gt], [0x63]);
    EscapedAppend([0x61] + [Lt] + [0x62] + [Gt] + [0x63], [Amp]);
    EscapedAppend([0x61] + [Lt] + [0x62] + [Gt] + [0x63] + [Amp], [0x64]);
  }
}
