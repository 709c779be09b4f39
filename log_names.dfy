/** The log kinds of a task (`TaskLog.LogName`) and the parsing of the
    `filter` and `plaintext` request parameters. */
module LogNames {
  import opened Wrappers

  /** The five log streams a task can have. */
  datatype LogKind = STDOUT | STDERR | SYSLOG | PROFILE | DEBUGOUT

  /** `name()` of a constant: the identifier it is declared with. What the
      servlet prints for a kind is `toString()`, which is not this (see
      `Rendering.Env.display`). */
  function Name(k: LogKind): (n: string)
    ensures 0 < |n| && forall i :: 0 <= i < |n| ==> 'A' <= n[i] <= 'Z'
  {
    match k
    case STDOUT => "STDOUT"
    case STDERR => "STDERR"
    case SYSLOG => "SYSLOG"
    case PROFILE => "PROFILE"
    case DEBUGOUT => "DEBUGOUT"
  }

  /** `Enum.valueOf`: the constant whose name is exactly `s`, if any. */
  function ValueOf(s: string): (r: Option<LogKind>)
    ensures r.Some? ==> Name(r.value) == s
    ensures r.None? ==> forall k :: Name(k) != s
  {
    if s == "STDOUT" then Some(STDOUT)
    else if s == "STDERR" then Some(STDERR)
    else if s == "SYSLOG" then Some(SYSLOG)
    else if s == "PROFILE" then Some(PROFILE)
    else if s == "DEBUGOUT" then Some(DEBUGOUT)
    else None
  }

  const Lowercase := "abcdefghijklmnopqrstuvwxyz"
  const Uppercase := "ABCDEFGHIJKLMNOPQRSTUVWXYZ"

  /** Upper-casing of one character, for the ASCII letters: no lower-case
      letter is left, letters stay letters and other characters stay what
      they are, and a character changes only by the distance between the
      two cases. */
  function UpperChar(c: char): (u: char)
    ensures !('a' <= u <= 'z')
    ensures 'A' <= u <= 'Z' <==> 'A' <= c <= 'Z' || 'a' <= c <= 'z'
    ensures u == c || u as int == c as int - ('a' as int - 'A' as int)
    ensures !('a' <= c <= 'z') ==> u == c
  {
    if 'a' <= c <= 'z' then (c as int - 32) as char else c
  }

  /** Each lower-case letter of the alphabet becomes the upper-case letter
      at the same place. */
  lemma UpperCharTable()
    ensures forall i :: 0 <= i < 26 ==> UpperChar(Lowercase[i]) == Uppercase[i]
  {
    forall i | 0 <= i < 26
      ensures UpperChar(Lowercase[i]) == Uppercase[i]
    {
    }
  }

  /** `String.toUpperCase` restricted to the ASCII letters: no lower-case
      letter is left, and everything else is kept in place. */
  function ToUpper(s: string): (r: string)
    ensures |r| == |s|
    ensures forall i :: 0 <= i < |r| ==> !('a' <= r[i] <= 'z')
    ensures forall i :: 0 <= i < |s| && !('a' <= s[i] <= 'z') ==> r[i] == s[i]
    ensures forall i :: 0 <= i < |s| && 'a' <= s[i] <= 'z' ==> r[i] as int == s[i] as int - 32
  {
    seq(|s|, i requires 0 <= i < |s| => UpperChar(s[i]))
  }

  /** Upper-casing twice is upper-casing once. */
  lemma ToUpperIdempotent(s: string)
    ensures ToUpper(ToUpper(s)) == ToUpper(s)
  {
  }

  /** The `filter` parameter: `LogName.valueOf(logFilter.toUpperCase())`,
      with `None` for the `IllegalArgumentException`. */
  function ParseFilter(s: string): (r: Option<LogKind>)
    ensures r.Some? ==> ToUpper(s) == Name(r.value)
    ensures r.None? ==> forall k :: ToUpper(s) != Name(k)
  {
    ValueOf(ToUpper(s))
  }

  /** The filter accepts a kind's name in any mix of letter case, and nothing else. */
  lemma FilterIgnoresCase(s: string, k: LogKind)
    ensures ParseFilter(s) == Some(k) <==> ToUpper(s) == Name(k)
  {
    var r := ValueOf(ToUpper(s));
    if r.Some? && ToUpper(s) == Name(k) {
      NameInjective(r.value, k);
    }
  }

  /** Distinct kinds have distinct names. */
  lemma NameInjective(a: LogKind, b: LogKind)
    requires Name(a) == Name(b)
    ensures a == b
  {
  }

  /** `valueOf` inverts the name of every kind. */
  lemma ValueOfName(k: LogKind)
    ensures ValueOf(Name(k)) == Some(k)
  {
  }

  /** `Boolean.valueOf`: true exactly for "true" in any letter case. */
  function ParseBool(s: string): (b: bool)
    ensures b <==> |s| == 4 && (s[0] == 't' || s[0] == 'T') && (s[1] == 'r' || s[1] == 'R')
                   && (s[2] == 'u' || s[2] == 'U') && (s[3] == 'e' || s[3] == 'E')
  {
    ToUpper(s) == "TRUE"
  }

  /** A few filter values as a client would type them. */
  lemma FilterExamples()
    ensures ParseFilter("stdout") == Some(STDOUT)
    ensures ParseFilter("DebugOut") == Some(DEBUGOUT)
    ensures ParseFilter("bogus") == None
  {
    assert ToUpper("stdout") == "STDOUT";
    assert ToUpper("DebugOut") == "DEBUGOUT";
    assert ToUpper("bogus") == "BOGUS";
  }
}
