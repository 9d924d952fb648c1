/** The small part of Python's string and path handling that the backend relies on. */
module Text {

  /** `sep.join(parts)`. */
  function Join(parts: seq<string>, sep: string): string
    decreases |parts|
  {
    if |parts| == 0 then ""
    else if |parts| == 1 then parts[0]
    else parts[0] + sep + Join(parts[1..], sep)
  }

  /** `s.endswith(suffix)`. */
  predicate EndsWith(s: string, suffix: string) {
    |suffix| <= |s| && s[|s| - |suffix|..] == suffix
  }

  /** The text after the last `c` in `s`, or all of `s` when `c` does not occur:
      `s.rsplit(c, 1)[-1]`, equivalently `s[s.rfind(c) + 1:]`. */
  function AfterLast(s: string, c: char): (r: string)
    ensures |r| <= |s| && s[|s| - |r|..] == r
    ensures c !in r
    ensures c in s ==> |r| < |s| && s[|s| - |r| - 1] == c
    ensures c !in s ==> r == s
    decreases |s|
  {
    if |s| == 0 then ""
    else if s[|s| - 1] == c then ""
    else
      var init := s[..|s| - 1];
      var r' := AfterLast(init, c);
      assert s == init + [s[|s| - 1]];
      assert c in s ==> c in init;
      r' + [s[|s| - 1]]
  }

  /** Whatever comes before a last separator, the text after it is the result. */
  lemma {:induction false} AfterLastOfSeparated(s: string, c: char, t: string)
    requires c !in t
    ensures AfterLast(s + [c] + t, c) == t
    decreases |t|
  {
    var w := s + [c] + t;
    if |t| > 0 {
      assert w[..|w| - 1] == s + [c] + t[..|t| - 1];
      AfterLastOfSeparated(s, c, t[..|t| - 1]);
      assert t == t[..|t| - 1] + [t[|t| - 1]];
    } else {
      assert w[|w| - 1] == c;
    }
  }

  /** `posixpath.basename(p)`: the part after the last separator, the whole
      path when there is none. */
  function Basename(p: string): string {
    AfterLast(p, '/')
  }

  /** `posixpath.join(dir, name)` for two parts: an absolute `name` replaces `dir`. */
  function PathJoin(dir: string, name: string): string {
    if |name| > 0 && name[0] == '/' then name
    else if dir == [] || dir[|dir| - 1] == '/' then dir + name
    else dir + "/" + name
  }

  function LowerChar(c: char): char {
    if 'A' <= c <= 'Z' then (c as int + 32) as char else c
  }

  /** `s.lower()` on the ASCII letters. */
  function AsciiLower(s: string): string
    decreases |s|
  {
    if |s| == 0 then "" else [LowerChar(s[0])] + AsciiLower(s[1..])
  }

  /** A file name without separators, joined onto any folder, is the basename
      of the joined path. */
  lemma BasenameOfJoin(dir: string, name: string)
    requires name != [] && '/' !in name
    ensures Basename(PathJoin(dir, name)) == name
  {
    if dir == [] {
      assert PathJoin(dir, name) == name;
    } else if dir[|dir| - 1] == '/' {
      assert dir == dir[..|dir| - 1] + ['/'];
      AfterLastOfSeparated(dir[..|dir| - 1], '/', name);
    } else {
      AfterLastOfSeparated(dir, '/', name);
    }
  }

  /** Lower-casing maps each character on its own and leaves no ASCII capital. */
  lemma {:induction false} AsciiLowerChars(s: string)
    ensures |AsciiLower(s)| == |s|
    ensures forall i | 0 <= i < |s| :: AsciiLower(s)[i] == LowerChar(s[i])
    ensures forall i | 0 <= i < |s| :: !('A' <= AsciiLower(s)[i] <= 'Z')
    decreases |s|
  {
    if |s| > 0 {
      AsciiLowerChars(s[1..]);
    }
  }

  predicate IsDigits(s: string) {
    forall i | 0 <= i < |s| :: '0' <= s[i] <= '9'
  }

  function Digit(d: nat): (c: char)
    requires d < 10
  {
    ('0' as int + d) as char
  }

  /** The decimal text of `n`, as Python's `str(n)` and `f"{n}"` give it. */
  function NatToString(n: nat): (s: string)
    ensures |s| >= 1 && IsDigits(s)
    ensures s[0] == '0' ==> n == 0
    decreases n
  {
    if n < 10 then [Digit(n)] else NatToString(n / 10) + [Digit(n % 10)]
  }

  /** The number a string of decimal digits denotes. */
  function DecimalValue(s: string): nat
    requires IsDigits(s)
    decreases |s|
  {
    if |s| == 0 then 0
    else DecimalValue(s[..|s| - 1]) * 10 + (s[|s| - 1] as int - '0' as int)
  }

  /** Reading the decimal text back gives the number. */
  lemma {:induction false} DecimalRoundTrip(n: nat)
    ensures DecimalValue(NatToString(n)) == n
    decreases n
  {
    if n >= 10 {
      var s := NatToString(n);
      assert s[..|s| - 1] == NatToString(n / 10);
      DecimalRoundTrip(n / 10);
    }
  }
}
