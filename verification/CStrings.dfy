/**
  The string routines of strlib.cpp and the two scanning primitives of the C library that
  the configuration parser is built from.  A C string is a `string` without '\0'; the static
  result buffers hold ASCIILINESZ characters.
*/
module CStrings {
  const ASCIILINESZ: nat := 1024

  /** isspace in the C locale. */
  predicate IsSpace(c: char) {
    c in {' ', '\t', '\n', '\U{000B}', '\U{000C}', '\r'}
  }

  /** tolower in the C locale. */
  function ToLower(c: char): char {
    if 'A' <= c <= 'Z' then (c as int + 32) as char else c
  }

  /** The length of the longest prefix without a character of `stop` (a negated scanset). */
  function Until(s: string, stop: set<char>): (n: nat)
    ensures n <= |s|
    ensures forall i :: 0 <= i < n ==> s[i] !in stop
    ensures n < |s| ==> s[n] in stop
  {
    if s == [] || s[0] in stop then 0 else 1 + Until(s[1..], stop)
  }

  /** The number of leading blanks (a white-space directive of scanf). */
  function Blanks(s: string): (n: nat)
    ensures n <= |s|
    ensures forall i :: 0 <= i < n ==> IsSpace(s[i])
    ensures n < |s| ==> !IsSpace(s[n])
  {
    if s == [] || !IsSpace(s[0]) then 0 else 1 + Blanks(s[1..])
  }

  function Skip(s: string): string {
    s[Blanks(s)..]
  }

  /** The length left once trailing blanks are gone. */
  function CropLength(s: string): (n: nat)
    ensures n <= |s|
    ensures forall i :: n <= i < |s| ==> IsSpace(s[i])
    ensures n > 0 ==> !IsSpace(s[n - 1])
  {
    if s == [] || !IsSpace(s[|s| - 1]) then |s| else CropLength(s[..|s| - 1])
  }

  function Crop(s: string): string {
    s[..CropLength(s)]
  }

  /** Lower case, cut to the size of the static buffer. */
  function Lower(s: string): (r: string)
    ensures |r| == if |s| < ASCIILINESZ then |s| else ASCIILINESZ
    ensures forall i :: 0 <= i < |r| ==> r[i] == ToLower(s[i])
  {
    seq(if |s| < ASCIILINESZ then |s| else ASCIILINESZ, i requires 0 <= i < |s| => ToLower(s[i]))
  }

  method StrLwc(s: string) returns (r: string)
    ensures r == Lower(s)
  {
    var l := new char[ASCIILINESZ + 1](_ => '\0');
    var i := 0;
    while i < |s| && i < ASCIILINESZ
      invariant i <= |s| && i <= ASCIILINESZ
      invariant forall k :: 0 <= k < i ==> l[k] == ToLower(s[k])
    {
      l[i] := ToLower(s[i]);
      i := i + 1;
    }
    r := l[..i];
  }

  method StrSkp(s: string) returns (r: string)
    ensures r == Skip(s)
  {
    var skip := 0;
    while skip < |s| && IsSpace(s[skip])
      invariant skip <= Blanks(s)
    {
      skip := skip + 1;
    }
    r := s[skip..];
  }

  method StrCrop(s: string) returns (r: string)
    ensures r == Crop(s)
  {
    var last := |s|;
    while last > 0
      invariant CropLength(s) <= last <= |s|
    {
      if !IsSpace(s[last - 1]) {
        break;
      }
      last := last - 1;
    }
    r := s[..last];
  }

  lemma UntilIs(s: string, stop: set<char>, n: nat)
    requires n <= |s|
    requires forall i :: 0 <= i < n ==> s[i] !in stop
    requires n < |s| ==> s[n] in stop
    ensures Until(s, stop) == n
  {
  }

  lemma BlanksIs(s: string, n: nat)
    requires n <= |s|
    requires forall i :: 0 <= i < n ==> IsSpace(s[i])
    requires n < |s| ==> !IsSpace(s[n])
    ensures Blanks(s) == n
  {
  }

  lemma CropIs(s: string, n: nat)
    requires n <= |s|
    requires forall i :: n <= i < |s| ==> IsSpace(s[i])
    requires n > 0 ==> !IsSpace(s[n - 1])
    ensures CropLength(s) == n
  {
  }

  lemma LowerTwice(s: string)
    ensures Lower(Lower(s)) == Lower(s)
  {
  }

  const UPPER: string := "ABCDEFGHIJKLMNOPQRSTUVWXYZ"
  const LOWER: string := "abcdefghijklmnopqrstuvwxyz"

  /** Every upper-case letter becomes its lower-case one, and nothing else changes. */
  lemma LowerLetters(c: char)
    ensures forall i :: 0 <= i < 26 ==> ToLower(UPPER[i]) == LOWER[i]
    ensures c !in UPPER ==> ToLower(c) == c
  {
    forall i | 0 <= i < 26
      ensures UPPER[i] as int == 65 + i && LOWER[i] as int == 97 + i
    {
    }
    if 'A' <= c <= 'Z' {
      assert UPPER[c as int - 65] == c;
    }
  }

  /** Names that differ only in the case of letters are one key, and no upper-case letter is left in it. */
  lemma CaseIsIgnored(s: string, t: string)
    requires |s| == |t|
    requires forall i :: 0 <= i < |s| ==> s[i] == t[i] || exists k :: 0 <= k < 26 && s[i] == UPPER[k] && t[i] == LOWER[k]
    ensures Lower(s) == Lower(t) && forall c :: c in Lower(s) ==> c !in UPPER
  {
    forall i | 0 <= i < |Lower(s)|
      ensures Lower(s)[i] == Lower(t)[i] && Lower(s)[i] !in UPPER
    {
      SmallLetter(s[i]);
      if s[i] != t[i] {
        var k :| 0 <= k < 26 && s[i] == UPPER[k] && t[i] == LOWER[k];
        LowerLetters(s[i]);
        SmallLetter(s[i]);
        LowerLetters(t[i]);
      }
    }
  }

  lemma SmallLetter(c: char)
    ensures ToLower(c) !in UPPER
  {
    forall i | 0 <= i < 26
      ensures 65 <= UPPER[i] as int <= 90
    {
    }
  }
}
