/**
  String helpers that stand for the PHP builtins the drivers use on plain text:
  `strtolower`, `ucfirst`, integer-to-string conversion, `basename`, and the
  searches needed to read a built string back apart.
  PHP strings are byte strings; here they are `seq<char>` and only ASCII letters
  change case, as in PHP 8's locale-independent `strtolower`/`ucfirst`.
 */
module Strings {

  import opened Wrappers

  predicate IsUpper(c: char) { 'A' <= c <= 'Z' }

  predicate IsLower(c: char) { 'a' <= c <= 'z' }

  function LowerChar(c: char): (r: char)
    ensures !IsUpper(r)
    ensures IsUpper(c) ==> r as int == c as int + 32
    ensures !IsUpper(c) ==> r == c
  {
    if IsUpper(c) then (c as int + 32) as char else c
  }

  function UpperChar(c: char): (r: char)
    ensures !IsLower(r)
    ensures IsLower(c) ==> r as int == c as int - 32
    ensures !IsLower(c) ==> r == c
  {
    if IsLower(c) then (c as int - 32) as char else c
  }

  /** `strtolower`: every ASCII upper-case letter is lowered, nothing else moves. */
  function Lower(s: string): (r: string)
    ensures |r| == |s|
    ensures forall i :: 0 <= i < |s| ==> r[i] == LowerChar(s[i])
  {
    if s == [] then [] else [LowerChar(s[0])] + Lower(s[1..])
  }

  /** `ucfirst`: only the first character is raised. */
  function Ucfirst(s: string): (r: string)
    ensures |r| == |s|
    ensures s != [] ==> r[0] == UpperChar(s[0]) && r[1..] == s[1..]
  {
    if s == [] then [] else [UpperChar(s[0])] + s[1..]
  }

  /** Two names that differ at most in the case of their first letter give the same `ucfirst`. */
  lemma UcfirstIgnoresFirstCase(a: string, b: string)
    requires |a| == |b| > 0 && a[1..] == b[1..]
    requires UpperChar(a[0]) == UpperChar(b[0])
    ensures Ucfirst(a) == Ucfirst(b)
  {
    assert Ucfirst(a) == [UpperChar(a[0])] + a[1..];
    assert Ucfirst(b) == [UpperChar(b[0])] + b[1..];
  }

  // ---------------------------------------------------------------------------
  // Decimal integers, as PHP writes an `int` into a string

  predicate IsDigit(c: char) { '0' <= c <= '9' }

  predicate AllDigits(s: string) { forall i :: 0 <= i < |s| ==> IsDigit(s[i]) }

  function DigitChar(d: nat): (c: char)
    requires d < 10
    ensures IsDigit(c)
  {
    ('0' as int + d) as char
  }

  function DigitValue(c: char): (d: nat)
    requires IsDigit(c)
    ensures d < 10
  {
    c as int - '0' as int
  }

  /** Decimal digits of `n`, most significant first, without leading zeros. */
  function NatToDec(n: nat): (r: string)
    ensures |r| > 0 && AllDigits(r)
    ensures r[0] == '0' ==> n == 0
  {
    if n < 10 then [DigitChar(n)] else NatToDec(n / 10) + [DigitChar(n % 10)]
  }

  /** PHP's string form of an `int`: a minus sign, then the digits of its magnitude. */
  function IntToDec(i: int): (r: string)
    ensures |r| > 0
    ensures forall k :: 0 <= k < |r| ==> IsDigit(r[k]) || (k == 0 && r[k] == '-')
  {
    if i < 0 then "-" + NatToDec(-i) else NatToDec(i)
  }

  function ParseNat(s: string): nat
    requires AllDigits(s)
  {
    if s == [] then 0 else ParseNat(s[..|s| - 1]) * 10 + DigitValue(s[|s| - 1])
  }

  /** Reads back a decimal integer as written by `IntToDec`. */
  function ParseInt(s: string): Option<int>
  {
    if |s| > 1 && s[0] == '-' && AllDigits(s[1..]) then Some(-(ParseNat(s[1..]) as int))
    else if |s| > 0 && AllDigits(s) then Some(ParseNat(s))
    else None
  }

  lemma {:induction false} ParseNatToDec(n: nat)
    ensures ParseNat(NatToDec(n)) == n
  {
    var s := NatToDec(n);
    if n >= 10 {
      ParseNatToDec(n / 10);
      assert s[..|s| - 1] == NatToDec(n / 10);
    }
  }

  /** Writing an integer in decimal loses nothing: it reads back to itself. */
  lemma IntToDecRoundTrip(i: int)
    ensures ParseInt(IntToDec(i)) == Some(i)
  {
    if i < 0 {
      var s := IntToDec(i);
      assert s[1..] == NatToDec(-i);
      ParseNatToDec(-i);
    } else {
      ParseNatToDec(i);
    }
  }

  // ---------------------------------------------------------------------------
  // Searching

  /** Position of the first `c` in `s`. */
  function IndexOf(s: string, c: char): (r: Option<nat>)
    ensures r.None? <==> c !in s
    ensures r.Some? ==> r.value < |s| && s[r.value] == c
    ensures r.Some? ==> forall j :: 0 <= j < r.value ==> s[j] != c
  {
    if s == [] then None
    else if s[0] == c then Some(0)
    else match IndexOf(s[1..], c)
      case None => None
      case Some(k) => Some(k + 1)
  }

  /** Position of the last `c` in `s`. */
  function LastIndexOf(s: string, c: char): (r: Option<nat>)
    ensures r.None? <==> c !in s
    ensures r.Some? ==> r.value < |s| && s[r.value] == c
    ensures r.Some? ==> forall j :: r.value < j < |s| ==> s[j] != c
  {
    if s == [] then None
    else if s[|s| - 1] == c then Some(|s| - 1)
    else
      var init := s[..|s| - 1];
      match LastIndexOf(init, c)
      case None => assert s == init + [s[|s| - 1]]; None
      case Some(k) => Some(k)
  }

  /** A separator that does not occur in the head is found just after it. */
  lemma IndexOfAfter(a: string, c: char, b: string)
    requires c !in a
    ensures IndexOf(a + [c] + b, c) == Some(|a|)
  {
    var s := a + [c] + b;
    assert s[|a|] == c;
    assert forall j :: 0 <= j < |a| ==> s[j] == a[j];
  }

  /** A separator that does not occur in the tail is found just before it. */
  lemma LastIndexOfBefore(a: string, c: char, b: string)
    requires c !in b
    ensures LastIndexOf(a + [c] + b, c) == Some(|a|)
  {
    var s := a + [c] + b;
    assert s[|a|] == c;
    var r := LastIndexOf(s, c);
    assert r.Some? && |a| <= r.value;
    assert forall j :: |a| < j < |s| ==> s[j] in b;
  }

  // ---------------------------------------------------------------------------
  // Newline-terminated lines

  /** Each line followed by a newline. */
  function Terminated(lines: seq<string>): string
  {
    if lines == [] then "" else lines[0] + "\n" + Terminated(lines[1..])
  }

  /** The newline-terminated lines of `s`; text after the last newline is dropped. */
  function SplitTerminated(s: string): seq<string>
    decreases |s|
  {
    match IndexOf(s, '\n')
    case None => []
    case Some(k) => [s[..k]] + SplitTerminated(s[k + 1..])
  }

  predicate NoNewlines(lines: seq<string>)
  {
    forall i :: 0 <= i < |lines| ==> '\n' !in lines[i]
  }

  /** Splitting a terminated text takes off its first line. */
  lemma SplitTerminatedCons(line: string, rest: string)
    requires '\n' !in line
    ensures SplitTerminated(line + "\n" + rest) == [line] + SplitTerminated(rest)
  {
    var s := line + ['\n'] + rest;
    IndexOfAfter(line, '\n', rest);
    assert s[..|line|] == line && s[|line| + 1..] == rest;
  }

  /** Lines free of newlines are recovered, in order, from their terminated text. */
  lemma {:induction false} TerminatedRoundTrip(lines: seq<string>)
    requires NoNewlines(lines)
    ensures SplitTerminated(Terminated(lines)) == lines
    decreases |lines|
  {
    if lines != [] {
      assert NoNewlines(lines[1..]) by {
        assert forall i :: 0 <= i < |lines| - 1 ==> lines[1..][i] == lines[i + 1];
      }
      SplitTerminatedCons(lines[0], Terminated(lines[1..]));
      TerminatedRoundTrip(lines[1..]);
      assert lines == [lines[0]] + lines[1..];
    }
  }

  // ---------------------------------------------------------------------------
  // basename

  /** `s` with its trailing slashes removed. */
  function TrimTrailingSlashes(s: string): (r: string)
    ensures |r| <= |s| && r == s[..|r|]
    ensures r == [] || r[|r| - 1] != '/'
    ensures forall i :: |r| <= i < |s| ==> s[i] == '/'
  {
    if s != [] && s[|s| - 1] == '/' then TrimTrailingSlashes(s[..|s| - 1]) else s
  }

  /** PHP `basename` on a `/`-separated path: the last component, trailing slashes ignored. */
  function Basename(path: string): (r: string)
    ensures '/' !in r
    ensures '/' !in path ==> r == path
    ensures var t := TrimTrailingSlashes(path);
            |r| <= |t| && r == t[|t| - |r|..] && (|r| == |t| || t[|t| - |r| - 1] == '/')
  {
    var t := TrimTrailingSlashes(path);
    match LastIndexOf(t, '/')
    case None => t
    case Some(k) => t[k + 1..]
  }
}
