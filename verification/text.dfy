/**
 * The handful of PHP string functions the client is built from, written out
 * with the semantics of PHP 7: strtolower (ASCII), strpos, substr, explode,
 * implode, trim/rtrim, str_replace of one character, is_numeric and
 * empty().
 */
module Text {
  import opened Wrappers

  /** Characters trim() and rtrim() strip when no list is given. */
  predicate IsTrimmable(c: char)
  {
    c == ' ' || c == '\t' || c == '\n' || c == '\r' || c == '\U{0}' || c == '\U{B}'
  }

  /** Whitespace as PCRE's `\s` sees it. */
  predicate IsSpace(c: char)
  {
    c == ' ' || c == '\t' || c == '\n' || c == '\U{B}' || c == '\U{C}' || c == '\r'
  }

  predicate IsDigit(c: char)
  {
    '0' <= c <= '9'
  }

  function LowerChar(c: char): char
  {
    if 'A' <= c <= 'Z' then (c as int + 32) as char else c
  }

  /** strtolower in the "C" locale: only ASCII upper-case letters change. */
  function Lower(s: string): (r: string)
    ensures |r| == |s|
    ensures forall i :: 0 <= i < |s| ==> r[i] == LowerChar(s[i])
  {
    if s == [] then [] else [LowerChar(s[0])] + Lower(s[1..])
  }

  lemma LowerIdempotent(s: string)
    ensures Lower(Lower(s)) == Lower(s)
  {
    assert forall i :: 0 <= i < |s| ==> LowerChar(LowerChar(s[i])) == LowerChar(s[i]);
  }

  /** PHP's empty() on a string that may be null: null, "" and "0" are empty. */
  predicate IsEmpty(s: Option<string>)
  {
    s == None || s == Some("") || s == Some("0")
  }

  /** A non-empty run of decimal digits. */
  predicate IsDigits(s: string)
  {
    |s| > 0 && forall i :: 0 <= i < |s| ==> IsDigit(s[i])
  }

  /**
   * The states of a scan of PHP 7's numeric-string grammar: leading
   * whitespace, an optional sign, digits with at most one '.', and an
   * optional exponent e or E with an optional sign and digits.
   */
  datatype NumScan = Lead | Sign | Int | Dot | Frac | Exp | ExpSign | ExpDigits | Reject

  function NumStep(st: NumScan, c: char): NumScan
  {
    match st
    case Lead => if IsSpace(c) then Lead else if c == '+' || c == '-' then Sign
      else if IsDigit(c) then Int else if c == '.' then Dot else Reject
    case Sign => if IsDigit(c) then Int else if c == '.' then Dot else Reject
    case Int => if IsDigit(c) then Int else if c == '.' then Frac else if c == 'e' || c == 'E' then Exp else Reject
    case Dot => if IsDigit(c) then Frac else Reject
    case Frac => if IsDigit(c) then Frac else if c == 'e' || c == 'E' then Exp else Reject
    case Exp => if c == '+' || c == '-' then ExpSign else if IsDigit(c) then ExpDigits else Reject
    case ExpSign => if IsDigit(c) then ExpDigits else Reject
    case ExpDigits => if IsDigit(c) then ExpDigits else Reject
    case Reject => Reject
  }

  function NumRun(st: NumScan, s: string): NumScan
    decreases |s|
  {
    if s == [] then st else NumRun(NumStep(st, s[0]), s[1..])
  }

  /**
   * is_numeric on a string, as PHP 7 decides it: optional leading
   * whitespace, an optional sign, then an integer or decimal number with an
   * optional exponent; nothing may follow.
   */
  predicate IsNumericString(s: string)
  {
    NumRun(Lead, s) in {Int, Frac, ExpDigits}
  }

  /** Digits keep a scan that has seen an integer part in that state. */
  lemma {:induction false} DigitsStayInt(s: string)
    requires forall i :: 0 <= i < |s| ==> IsDigit(s[i])
    ensures NumRun(Int, s) == Int
    decreases |s|
  {
    if s != [] {
      DigitsStayInt(s[1..]);
    }
  }

  /** A run of digits is a numeric string. */
  lemma DigitsAreNumeric(s: string)
    requires IsDigits(s)
    ensures IsNumericString(s)
  {
    DigitsStayInt(s[1..]);
  }

  /** A sign, leading blanks, a fraction and an exponent are all allowed in a numeric string. */
  lemma NumericStringShapes()
    ensures IsNumericString("-8") && IsNumericString("+8") && IsNumericString(" 8") && IsNumericString("1.5")
    ensures IsNumericString(".5") && IsNumericString("5.") && IsNumericString("1e3") && IsNumericString("2E-1")
  {
  }

  /** Trailing blanks, letters, a lone '.', a bare exponent and a doubled sign make a string non-numeric. */
  lemma NonNumericShapes()
    ensures !IsNumericString("8 ") && !IsNumericString("+iw") && !IsNumericString(".") && !IsNumericString("e3")
    ensures !IsNumericString("") && !IsNumericString("1e") && !IsNumericString("--8")
  {
  }

  /** Lower-casing changes no step of the scan: the only letters it accepts are e and E, taken alike. */
  lemma {:induction false} LowerKeepsNumRun(st: NumScan, s: string)
    ensures NumRun(st, Lower(s)) == NumRun(st, s)
    decreases |s|
  {
    if s != [] {
      assert Lower(s)[1..] == Lower(s[1..]);
      LowerKeepsNumRun(NumStep(st, s[0]), s[1..]);
    }
  }

  lemma LowerKeepsNumeric(s: string)
    ensures IsNumericString(Lower(s)) == IsNumericString(s)
  {
    LowerKeepsNumRun(Lead, s);
  }

  function DigitChar(d: nat): char
    requires d < 10
  {
    ('0' as int + d) as char
  }

  /** The decimal rendering of a natural number, as PHP's string conversion writes it. */
  function NatToString(n: nat): (r: string)
    ensures |r| >= 1
    ensures IsDigits(r)
    ensures n >= 10 ==> r[0] != '0'
    decreases n
  {
    if n < 10 then [DigitChar(n)] else NatToString(n / 10) + [DigitChar(n % 10)]
  }

  // ---------------------------------------------------------------- strpos

  predicate OccursAt(s: string, pat: string, i: int)
  {
    0 <= i && i + |pat| <= |s| && s[i..i + |pat|] == pat
  }

  function IndexFrom(s: string, pat: string, i: nat): (r: Option<nat>)
    requires |pat| > 0 && i <= |s|
    ensures r.Some? ==> i <= r.value && OccursAt(s, pat, r.value)
    ensures r.Some? ==> forall j :: i <= j < r.value ==> !OccursAt(s, pat, j)
    ensures r.None? ==> forall j :: i <= j ==> !OccursAt(s, pat, j)
    decreases |s| - i
  {
    if i + |pat| > |s| then None
    else if s[i..i + |pat|] == pat then Some(i)
    else IndexFrom(s, pat, i + 1)
  }

  /** strpos: the first position where `pat` occurs in `s`, or None (PHP's false). */
  function IndexOf(s: string, pat: string): (r: Option<nat>)
    requires |pat| > 0
    ensures r.Some? ==> OccursAt(s, pat, r.value) && forall j :: 0 <= j < r.value ==> !OccursAt(s, pat, j)
    ensures r.None? ==> forall j :: !OccursAt(s, pat, j)
  {
    IndexFrom(s, pat, 0)
  }

  /** The first occurrence is found wherever it is. */
  lemma IndexOfFirst(s: string, pat: string, k: nat)
    requires |pat| > 0 && OccursAt(s, pat, k)
    requires forall j :: 0 <= j < k ==> !OccursAt(s, pat, j)
    ensures IndexOf(s, pat) == Some(k)
  {
  }

  // ---------------------------------------------------------------- substr

  /** substr($s, $start, $len) for a non-negative start; PHP 7's false results are the empty string. */
  function Substr(s: string, start: nat, len: int): (r: string)
    ensures |r| <= |s|
    ensures start <= |s| ==> start + |r| <= |s| && r == s[start..start + |r|]
  {
    if start > |s| then ""
    else if len >= 0 then s[start..if start + len <= |s| then start + len else |s|]
    else if |s| + len < start then ""
    else s[start..|s| + len]
  }

  /** substr($s, $start) for a non-negative start. */
  function SubstrFrom(s: string, start: nat): (r: string)
    ensures start <= |s| ==> r == s[start..]
    ensures start > |s| ==> r == ""
  {
    if start > |s| then "" else s[start..]
  }

  // ---------------------------------------------------------------- trim

  function TrimLeft(s: string): (r: string)
    ensures |r| <= |s| && r == s[|s| - |r|..]
    ensures r == [] || !IsTrimmable(r[0])
    ensures forall i :: 0 <= i < |s| - |r| ==> IsTrimmable(s[i])
  {
    if s != [] && IsTrimmable(s[0]) then TrimLeft(s[1..]) else s
  }

  /** rtrim with the default character list. */
  function RTrim(s: string): (r: string)
    ensures |r| <= |s| && r == s[..|r|]
    ensures r == [] || !IsTrimmable(r[|r| - 1])
    ensures forall i :: |r| <= i < |s| ==> IsTrimmable(s[i])
  {
    if s != [] && IsTrimmable(s[|s| - 1]) then RTrim(s[..|s| - 1]) else s
  }

  /** trim with the default character list. */
  function Trim(s: string): (r: string)
  {
    RTrim(TrimLeft(s))
  }

  /** A string that starts and ends with a character trim() keeps is its own trim. */
  lemma TrimOfTrimmed(s: string)
    requires s != [] && !IsTrimmable(s[0]) && !IsTrimmable(s[|s| - 1])
    ensures Trim(s) == s
  {
  }

  /** The result of trim() neither starts nor ends with a character trim() strips. */
  lemma TrimStrips(s: string)
    ensures Trim(s) == [] || (!IsTrimmable(Trim(s)[0]) && !IsTrimmable(Trim(s)[|Trim(s)| - 1]))
  {
    var l := TrimLeft(s);
    var r := RTrim(l);
    if r != [] {
      assert r[0] == l[0];
    }
  }

  // ---------------------------------------------------------------- str_replace

  /** str_replace($c, '', $s) for a single character. */
  function RemoveChar(s: string, c: char): (r: string)
    ensures c !in r
    ensures |r| <= |s|
    ensures forall x :: x in r <==> x in s && x != c
  {
    if s == [] then []
    else if s[0] == c then RemoveChar(s[1..], c)
    else [s[0]] + RemoveChar(s[1..], c)
  }

  // ---------------------------------------------------------------- explode / implode

  /** explode($sep, $s): the pieces between left-to-right, non-overlapping occurrences of `sep`. */
  function Explode(sep: string, s: string): (parts: seq<string>)
    requires |sep| > 0
    ensures |parts| >= 1
    decreases |s|
  {
    if |s| < |sep| then [s]
    else if s[..|sep|] == sep then [""] + Explode(sep, s[|sep|..])
    else
      var rest := Explode(sep, s[1..]);
      [[s[0]] + rest[0]] + rest[1..]
  }

  /** implode($sep, $parts). */
  function Implode(sep: string, parts: seq<string>): string
  {
    if |parts| == 0 then ""
    else if |parts| == 1 then parts[0]
    else parts[0] + sep + Implode(sep, parts[1..])
  }

  /** Gluing the pieces back together gives the original string. */
  lemma {:induction false} ImplodeExplode(sep: string, s: string)
    requires |sep| > 0
    ensures Implode(sep, Explode(sep, s)) == s
    decreases |s|
  {
    if |s| < |sep| {
    } else if s[..|sep|] == sep {
      var tail := Explode(sep, s[|sep|..]);
      ImplodeExplode(sep, s[|sep|..]);
      assert Explode(sep, s) == [""] + tail;
      assert ([""] + tail)[1..] == tail;
      assert Implode(sep, [""] + tail) == "" + sep + Implode(sep, tail);
      assert s == s[..|sep|] + s[|sep|..];
    } else {
      var rest := Explode(sep, s[1..]);
      ImplodeExplode(sep, s[1..]);
      var parts := [[s[0]] + rest[0]] + rest[1..];
      assert Explode(sep, s) == parts;
      if |rest| == 1 {
        assert Implode(sep, parts) == [s[0]] + rest[0];
        assert Implode(sep, rest) == rest[0];
      } else {
        assert parts[1..] == rest[1..];
        assert Implode(sep, parts) == ([s[0]] + rest[0]) + sep + Implode(sep, rest[1..]);
        assert Implode(sep, rest) == rest[0] + sep + Implode(sep, rest[1..]);
      }
      assert s == [s[0]] + s[1..];
    }
  }

  /** No occurrence of `sep` starts inside the first `n` characters of `s`. */
  predicate NoneBefore(s: string, sep: string, n: nat)
  {
    forall j :: 0 <= j < n ==> !OccursAt(s, sep, j)
  }

  /** A piece free of the separator, followed by the separator, comes out as one piece. */
  lemma {:induction false} ExplodeCons(sep: string, p: string, rest: string)
    requires |sep| > 0
    requires NoneBefore(p + sep + rest, sep, |p|)
    ensures Explode(sep, p + sep + rest) == [p] + Explode(sep, rest)
    decreases |p|
  {
    var s := p + sep + rest;
    if p == [] {
      assert s == sep + rest;
      assert s[..|sep|] == sep;
      assert s[|sep|..] == rest;
    } else {
      assert |s| >= |sep|;
      assert !OccursAt(s, sep, 0);
      assert s[..|sep|] != sep;
      var t := p[1..] + sep + rest;
      assert s[1..] == t;
      forall j | 0 <= j < |p[1..]|
        ensures !OccursAt(t, sep, j)
      {
        assert !OccursAt(s, sep, j + 1);
        if j + |sep| <= |t| {
          assert t[j..j + |sep|] == s[j + 1..j + 1 + |sep|];
        }
      }
      ExplodeCons(sep, p[1..], rest);
      assert Explode(sep, t) == [p[1..]] + Explode(sep, rest);
      assert [s[0]] + p[1..] == p;
    }
  }

  /** A piece free of the separator is exploded into itself. */
  lemma {:induction false} ExplodeSingle(sep: string, p: string)
    requires |sep| > 0
    requires NoneBefore(p, sep, |p|)
    ensures Explode(sep, p) == [p]
    decreases |p|
  {
    if |p| < |sep| {
    } else {
      assert !OccursAt(p, sep, 0);
      forall j | 0 <= j < |p[1..]|
        ensures !OccursAt(p[1..], sep, j)
      {
        assert !OccursAt(p, sep, j + 1);
        if j + |sep| <= |p[1..]| {
          assert p[1..][j..j + |sep|] == p[j + 1..j + 1 + |sep|];
        }
      }
      ExplodeSingle(sep, p[1..]);
      assert [p[0]] + p[1..] == p;
    }
  }

  /** For a one-character separator that no piece contains, explode undoes implode. */
  lemma {:induction false} ExplodeImplode(c: char, parts: seq<string>)
    requires |parts| >= 1
    requires forall i :: 0 <= i < |parts| ==> c !in parts[i]
    ensures Explode([c], Implode([c], parts)) == parts
    decreases |parts|
  {
    var p := parts[0];
    forall j | 0 <= j < |p|
      ensures !OccursAt(p, [c], j)
    {
      assert p[j..j + 1] == [p[j]];
    }
    if |parts| == 1 {
      ExplodeSingle([c], p);
    } else {
      var rest := Implode([c], parts[1..]);
      var s := p + [c] + rest;
      forall j | 0 <= j < |p|
        ensures !OccursAt(s, [c], j)
      {
        assert s[j..j + 1] == [p[j]];
      }
      ExplodeCons([c], p, rest);
      ExplodeImplode(c, parts[1..]);
      assert parts == [p] + parts[1..];
    }
  }
}
