/** String operations shared by the model: the JavaScript and Python string
    built-ins the source uses (`startsWith`, `includes`, `replace`, `split`,
    `toLowerCase`, `toUpperCase`, `substring`, `slice`) and the decimal
    rendering of integers used by template literals and `str()`. */
module Text {

  /** `s.startsWith(p)` / `s.startswith(p)`. */
  predicate StartsWith(s: string, p: string) {
    |p| <= |s| && s[..|p|] == p
  }

  /** `p` occurs in `s` at index `i`. */
  ghost predicate OccursAt(s: string, p: string, i: int) {
    0 <= i && i + |p| <= |s| && s[i..i + |p|] == p
  }

  /** `s.includes(p)` (JavaScript) and `p in s` (Python): a left-to-right scan. */
  predicate Contains(s: string, p: string)
    decreases |s|
  {
    StartsWith(s, p) || (|s| > 0 && Contains(s[1..], p))
  }

  /** The scan agrees with the positional definition of containment. */
  lemma {:induction false} ContainsIff(s: string, p: string)
    ensures Contains(s, p) <==> exists i :: OccursAt(s, p, i)
    decreases |s|
  {
    if StartsWith(s, p) {
      assert OccursAt(s, p, 0);
    } else if |s| > 0 {
      ContainsIff(s[1..], p);
      if exists i :: OccursAt(s, p, i) {
        var i :| OccursAt(s, p, i);
        if i > 0 {
          assert s[1..][i - 1..i - 1 + |p|] == s[i..i + |p|];
          assert OccursAt(s[1..], p, i - 1);
        }
      }
      if exists j :: OccursAt(s[1..], p, j) {
        var j :| OccursAt(s[1..], p, j);
        assert s[1..][j..j + |p|] == s[j + 1..j + 1 + |p|];
        assert OccursAt(s, p, j + 1);
      }
    }
  }

  /** Python `s.replace(p, r, 1)`: the leftmost occurrence of `p` is replaced. */
  function ReplaceFirst(s: string, p: string, r: string): (t: string)
    requires p != []
    ensures StartsWith(s, p) ==> t == r + s[|p|..]
    ensures !Contains(s, p) ==> t == s
    decreases |s|
  {
    if StartsWith(s, p) then r + s[|p|..]
    else if s == [] then []
    else [s[0]] + ReplaceFirst(s[1..], p, r)
  }

  /** Python `s.replace(p, r)`: every non-overlapping occurrence of `p`,
      scanning left to right, is replaced. */
  function ReplaceAll(s: string, p: string, r: string): string
    requires p != []
    decreases |s|
  {
    if s == [] then []
    else if StartsWith(s, p) then r + ReplaceAll(s[|p|..], p, r)
    else [s[0]] + ReplaceAll(s[1..], p, r)
  }

  /** Replacing an absent pattern changes nothing. */
  lemma {:induction false} ReplaceAllAbsent(s: string, p: string, r: string)
    requires p != [] && !Contains(s, p)
    ensures ReplaceAll(s, p, r) == s
    decreases |s|
  {
    if s != [] {
      ReplaceAllAbsent(s[1..], p, r);
    }
  }

  /** A leading occurrence is replaced and the scan resumes right after it. */
  lemma ReplaceAllLeading(p: string, rest: string, r: string)
    requires p != []
    ensures ReplaceAll(p + rest, p, r) == r + ReplaceAll(rest, p, r)
  {
    assert StartsWith(p + rest, p);
    assert (p + rest)[|p|..] == rest;
  }

  /** The text before the first `c`: Python `s.split(c)[0]`, JavaScript
      `s.split(c)[0]` for a one-character separator. */
  function BeforeFirst(s: string, c: char): (t: string)
    ensures |t| <= |s| && t == s[..|t|]
    ensures c !in t
    ensures |t| < |s| ==> s[|t|] == c
    decreases |s|
  {
    if s == [] || s[0] == c then [] else [s[0]] + BeforeFirst(s[1..], c)
  }

  /** The text before the first separator is the part written before it. */
  lemma {:induction false} BeforeFirstSplit(first: string, rest: string, c: char)
    requires c !in first && (rest == [] || rest[0] == c)
    ensures BeforeFirst(first + rest, c) == first
    decreases |first|
  {
    if first == [] {
    } else {
      assert (first + rest)[0] == first[0];
      assert (first + rest)[1..] == first[1..] + rest;
      BeforeFirstSplit(first[1..], rest, c);
    }
  }

  /** `s.substring(0, n)` / `s.slice(0, n)` for `n >= 0`. */
  function Prefix<T>(s: seq<T>, n: nat): (t: seq<T>)
    ensures |t| == if |s| < n then |s| else n
    ensures t == s[..|t|]
  {
    if |s| <= n then s else s[..n]
  }

  /** `s.slice(-n)` for `n > 0`: the last `n` elements, or all of them. */
  function LastN<T>(s: seq<T>, n: nat): (t: seq<T>)
    ensures |t| == if |s| < n then |s| else n
    ensures t == s[|s| - |t|..]
  {
    if |s| <= n then s else s[|s| - n..]
  }

  function LowerChar(c: char): char {
    if 'A' <= c <= 'Z' then (c as int + 32) as char else c
  }

  function UpperChar(c: char): char {
    if 'a' <= c <= 'z' then (c as int - 32) as char else c
  }

  /** `s.toLowerCase()` restricted to ASCII letters. */
  function ToLower(s: string): (t: string)
    ensures |t| == |s|
    ensures forall i :: 0 <= i < |s| ==> t[i] == LowerChar(s[i])
  {
    seq(|s|, i requires 0 <= i < |s| => LowerChar(s[i]))
  }

  /** Decimal digits of a natural number, most significant first. */
  function NatDigits(n: nat): (d: string)
    ensures d != []
    ensures forall i :: 0 <= i < |d| ==> '0' <= d[i] <= '9'
    decreases n
  {
    if n < 10 then [('0' as int + n) as char]
    else NatDigits(n / 10) + [('0' as int + n % 10) as char]
  }

  /** The decimal text of an integer, as JavaScript's `String(n)` and
      Python's `str(n)` write it for integers. */
  function Decimal(n: int): string {
    if n < 0 then "-" + NatDigits(-n) else NatDigits(n)
  }

  /** The value of a string of decimal digits (the inverse of NatDigits). */
  function ParseDigits(s: string): int
    decreases |s|
  {
    if s == [] then 0 else ParseDigits(s[..|s| - 1]) * 10 + (s[|s| - 1] as int - '0' as int)
  }

  /** Rendering a natural number in decimal loses nothing. */
  lemma {:induction false} ParseNatDigits(n: nat)
    ensures ParseDigits(NatDigits(n)) == n
    decreases n
  {
    if n >= 10 {
      var d := NatDigits(n);
      ParseNatDigits(n / 10);
      assert d[..|d| - 1] == NatDigits(n / 10);
    }
  }

  /** The text starts with a minus sign exactly for negative integers. */
  lemma DecimalSign(n: int)
    ensures Decimal(n) != [] && (Decimal(n)[0] == '-' <==> n < 0)
  {
    if n >= 0 {
      assert '0' <= NatDigits(n)[0] <= '9';
    }
  }

  /** Decimal rendering is injective: distinct integers print differently. */
  lemma DecimalInjective(m: int, n: int)
    requires Decimal(m) == Decimal(n)
    ensures m == n
  {
    DecimalSign(m);
    DecimalSign(n);
    var dm, dn := Decimal(m), Decimal(n);
    if m < 0 && n < 0 {
      assert NatDigits(-m) == dm[1..] == dn[1..] == NatDigits(-n);
      ParseNatDigits(-m);
      ParseNatDigits(-n);
    } else if m >= 0 && n >= 0 {
      ParseNatDigits(m);
      ParseNatDigits(n);
    }
  }
}
