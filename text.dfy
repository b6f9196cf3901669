/** String helpers with the meaning they have in Python and JavaScript:
    whitespace stripping, prefix and substring tests, splitting on a
    separator and decimal rendering of counters. Strings are `seq<char>`. */
module Text {

  /** Python's `str.isspace()` for one character, by code point. */
  predicate PySpace(c: char) {
    var n := c as int;
    n == 0x20 || 0x09 <= n <= 0x0D || 0x1C <= n <= 0x1F || n == 0x85 || n == 0xA0
    || n == 0x1680 || 0x2000 <= n <= 0x200A || n == 0x2028 || n == 0x2029
    || n == 0x202F || n == 0x205F || n == 0x3000
  }

  /** The characters JavaScript's `String.prototype.trim` removes, by code point. */
  predicate JsSpace(c: char) {
    var n := c as int;
    n == 0x20 || 0x09 <= n <= 0x0D || n == 0xA0 || n == 0xFEFF
    || n == 0x1680 || 0x2000 <= n <= 0x200A || n == 0x2028 || n == 0x2029
    || n == 0x202F || n == 0x205F || n == 0x3000
  }

  function TrimStart(s: string, ws: char -> bool): (r: string)
    ensures |r| <= |s| && r == s[|s| - |r|..]
    ensures r == [] || !ws(r[0])
    ensures forall i :: 0 <= i < |s| - |r| ==> ws(s[i])
    decreases |s|
  {
    if s != [] && ws(s[0]) then TrimStart(s[1..], ws) else s
  }

  function TrimEnd(s: string, ws: char -> bool): (r: string)
    ensures |r| <= |s| && r == s[..|r|]
    ensures r == [] || !ws(r[|r| - 1])
    ensures forall i :: |r| <= i < |s| ==> ws(s[i])
    decreases |s|
  {
    if s != [] && ws(s[|s| - 1]) then TrimEnd(s[..|s| - 1], ws) else s
  }

  /** Removes leading and trailing characters satisfying `ws`. */
  function Trim(s: string, ws: char -> bool): (r: string)
  {
    TrimEnd(TrimStart(s, ws), ws)
  }

  /** Python `s.strip()`. */
  function Strip(s: string): string { Trim(s, PySpace) }

  /** JavaScript `s.trim()`. */
  function JsTrim(s: string): string { Trim(s, JsSpace) }

  predicate IsTrimmed(s: string, ws: char -> bool) {
    s == [] || (!ws(s[0]) && !ws(s[|s| - 1]))
  }

  /** The trimmed string carries no surrounding whitespace and is a
      contiguous part of the input. */
  lemma TrimFacts(s: string, ws: char -> bool)
    ensures IsTrimmed(Trim(s, ws), ws)
    ensures Contains(s, Trim(s, ws))
  {
    var a := TrimStart(s, ws);
    var r := TrimEnd(a, ws);
    var k := |s| - |a|;
    assert a == s[k..];
    assert r == a[..|r|];
    assert r == s[k..k + |r|];
    ContainsAt(s, r, k);
    if r != [] {
      assert r[0] == a[0];
      assert !ws(r[|r| - 1]);
    }
  }

  /** Trimming yields the empty string exactly when every character is whitespace. */
  lemma TrimEmptyIff(s: string, ws: char -> bool)
    ensures Trim(s, ws) == [] <==> forall i :: 0 <= i < |s| ==> ws(s[i])
  {
    var a := TrimStart(s, ws);
    var k := |s| - |a|;
    if Trim(s, ws) == [] {
      forall i | 0 <= i < |s| ensures ws(s[i]) {
        if i >= k {
          assert s[i] == a[i - k];
        }
      }
    }
  }

  lemma {:induction false} TrimStartNoop(s: string, ws: char -> bool)
    requires s == [] || !ws(s[0])
    ensures TrimStart(s, ws) == s
  {
  }

  lemma {:induction false} TrimEndNoop(s: string, ws: char -> bool)
    requires s == [] || !ws(s[|s| - 1])
    ensures TrimEnd(s, ws) == s
  {
  }

  /** Stripping a string that is already stripped changes nothing. */
  lemma TrimOfTrimmed(s: string, ws: char -> bool)
    requires IsTrimmed(s, ws)
    ensures Trim(s, ws) == s
  {
    TrimStartNoop(s, ws);
    TrimEndNoop(s, ws);
  }

  lemma TrimIdempotent(s: string, ws: char -> bool)
    ensures Trim(Trim(s, ws), ws) == Trim(s, ws)
  {
    TrimFacts(s, ws);
    TrimOfTrimmed(Trim(s, ws), ws);
  }

  /** Python `s.startswith(t)`, JavaScript `s.startsWith(t)`. */
  predicate StartsWith(s: string, t: string) {
    |t| <= |s| && s[..|t|] == t
  }

  /** Python `t in s`, JavaScript `s.includes(t)`. */
  predicate Contains(s: string, t: string)
    decreases |s|
  {
    StartsWith(s, t) || (s != [] && Contains(s[1..], t))
  }

  lemma {:induction false} ContainsAt(s: string, t: string, i: nat)
    requires i + |t| <= |s| && s[i..i + |t|] == t
    ensures Contains(s, t)
    decreases i
  {
    if i > 0 {
      assert s[1..][i - 1..i - 1 + |t|] == s[i..i + |t|];
      ContainsAt(s[1..], t, i - 1);
    }
  }

  /** When `t` occurs in `s`, it occurs at some position. */
  lemma {:induction false} ContainsWitness(s: string, t: string) returns (i: nat)
    requires Contains(s, t)
    ensures i + |t| <= |s| && s[i..i + |t|] == t
    decreases |s|
  {
    if StartsWith(s, t) {
      i := 0;
    } else {
      var j := ContainsWitness(s[1..], t);
      assert s[1..][j..j + |t|] == s[j + 1..j + 1 + |t|];
      i := j + 1;
    }
  }

  /** Python `s.split(sep)` and JavaScript `s.split(sep)` for a non-empty
      separator: the pieces between the non-overlapping occurrences of
      `sep`, found left to right. */
  function Split(s: string, sep: string): (r: seq<string>)
    requires sep != []
    ensures |r| >= 1
    decreases |s|
  {
    if |s| < |sep| then [s]
    else if s[..|sep|] == sep then [""] + Split(s[|sep|..], sep)
    else
      var rest := Split(s[1..], sep);
      [[s[0]] + rest[0]] + rest[1..]
  }

  /** Python `sep.join(pieces)`, JavaScript `pieces.join(sep)`. */
  function Join(pieces: seq<string>, sep: string): string
    decreases |pieces|
  {
    if pieces == [] then ""
    else if |pieces| == 1 then pieces[0]
    else pieces[0] + sep + Join(pieces[1..], sep)
  }

  lemma {:induction false} JoinConsHead(c: char, pieces: seq<string>, sep: string)
    requires pieces != []
    ensures Join([[c] + pieces[0]] + pieces[1..], sep) == [c] + Join(pieces, sep)
  {
    var q := [[c] + pieces[0]] + pieces[1..];
    assert q[1..] == pieces[1..];
  }

  lemma JoinEmptyHead(pieces: seq<string>, sep: string)
    requires pieces != []
    ensures Join([""] + pieces, sep) == sep + Join(pieces, sep)
  {
    assert ([""] + pieces)[1..] == pieces;
  }

  /** Splitting and joining back with the same separator gives the input. */
  lemma {:induction false} JoinSplit(s: string, sep: string)
    requires sep != []
    ensures Join(Split(s, sep), sep) == s
    decreases |s|
  {
    if |s| < |sep| {
    } else if s[..|sep|] == sep {
      var rest := Split(s[|sep|..], sep);
      JoinSplit(s[|sep|..], sep);
      JoinEmptyHead(rest, sep);
      assert s == sep + s[|sep|..];
    } else {
      var rest := Split(s[1..], sep);
      JoinSplit(s[1..], sep);
      JoinConsHead(s[0], rest, sep);
      assert s == [s[0]] + s[1..];
    }
  }

  /** The part of `s` before the first occurrence of the character `c`
      (Python `s.split(c)[0]`, JavaScript `s.split(c)[0]`). */
  function Before(s: string, c: char): string {
    Split(s, [c])[0]
  }

  lemma {:induction false} BeforeFacts(s: string, c: char)
    ensures StartsWith(s, Before(s, c))
    ensures c !in Before(s, c)
    ensures c !in s ==> Before(s, c) == s
    decreases |s|
  {
    if |s| >= 1 && s[..1] == [c] {
      assert s[0] == c;
    } else if |s| >= 1 {
      BeforeFacts(s[1..], c);
      assert s[0] != c;
      assert c !in s ==> c !in s[1..];
      assert [s[0]] + Before(s[1..], c) == Before(s, c);
      assert s == [s[0]] + s[1..];
    }
  }

  /** The decimal digit character for `d`. */
  function DigitChar(d: nat): char
    requires d < 10
  {
    (('0' as int) + d) as char
  }

  /** Python `str(n)` for a natural number. */
  function NatToString(n: nat): (r: string)
    ensures |r| >= 1
    decreases n
  {
    if n < 10 then [DigitChar(n)] else NatToString(n / 10) + [DigitChar(n % 10)]
  }

  /** Reads back a string of decimal digits. */
  function DigitsValue(s: string): int
    decreases |s|
  {
    if s == [] then 0
    else DigitsValue(s[..|s| - 1]) * 10 + ((s[|s| - 1] as int) - ('0' as int))
  }

  lemma {:induction false} DigitsValueOfNat(n: nat)
    ensures DigitsValue(NatToString(n)) == n
    decreases n
  {
    if n >= 10 {
      var r := NatToString(n);
      assert r[..|r| - 1] == NatToString(n / 10);
      DigitsValueOfNat(n / 10);
    }
  }

  /** Different counters render as different strings. */
  lemma NatToStringInjective(m: nat, n: nat)
    requires NatToString(m) == NatToString(n)
    ensures m == n
  {
    DigitsValueOfNat(m);
    DigitsValueOfNat(n);
  }
}
