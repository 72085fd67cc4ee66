/** The string operations the source relies on: Python's `str()` of an
    integer (used to build the keys of the pane-state file), `startswith`,
    `endswith`, the substring test `sub in s`, and `os.path.basename`. */
module Text {

  predicate IsDigit(c: char) {
    '0' <= c <= '9'
  }

  predicate AllDigits(s: string) {
    forall k :: 0 <= k < |s| ==> IsDigit(s[k])
  }

  function DigitChar(d: nat): (c: char)
    requires d < 10
    ensures IsDigit(c)
  {
    "0123456789"[d]
  }

  function DigitValue(c: char): (d: nat)
    requires IsDigit(c)
    ensures d < 10
  {
    (c as int) - ('0' as int)
  }

  lemma DigitValueOfChar(d: nat)
    requires d < 10
    ensures DigitValue(DigitChar(d)) == d
  {
    assert "0123456789"[d] as int == '0' as int + d;
  }

  /** Python's `str(n)` for a natural number: shortest decimal numeral. */
  function NatToString(n: nat): (s: string)
    ensures |s| >= 1 && AllDigits(s)
    ensures n >= 10 ==> |s| >= 2
    decreases n
  {
    if n < 10 then [DigitChar(n)] else NatToString(n / 10) + [DigitChar(n % 10)]
  }

  /** Reads a non-empty numeral back; the inverse of NatToString. */
  function ParseDigits(s: string): nat
    requires |s| >= 1 && AllDigits(s)
    decreases |s|
  {
    if |s| == 1 then DigitValue(s[0])
    else 10 * ParseDigits(s[..|s| - 1]) + DigitValue(s[|s| - 1])
  }

  lemma {:induction false} ParseNatToString(n: nat)
    ensures ParseDigits(NatToString(n)) == n
    decreases n
  {
    if n < 10 {
      DigitValueOfChar(n);
    } else {
      var s := NatToString(n);
      assert s[..|s| - 1] == NatToString(n / 10);
      assert s[|s| - 1] == DigitChar(n % 10);
      ParseNatToString(n / 10);
      DigitValueOfChar(n % 10);
    }
  }

  /** Distinct numbers have distinct numerals. */
  lemma NatToStringInjective(a: nat, b: nat)
    ensures NatToString(a) == NatToString(b) ==> a == b
  {
    ParseNatToString(a);
    ParseNatToString(b);
  }

  /** Python's `str(i)` for any integer: a minus sign before the numeral of
      the magnitude when negative. */
  function IntToString(i: int): (s: string)
    ensures |s| >= 1
    ensures s[0] == '-' || IsDigit(s[0])
  {
    if i < 0 then "-" + NatToString(-i) else NatToString(i)
  }

  /** The numeral of a negative number is the minus sign before the
      numeral of its magnitude. */
  lemma NegativeNumeral(i: int)
    requires i < 0
    ensures IntToString(i)[0] == '-' && IntToString(i)[1..] == NatToString(-i)
  {
    assert ("-" + NatToString(-i))[1..] == NatToString(-i);
  }

  lemma IntToStringInjective(a: int, b: int)
    ensures IntToString(a) == IntToString(b) ==> a == b
  {
    if IntToString(a) == IntToString(b) {
      if a < 0 && b < 0 {
        NegativeNumeral(a);
        NegativeNumeral(b);
        NatToStringInjective(-a, -b);
      } else if a >= 0 && b >= 0 {
        NatToStringInjective(a, b);
      } else if a < 0 {
        NegativeNumeral(a);
      } else {
        NegativeNumeral(b);
      }
    }
  }

  /** `s.startswith(p)` */
  predicate StartsWith(s: string, p: string) {
    |p| <= |s| && s[..|p|] == p
  }

  /** `s.endswith(p)` */
  predicate EndsWith(s: string, p: string) {
    |p| <= |s| && s[|s| - |p|..] == p
  }

  /** Python's `sub in s` on strings. */
  predicate Contains(s: string, sub: string)
    decreases |s|
  {
    StartsWith(s, sub) || (|s| > 0 && Contains(s[1..], sub))
  }

  /** `sub` occurs in `s` at offset `k`. */
  predicate OccursAt(s: string, sub: string, k: int) {
    0 <= k && k + |sub| <= |s| && s[k..k + |sub|] == sub
  }

  lemma OccursAtTail(s: string, sub: string, k: int)
    requires |s| > 0 && 0 <= k
    ensures OccursAt(s[1..], sub, k) <==> OccursAt(s, sub, k + 1)
  {
    if 0 <= k && k + |sub| <= |s| - 1 {
      assert s[1..][k..k + |sub|] == s[k + 1..k + 1 + |sub|];
    }
  }

  /** `sub in s` holds exactly when `sub` occurs at some offset of `s`. */
  lemma {:induction false} ContainsAt(s: string, sub: string)
    ensures Contains(s, sub) <==> exists k :: OccursAt(s, sub, k)
    decreases |s|
  {
    if StartsWith(s, sub) {
      assert OccursAt(s, sub, 0);
    } else if |s| > 0 {
      ContainsAt(s[1..], sub);
      if Contains(s[1..], sub) {
        var k :| OccursAt(s[1..], sub, k);
        OccursAtTail(s, sub, k);
      }
      if exists k :: OccursAt(s, sub, k) {
        var k :| OccursAt(s, sub, k);
        assert k != 0;
        OccursAtTail(s, sub, k - 1);
      }
    } else {
      assert |sub| > 0;
    }
  }

  /** Whenever `s` contains `sub`, it contains every prefix of `sub`. */
  lemma {:induction false} ContainsPrefix(s: string, sub: string, pre: string)
    requires StartsWith(sub, pre)
    requires Contains(s, sub)
    ensures Contains(s, pre)
    decreases |s|
  {
    if StartsWith(s, sub) {
      assert s[..|pre|] == sub[..|pre|];
    } else {
      ContainsPrefix(s[1..], sub, pre);
    }
  }

  /** The path separators `os.path` recognises: `ntpath` accepts both
      slashes on Windows, `posixpath` only the forward slash. */
  function Separators(os: string): set<char> {
    if os == "Windows" then {'/', '\\'} else {'/'}
  }

  /** `os.path.basename(p)`: everything after the last separator. */
  function Basename(p: string, seps: set<char>): (b: string)
    ensures EndsWith(p, b)
    ensures forall k :: 0 <= k < |b| ==> b[k] !in seps
    ensures |b| == |p| || p[|p| - |b| - 1] in seps
    decreases |p|
  {
    if |p| == 0 then ""
    else if p[|p| - 1] in seps then ""
    else
      var q := p[..|p| - 1];
      var r := Basename(q, seps);
      assert p[|p| - |r| - 1..] == q[|q| - |r|..] + [p[|p| - 1]];
      r + [p[|p| - 1]]
  }

  /** A path made of a directory part ending in a separator and a file name
      without separators has that file name as its basename. */
  lemma {:induction false} BasenameOfJoin(dir: string, name: string, seps: set<char>)
    requires |dir| > 0 && dir[|dir| - 1] in seps
    requires forall k :: 0 <= k < |name| ==> name[k] !in seps
    ensures Basename(dir + name, seps) == name
    decreases |name|
  {
    if |name| == 0 {
      assert dir + name == dir;
    } else {
      var init := name[..|name| - 1];
      assert (dir + name)[..|dir + name| - 1] == dir + init;
      BasenameOfJoin(dir, init, seps);
      assert init + [name[|name| - 1]] == name;
    }
  }
}
