/** Task identifiers T-000001 .. T-999999 and the branch derived from one. */
module Identifiers {

  const LAST_NUMBER: nat := 999_999
  const BRANCH_PREFIX := "codex/"

  predicate IsDigit(c: char) {
    '0' <= c <= '9'
  }

  predicate IsIdentifier(s: string) {
    |s| == 8 && s[0] == 'T' && s[1] == '-' && forall i :: 2 <= i < 8 ==> IsDigit(s[i])
  }

  function DigitOf(n: nat): char
    requires n < 10
  {
    ['0', '1', '2', '3', '4', '5', '6', '7', '8', '9'][n]
  }

  function ValueOf(c: char): nat {
    if IsDigit(c) then c as nat - '0' as nat else 0
  }

  /** The decimal digits of a number, zero-padded to a width. */
  function Padded(n: nat, width: nat): string {
    if width == 0 then "" else Padded(n / 10, width - 1) + [DigitOf(n % 10)]
  }

  /** The number a run of digits spells. */
  function Spelled(s: string): nat {
    if s == "" then 0 else 10 * Spelled(s[..|s| - 1]) + ValueOf(s[|s| - 1])
  }

  function Power10(width: nat): nat {
    if width == 0 then 1 else 10 * Power10(width - 1)
  }

  function Print(n: nat): string {
    "T-" + Padded(n, 6)
  }

  function Number(s: string): nat {
    if |s| < 2 then 0 else Spelled(s[2..])
  }

  lemma {:induction false} SpelledPadded(n: nat, width: nat)
    requires n < Power10(width)
    ensures |Padded(n, width)| == width
    ensures forall i :: 0 <= i < width ==> IsDigit(Padded(n, width)[i])
    ensures Spelled(Padded(n, width)) == n
  {
    if width > 0 {
      SpelledPadded(n / 10, width - 1);
      var s := Padded(n, width);
      assert s[..|s| - 1] == Padded(n / 10, width - 1);
    }
  }

  lemma {:induction false} PaddedSpelled(s: string)
    requires forall i :: 0 <= i < |s| ==> IsDigit(s[i])
    ensures Spelled(s) < Power10(|s|)
    ensures Padded(Spelled(s), |s|) == s
  {
    if s != "" {
      var init, last := s[..|s| - 1], s[|s| - 1];
      PaddedSpelled(init);
      assert Spelled(s) / 10 == Spelled(init) && Spelled(s) % 10 == ValueOf(last);
      assert DigitOf(ValueOf(last)) == last;
      assert init + [last] == s;
    }
  }

  lemma SixDigits()
    ensures Power10(6) == LAST_NUMBER + 1
  {
    assert Power10(3) == 1000;
    assert Power10(6) == 1000 * Power10(3);
  }

  /** Parsing undoes printing, and printing undoes parsing. */
  lemma PrintAndParse(n: nat)
    requires n <= LAST_NUMBER
    ensures IsIdentifier(Print(n)) && Number(Print(n)) == n
  {
    SixDigits();
    SpelledPadded(n, 6);
    assert Print(n)[2..] == Padded(n, 6);
  }

  lemma ParseAndPrint(s: string)
    requires IsIdentifier(s)
    ensures Number(s) <= LAST_NUMBER && Print(Number(s)) == s
  {
    SixDigits();
    PaddedSpelled(s[2..]);
    assert s == "T-" + s[2..];
  }

  /** ORDER BY on text: the first differing character decides. */
  ghost predicate TextBefore(a: string, b: string)
    requires |a| == |b|
  {
    exists k :: 0 <= k < |a| && a[k] < b[k] && a[..k] == b[..k]
  }

  lemma TextBeforeStep(x: string, y: string, c: char, d: char)
    requires |x| == |y|
    ensures TextBefore(x + [c], y + [d]) <==> TextBefore(x, y) || (x == y && c < d)
  {
    var a, b, n := x + [c], y + [d], |x|;
    assert forall k :: 0 <= k <= n ==> a[..k] == x[..k] && b[..k] == y[..k];
    if TextBefore(a, b) {
      var k :| 0 <= k < |a| && a[k] < b[k] && a[..k] == b[..k];
      if k < n {
        assert x[k] < y[k] && x[..k] == y[..k];
      }
    }
    if TextBefore(x, y) {
      var k :| 0 <= k < |x| && x[k] < y[k] && x[..k] == y[..k];
      assert a[k] < b[k] && a[..k] == b[..k];
    }
    if x == y && c < d {
      assert a[n] < b[n] && a[..n] == b[..n];
    }
  }

  lemma {:induction false} DigitsOrder(a: string, b: string)
    requires |a| == |b| && forall i :: 0 <= i < |a| ==> IsDigit(a[i]) && IsDigit(b[i])
    ensures TextBefore(a, b) <==> Spelled(a) < Spelled(b)
    ensures a == b <==> Spelled(a) == Spelled(b)
  {
    if a != "" {
      var n := |a| - 1;
      var x, y := a[..n], b[..n];
      DigitsOrder(x, y);
      assert a == x + [a[n]] && b == y + [b[n]];
      TextBeforeStep(x, y, a[n], b[n]);
    }
  }

  /** Listing tasks by identifier lists them by number. */
  lemma TextOrderIsNumericOrder(a: string, b: string)
    requires IsIdentifier(a) && IsIdentifier(b)
    ensures TextBefore(a, b) <==> Number(a) < Number(b)
  {
    var x, y := a[2..], b[2..];
    DigitsOrder(x, y);
    if TextBefore(a, b) {
      var k :| 0 <= k < |a| && a[k] < b[k] && a[..k] == b[..k];
      assert k >= 2;
      assert x[k - 2] < y[k - 2] && x[..k - 2] == a[..k][2..] && y[..k - 2] == b[..k][2..];
    }
    if TextBefore(x, y) {
      var k :| 0 <= k < |x| && x[k] < y[k] && x[..k] == y[..k];
      assert a[k + 2] < b[k + 2];
      assert a[..k + 2] == a[..2] + x[..k] && b[..k + 2] == b[..2] + y[..k];
    }
  }

  function Lower(c: char): char {
    if 'A' <= c <= 'Z' then ((c as int) + 32) as char else c
  }

  function LowerAll(s: string): string {
    if s == "" then "" else [Lower(s[0])] + LowerAll(s[1..])
  }

  /** The host-owned branch: the identifier and a prefix of the task's UUID. */
  function DeriveBranch(identifier: string, uuidPrefix: string): string {
    BRANCH_PREFIX + LowerAll(identifier) + "-" + uuidPrefix
  }

  lemma {:induction false} LowerAt(s: string)
    ensures |LowerAll(s)| == |s| && forall i :: 0 <= i < |s| ==> LowerAll(s)[i] == Lower(s[i])
  {
    if s != "" {
      LowerAt(s[1..]);
    }
  }

  /** Whatever the UUIDs, two identifiers never derive the same branch. */
  lemma BranchesAreInjective(a: string, b: string, p: string, q: string)
    requires IsIdentifier(a) && IsIdentifier(b) && DeriveBranch(a, p) == DeriveBranch(b, q)
    ensures a == b
  {
    LowerAt(a);
    LowerAt(b);
    var x, y := DeriveBranch(a, p), DeriveBranch(b, q);
    forall i | 0 <= i < 8
      ensures a[i] == b[i]
    {
      assert x[6 + i] == LowerAll(a)[i] && y[6 + i] == LowerAll(b)[i];
    }
  }
}
