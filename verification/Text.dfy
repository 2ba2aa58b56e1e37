/** Go's string operations that the controller relies on: the byte-wise order behind
    `sort` and `sets.List`, suffix and substring tests, and decimal printing. */
module Text {

  /** Go's `<` on strings. */
  predicate Less(a: string, b: string) {
    b != "" && (a == "" || a[0] < b[0] || (a[0] == b[0] && Less(a[1..], b[1..])))
  }

  lemma {:induction false} LessIrreflexive(a: string)
    ensures !Less(a, a)
  {
    if a != "" {
      LessIrreflexive(a[1..]);
    }
  }

  lemma {:induction false} LessTransitive(a: string, b: string, c: string)
    requires Less(a, b) && Less(b, c)
    ensures Less(a, c)
  {
    if a != "" && a[0] == b[0] && b[0] == c[0] {
      LessTransitive(a[1..], b[1..], c[1..]);
    }
  }

  lemma {:induction false} LessTotal(a: string, b: string)
    ensures a == b || Less(a, b) || Less(b, a)
  {
    if a != "" && b != "" && a[0] == b[0] {
      LessTotal(a[1..], b[1..]);
      assert a == [a[0]] + a[1..] && b == [b[0]] + b[1..];
    }
  }

  lemma LessAsymmetric(a: string, b: string)
    requires Less(a, b)
    ensures !Less(b, a) && a != b
  {
    LessIrreflexive(a);
    if Less(b, a) {
      LessTransitive(a, b, a);
    }
  }

  lemma NotLessTransitive(a: string, b: string, c: string)
    requires !Less(b, a) && !Less(c, b)
    ensures !Less(c, a)
  {
    LessTotal(a, b);
    LessTotal(b, c);
    if Less(c, a) {
      if a != b {
        LessTransitive(c, a, b);
      }
    }
  }

  /** The order is the one of dictionaries: a proper prefix comes first, and otherwise the first
      character that differs decides. */
  lemma {:induction false} LessExactly(a: string, b: string)
    ensures Less(a, b)
       <==> (|a| < |b| && a == b[..|a|]) || (exists i :: 0 <= i < |a| && i < |b| && a[..i] == b[..i] && a[i] < b[i])
  {
    if a != "" && b != "" && a[0] == b[0] {
      LessExactly(a[1..], b[1..]);
      LessShift(a, b);
    } else if a != "" && b != "" {
      assert a[0] < b[0] ==> a[..0] == b[..0];
      assert forall i :: 0 < i < |a| && i < |b| ==> a[..i][0] == a[0] && b[..i][0] == b[0];
    }
  }

  lemma LessShift(a: string, b: string)
    requires a != "" && b != "" && a[0] == b[0]
    ensures (|a| < |b| && a == b[..|a|]) <==> (|a[1..]| < |b[1..]| && a[1..] == b[1..][..|a| - 1])
    ensures (exists i :: 0 <= i < |a| && i < |b| && a[..i] == b[..i] && a[i] < b[i])
       <==> (exists i :: 0 <= i < |a[1..]| && i < |b[1..]| && a[1..][..i] == b[1..][..i] && a[1..][i] < b[1..][i])
  {
    var c, d := a[1..], b[1..];
    if |a| < |b| && c == d[..|a| - 1] {
      assert a == [a[0]] + c && b[..|a|] == [b[0]] + d[..|a| - 1];
    }
    if |a| < |b| && a == b[..|a|] {
      assert c == b[..|a|][1..] == d[..|a| - 1];
    }
    if i :| 0 <= i < |a| && i < |b| && a[..i] == b[..i] && a[i] < b[i] {
      assert c[..i - 1] == a[..i][1..] == b[..i][1..] == d[..i - 1] && c[i - 1] == a[i] && d[i - 1] == b[i];
    }
    if i :| 0 <= i < |c| && i < |d| && c[..i] == d[..i] && c[i] < d[i] {
      assert a[..i + 1] == [a[0]] + c[..i] && b[..i + 1] == [b[0]] + d[..i] && a[i + 1] == c[i] && b[i + 1] == d[i];
    }
  }

  predicate HasSuffix(s: string, suffix: string) {
    |suffix| <= |s| && s[|s| - |suffix|..] == suffix
  }

  /** Go's `strings.TrimSuffix`. */
  function TrimSuffix(s: string, suffix: string): string {
    if HasSuffix(s, suffix) then s[..|s| - |suffix|] else s
  }

  lemma SuffixExactly(s: string, suffix: string)
    ensures HasSuffix(s, suffix) <==> exists front :: s == front + suffix
    ensures HasSuffix(s, suffix) ==> s == TrimSuffix(s, suffix) + suffix
    ensures !HasSuffix(s, suffix) ==> TrimSuffix(s, suffix) == s
  {
    if HasSuffix(s, suffix) {
      assert s == s[..|s| - |suffix|] + suffix;
    }
  }

  /** Go's `strings.Contains`. */
  predicate Contains(s: string, sub: string) {
    sub <= s || (s != "" && Contains(s[1..], sub))
  }

  /** It stands somewhere in between. */
  lemma {:induction false} ContainsExactly(s: string, sub: string)
    ensures Contains(s, sub) <==> exists front, rest :: s == front + sub + rest
  {
    if Contains(s, sub) {
      var front, rest := ContainedAt(s, sub);
      assert s == front + sub + rest;
    }
    if front, rest :| s == front + sub + rest {
      ContainsAt(front, sub, rest);
    }
  }

  lemma {:induction false} ContainedAt(s: string, sub: string) returns (front: string, rest: string)
    requires Contains(s, sub)
    ensures s == front + sub + rest
  {
    if sub <= s {
      front, rest := "", s[|sub|..];
    } else {
      front, rest := ContainedAt(s[1..], sub);
      assert s == [s[0]] + s[1..];
      front := [s[0]] + front;
    }
  }

  lemma {:induction false} ContainsAt(front: string, sub: string, rest: string)
    ensures Contains(front + sub + rest, sub)
  {
    var s := front + sub + rest;
    if front == "" {
      assert s[..|sub|] == sub;
    } else {
      ContainsAt(front[1..], sub, rest);
      assert s[1..] == front[1..] + sub + rest;
    }
  }

  function Digit(d: nat): char
    requires d < 10
  {
    '0' + d as char
  }

  /** `strconv.FormatInt(n, 10)` for the non-negative generations the API server assigns. */
  function Itoa(n: nat): (s: string)
    ensures s != "" && forall i :: 0 <= i < |s| ==> '0' <= s[i] <= '9'
  {
    if n < 10 then [Digit(n)] else Itoa(n / 10) + [Digit(n % 10)]
  }

  /** The number that a numeral denotes. */
  function ValueOf(s: string): int {
    if s == "" then 0 else 10 * ValueOf(s[..|s| - 1]) + (s[|s| - 1] as int - '0' as int)
  }

  /** The printed numeral denotes the number, and has no leading zero. */
  lemma {:induction false} ItoaValue(n: nat)
    ensures ValueOf(Itoa(n)) == n && (Itoa(n)[0] == '0' ==> n == 0)
  {
    var s := Itoa(n);
    if n < 10 {
      assert s[..0] == "" && s[0] == Digit(n);
    } else {
      ItoaValue(n / 10);
      assert s[..|s| - 1] == Itoa(n / 10) && s[|s| - 1] == Digit(n % 10) && s[0] == Itoa(n / 10)[0];
    }
  }

  lemma {:induction false} ItoaInjective(m: nat, n: nat)
    requires Itoa(m) == Itoa(n)
    ensures m == n
  {
    var s, t := Itoa(m), Itoa(n);
    assert s[|s| - 1] == t[|t| - 1] == Digit(m % 10) == Digit(n % 10);
    assert |s| == 1 <==> m < 10;
    assert |t| == 1 <==> n < 10;
    if m >= 10 {
      assert Itoa(m / 10) == s[..|s| - 1] == t[..|t| - 1] == Itoa(n / 10);
      ItoaInjective(m / 10, n / 10);
    }
  }

  /** The last occurrence of a separator splits a string in only one way, as long as
      neither tail contains the separator. */
  lemma LastSeparatorUnique(a: string, b: string, x: string, y: string, sep: char)
    requires a + [sep] + x == b + [sep] + y
    requires sep !in x && sep !in y
    ensures a == b && x == y
  {
    var s := a + [sep] + x;
    assert forall i :: |a| < i < |s| ==> s[i] in x;
    assert forall i :: |b| < i < |s| ==> s[i] in y;
    assert s[|a|] == sep && s[|b|] == sep;
    assert a == s[..|a|] == b;
    assert x == s[|a| + 1..] == y;
  }
}
