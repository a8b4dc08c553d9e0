/** Printed forms shared by the cache records and the selectors: the byte order of strings,
    decimal numerals, and cutting a string at a separator. */
module Text {
  import opened Domain

  /** Byte-wise order of strings, as Go compares them and Redis breaks score ties. */
  predicate Less(a: string, b: string) {
    b != [] && (a == [] || a[0] < b[0] || (a[0] == b[0] && Less(a[1..], b[1..])))
  }

  /** One string is less than another when it is a proper prefix of it, or has the lower character where they first differ. */
  lemma {:induction false} LessMeaning(a: string, b: string)
    ensures Less(a, b) <==> exists k :: 0 <= k <= |a| && k < |b| && a[..k] == b[..k] && (k == |a| || a[k] < b[k])
  {
    if b == [] {
    } else if a == [] {
      assert a[..0] == b[..0];
    } else if a[0] != b[0] {
      assert a[..0] == b[..0];
      forall k | 0 < k <= |a| && k < |b| ensures a[..k] != b[..k] { assert a[..k][0] != b[..k][0]; }
    } else {
      LessMeaning(a[1..], b[1..]);
      if Less(a[1..], b[1..]) {
        var k :| 0 <= k <= |a[1..]| && k < |b[1..]| && a[1..][..k] == b[1..][..k] && (k == |a[1..]| || a[1..][k] < b[1..][k]);
        assert a[..k + 1] == [a[0]] + a[1..][..k] && b[..k + 1] == [b[0]] + b[1..][..k];
      }
      forall k | 0 < k <= |a| && k < |b| && a[..k] == b[..k] && (k == |a| || a[k] < b[k]) ensures Less(a[1..], b[1..]) {
        assert a[1..][..k - 1] == a[..k][1..] && b[1..][..k - 1] == b[..k][1..];
        assert k - 1 == |a[1..]| || a[1..][k - 1] < b[1..][k - 1];
      }
    }
  }

  lemma {:induction false} LessTotal(a: string, b: string)
    ensures a == b || Less(a, b) || Less(b, a)
  {
    if a == [] || b == [] || a[0] != b[0] {
    } else {
      LessTotal(a[1..], b[1..]);
      assert a == [a[0]] + a[1..] && b == [b[0]] + b[1..];
    }
  }

  lemma {:induction false} LessAsymmetric(a: string, b: string)
    requires Less(a, b)
    ensures !Less(b, a) && a != b
  {
    if a != [] && a[0] == b[0] {
      LessAsymmetric(a[1..], b[1..]);
    }
  }

  lemma {:induction false} LessTransitive(a: string, b: string, c: string)
    requires Less(a, b) && Less(b, c)
    ensures Less(a, c)
  {
    if a != [] && a[0] == b[0] && b[0] == c[0] {
      LessTransitive(a[1..], b[1..], c[1..]);
    }
  }

  lemma {:induction false} LessPrefix(a: string, b: string)
    requires b != []
    ensures Less(a, a + b)
  {
    if a == [] {
      assert a + b == b;
    } else {
      LessPrefix(a[1..], b);
      assert (a + b)[1..] == a[1..] + b;
    }
  }

  function Digit(d: nat): char
    requires d < 10
  {
    '0' + d as char
  }

  predicate IsDigit(c: char) { '0' <= c <= '9' }

  function ShowNat(n: nat): string {
    if n < 10 then [Digit(n)] else ShowNat(n / 10) + [Digit(n % 10)]
  }

  /** strconv.Itoa, strconv.FormatInt in base 10, and the %d verb. */
  function ShowInt(n: int): string {
    if n < 0 then "-" + ShowNat(-n) else ShowNat(n)
  }

  /** Reads a non-empty run of digits; anything else has no value. */
  function ParseNat(s: string): Option<nat> {
    if s == [] || !IsDigit(s[|s| - 1]) then None
    else
      var d := (s[|s| - 1] - '0') as nat;
      if |s| == 1 then Some(d)
      else match ParseNat(s[..|s| - 1])
        case None => None
        case Some(v) => Some(10 * v + d)
  }

  lemma {:induction false} ParseShow(n: nat)
    ensures ParseNat(ShowNat(n)) == Some(n)
  {
    if n >= 10 {
      ParseShow(n / 10);
      assert ShowNat(n)[..|ShowNat(n)| - 1] == ShowNat(n / 10);
    }
  }

  lemma {:induction false} ShowNatDigits(n: nat, c: char)
    requires c in ShowNat(n)
    ensures IsDigit(c)
  {
    if n >= 10 && c in ShowNat(n / 10) {
      ShowNatDigits(n / 10, c);
    }
  }

  /** A numeral contains only digits and a sign, so it never contains a separator. */
  lemma ShowIntPlain(n: int, c: char)
    requires c in ShowInt(n)
    ensures IsDigit(c) || c == '-'
  {
    if n < 0 {
      if c in ShowNat(-n) { ShowNatDigits(-n, c); }
    } else {
      ShowNatDigits(n, c);
    }
  }

  lemma ShowIntInjective(m: int, n: int)
    requires ShowInt(m) == ShowInt(n)
    ensures m == n
  {
    ParseShow(if m < 0 then -m else m);
    ParseShow(if n < 0 then -n else n);
    if m < 0 {
      assert ShowInt(m)[1..] == ShowNat(-m);
      if n >= 0 { ShowNatDigits(n, '-'); } else { assert ShowInt(n)[1..] == ShowNat(-n); }
    } else if n < 0 {
      ShowNatDigits(m, '-');
    }
  }

  /** strings.Cut: the text before and after the first separator. */
  function Cut(s: string, sep: char): Option<(string, string)> {
    if s == [] then None
    else if s[0] == sep then Some(([], s[1..]))
    else match Cut(s[1..], sep)
      case None => None
      case Some(p) => Some(([s[0]] + p.0, p.1))
  }

  lemma {:induction false} CutJoined(a: string, sep: char, b: string)
    requires sep !in a
    ensures Cut(a + [sep] + b, sep) == Some((a, b))
  {
    var s := a + [sep] + b;
    if a == [] {
      assert s[1..] == b;
    } else {
      assert s[0] == a[0] && s[1..] == a[1..] + [sep] + b;
      CutJoined(a[1..], sep, b);
      assert [a[0]] + a[1..] == a;
    }
  }

  /** Two joins agree only if their parts agree, when the separator is not in the first parts. */
  lemma JoinInjective(a: string, b: string, c: string, d: string, sep: char)
    requires sep !in a && sep !in c
    requires a + [sep] + b == c + [sep] + d
    ensures a == c && b == d
  {
    CutJoined(a, sep, b);
    CutJoined(c, sep, d);
  }

  lemma SeparatorBefore(c: string, sep: char, d: string, k: nat)
    requires sep !in d && k < |c + [sep] + d| && (c + [sep] + d)[k] == sep
    ensures k <= |c|
  {
  }

  /** The same from the right: the separator is not in the last parts. */
  lemma JoinInjectiveRight(a: string, b: string, c: string, d: string, sep: char)
    requires sep !in b && sep !in d
    requires a + [sep] + b == c + [sep] + d
    ensures a == c && b == d
  {
    var s := a + [sep] + b;
    SeparatorBefore(c, sep, d, |a|);
    SeparatorBefore(a, sep, b, |c|);
    assert a == s[..|a|] && c == s[..|c|];
    assert b == s[|a| + 1..] && d == s[|c| + 1..];
  }
}
