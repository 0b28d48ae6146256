/** Group ids are text, and queries break ties by them: the number of a group in its round is written
    with at least three digits. Of two groups of one round only that part of the id differs. */
module GroupIds {

  function Digit(d: nat): char
    requires d < 10
  {
    ('0' as int + d) as char
  }

  function Decimal(n: nat): (s: string)
    ensures s != []
  {
    if n < 10 then [Digit(n)] else Decimal(n / 10) + [Digit(n % 10)]
  }

  /** `%03d`. */
  function Padded(n: nat): string {
    if n < 10 then "00" + Decimal(n) else if n < 100 then "0" + Decimal(n) else Decimal(n)
  }

  /** The binary collation: the first difference decides, and a prefix comes first. */
  predicate TextBefore(a: string, b: string) {
    b != [] && (a == [] || a[0] < b[0] || (a[0] == b[0] && TextBefore(a[1..], b[1..])))
  }

  predicate IdBefore(m: nat, n: nat) {
    TextBefore(Padded(m), Padded(n))
  }

  lemma {:induction false} TextOneWay(a: string, b: string)
    ensures !(TextBefore(a, b) && TextBefore(b, a))
  {
    if a != [] && b != [] {
      TextOneWay(a[1..], b[1..]);
    }
  }

  lemma {:induction false} TextApart(a: string, b: string)
    requires a != b
    ensures TextBefore(a, b) || TextBefore(b, a)
  {
    if a != [] && b != [] && a[0] == b[0] {
      assert a == [a[0]] + a[1..] && b == [b[0]] + b[1..];
      TextApart(a[1..], b[1..]);
    }
  }

  lemma {:induction false} TextOnward(a: string, b: string, c: string)
    requires TextBefore(a, b) && TextBefore(b, c)
    ensures TextBefore(a, c)
  {
    if a != [] && a[0] == b[0] == c[0] {
      TextOnward(a[1..], b[1..], c[1..]);
    }
  }

  lemma DecimalEnds(n: nat)
    ensures var s := Decimal(n); s[|s| - 1] == Digit(n % 10) && (n >= 10 ==> s[..|s| - 1] == Decimal(n / 10))
    ensures n >= 10 ==> |Decimal(n)| >= 2
  {
  }

  lemma {:induction false} DecimalTellsApart(m: nat, n: nat)
    requires Decimal(m) == Decimal(n)
    ensures m == n
  {
    DecimalEnds(m);
    DecimalEnds(n);
    assert Digit(m % 10) == Digit(n % 10);
    if m >= 10 && n >= 10 {
      DecimalTellsApart(m / 10, n / 10);
    }
  }

  lemma {:induction false} DecimalLength(n: nat)
    ensures |Decimal(n)| == 1 <==> n < 10
    ensures |Decimal(n)| == 2 <==> 10 <= n < 100
  {
    if n >= 10 {
      DecimalLength(n / 10);
    }
  }

  /** No leading zero is written but by the padding. */
  lemma {:induction false} NoLeadingZero(n: nat)
    requires n >= 1
    ensures Decimal(n)[0] != '0'
  {
    if n >= 10 {
      NoLeadingZero(n / 10);
    }
  }

  lemma PaddedTellsApart(m: nat, n: nat)
    requires m < n
    ensures Padded(m) != Padded(n)
  {
    if Padded(m) == Padded(n) {
      DecimalLength(m);
      DecimalLength(n);
      NoLeadingZero(n);
      if m >= 1 {
        NoLeadingZero(m);
      }
      assert Padded(m)[0] == Padded(n)[0] && Padded(m)[1] == Padded(n)[1];
      assert Decimal(m) == Padded(m)[|Padded(m)| - |Decimal(m)|..];
      assert Decimal(n) == Padded(n)[|Padded(n)| - |Decimal(n)|..];
      DecimalTellsApart(m, n);
    }
  }

  /** The ids of the groups of a round are in a strict order. */
  lemma IdsApart(m: nat, n: nat)
    requires m != n
    ensures IdBefore(m, n) <==> !IdBefore(n, m)
  {
    if m < n {
      PaddedTellsApart(m, n);
    } else {
      PaddedTellsApart(n, m);
    }
    TextApart(Padded(m), Padded(n));
    TextOneWay(Padded(m), Padded(n));
  }

  lemma IdsOnward(l: nat, m: nat, n: nat)
    requires IdBefore(l, m) && IdBefore(m, n)
    ensures IdBefore(l, n)
  {
    TextOnward(Padded(l), Padded(m), Padded(n));
  }

  lemma ThreeDigits(n: nat)
    requires n < 1000
    ensures Padded(n) == [Digit(n / 100), Digit(n / 10 % 10), Digit(n % 10)]
  {
    assert n / 10 / 10 == n / 100;
    if n < 10 {
      assert Padded(n) == ['0', '0', Digit(n)];
    } else if n < 100 {
      assert Decimal(n) == Decimal(n / 10) + [Digit(n % 10)];
      assert Padded(n) == ['0', Digit(n / 10), Digit(n % 10)];
    } else {
      assert Decimal(n) == Decimal(n / 10) + [Digit(n % 10)];
      assert Decimal(n / 10) == [Digit(n / 100)] + [Digit(n / 10 % 10)];
    }
  }

  lemma ThreeBefore(a: string, b: string)
    requires |a| == |b| == 3
    ensures TextBefore(a, b) <==>
      a[0] < b[0] || (a[0] == b[0] && (a[1] < b[1] || (a[1] == b[1] && a[2] < b[2])))
  {
    assert a[1..] == [a[1], a[2]] && b[1..] == [b[1], b[2]];
    assert a[1..][1..] == [a[2]] && b[1..][1..] == [b[2]];
    assert TextBefore(a[1..][1..], b[1..][1..]) <==> a[2] < b[2];
    assert TextBefore(a[1..], b[1..]) <==> a[1] < b[1] || (a[1] == b[1] && a[2] < b[2]);
  }

  lemma DigitsDecide(m: nat, n: nat)
    requires m < 1000 && n < 1000
    ensures m < n <==>
      m / 100 < n / 100 || (m / 100 == n / 100 && (m / 10 % 10 < n / 10 % 10 || (m / 10 % 10 == n / 10 % 10 && m % 10 < n % 10)))
  {
    assert m / 10 / 10 == m / 100 && n / 10 / 10 == n / 100;
  }

  /** It is the order of the numbers as long as three digits are enough, and not beyond. */
  lemma IdsAreNumbers(m: nat, n: nat)
    requires m < 1000 && n < 1000
    ensures IdBefore(m, n) <==> m < n
  {
    ThreeDigits(m);
    ThreeDigits(n);
    ThreeBefore(Padded(m), Padded(n));
    DigitsDecide(m, n);
  }

  lemma ThousandComesFirst()
    ensures IdBefore(1000, 999)
  {
    assert Decimal(1000) == Decimal(100) + [Digit(0)];
    assert Decimal(100) == Decimal(10) + [Digit(0)];
    assert Decimal(10) == Decimal(1) + [Digit(0)];
    assert Padded(1000)[0] == '1';
    ThreeDigits(999);
  }
}
