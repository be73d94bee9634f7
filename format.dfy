/** Text helpers the ledger relies on: the zero-padded identifiers `ACC0001` /
    `TXN0001` (Python's `f"ACC{n:04d}"`), reading their number back, and Python's
    `str.strip()` used to validate and store account names. */
module Format {

  // ---------------------------------------------------------------- digits

  predicate IsDigit(c: char) { '0' <= c <= '9' }

  predicate AllDigits(s: string) { forall i :: 0 <= i < |s| ==> IsDigit(s[i]) }

  function DigitChar(d: nat): (c: char)
    requires d < 10
    ensures IsDigit(c) && c as int - '0' as int == d
  {
    ('0' as int + d) as char
  }

  function DigitValue(c: char): nat
    requires IsDigit(c)
  {
    c as int - '0' as int
  }

  /** Decimal digits of `n`, most significant first, without leading zeros
      (Python's `str(n)` for a non-negative integer). */
  function Digits(n: nat): (s: string)
    ensures 1 <= |s| && AllDigits(s)
    ensures n < 10 <==> |s| == 1
    ensures n > 0 ==> s[0] != '0'
    decreases n
  {
    if n < 10 then [DigitChar(n)] else Digits(n / 10) + [DigitChar(n % 10)]
  }

  /** The number a string of decimal digits denotes; leading zeros are allowed. */
  function ValueOf(s: string): nat
    requires AllDigits(s)
  {
    if s == [] then 0 else ValueOf(s[..|s| - 1]) * 10 + DigitValue(s[|s| - 1])
  }

  function Zeros(k: nat): (s: string)
    ensures |s| == k && AllDigits(s)
  {
    if k == 0 then [] else ['0'] + Zeros(k - 1)
  }

  /** `s` left-padded with '0' to at least `width` characters. */
  function PadZeros(s: string, width: nat): string
    decreases width - |s|
  {
    if |s| >= width then s else PadZeros(['0'] + s, width)
  }

  /** Python's format spec `04d` applied to a non-negative integer: the digits,
      left-padded with '0' to at least four characters. */
  function Pad4(n: nat): string
  {
    PadZeros(Digits(n), 4)
  }

  /** Padding puts exactly the missing number of zeros in front. */
  lemma {:induction false} PadZerosAddsZeros(s: string, width: nat)
    ensures PadZeros(s, width) == if |s| >= width then s else Zeros(width - |s|) + s
    decreases width - |s|
  {
    if |s| < width {
      var k := width - |s|;
      var t := ['0'] + s;
      assert PadZeros(s, width) == PadZeros(t, width);
      PadZerosAddsZeros(t, width);
      if k == 1 {
        assert Zeros(1) == ['0'];
      } else {
        ZerosSplit(k - 1);
        assert Zeros(k - 1) + t == (Zeros(k - 1) + ['0']) + s;
      }
    }
  }

  /** A number has at most four digits exactly when it is below 10000. */
  lemma {:induction false} DigitsLength(n: nat)
    ensures n < 10000 <==> |Digits(n)| <= 4
    decreases n
  {
    if n >= 10 {
      DigitsLength(n / 10);
      if n / 10 >= 1000 {
        DigitsAtLeastFour(n / 10);
      }
    }
  }

  /** From 1000 on, a number has at least four digits. */
  lemma {:induction false} DigitsAtLeastFour(n: nat)
    requires n >= 1000
    ensures |Digits(n)| >= 4
    decreases n
  {
    if n / 10 >= 1000 {
      DigitsAtLeastFour(n / 10);
    } else {
      assert n / 10 >= 100 && |Digits(n / 10)| >= 3 by {
        var m := n / 10;
        assert |Digits(m / 10)| >= 2 by {
          assert m / 10 >= 10;
        }
      }
    }
  }

  /** A padded number is a digit string of at least four characters that
      ends with the number's own digits, and of exactly four when those fit. */
  lemma Pad4Shape(n: nat)
    ensures AllDigits(Pad4(n)) && 4 <= |Pad4(n)|
    ensures |Digits(n)| <= 4 ==> |Pad4(n)| == 4
    ensures n < 10000 <==> |Pad4(n)| == 4
    ensures |Digits(n)| <= |Pad4(n)| && Pad4(n)[|Pad4(n)| - |Digits(n)|..] == Digits(n)
  {
    var d := Digits(n);
    DigitsLength(n);
    PadZerosAddsZeros(d, 4);
    if |d| < 4 {
      ValueOfLeadingZeros(4 - |d|, d);
      assert (Zeros(4 - |d|) + d)[4 - |d|..] == d;
    }
  }

  // ------------------------------------------------------------ identifiers

  const AccountPrefix: string := "ACC"
  const TransactionPrefix: string := "TXN"

  /** `f"ACC{n:04d}"` (modules/account.py:65). */
  function AccountId(n: nat): string { AccountPrefix + Pad4(n) }

  /** `f"TXN{n:04d}"` (modules/history.py:68). */
  function TransactionId(n: nat): string { TransactionPrefix + Pad4(n) }

  /** The counter value an identifier was made from: the number written after
      its three-letter prefix, or 0 when that is not a string of digits. */
  function IdNumber(id: string): nat
  {
    if |id| >= 3 && AllDigits(id[3..]) then ValueOf(id[3..]) else 0
  }

  lemma {:induction false} ValueOfZeros(k: nat)
    ensures ValueOf(Zeros(k)) == 0
  {
    if k > 0 {
      var z := Zeros(k);
      assert z[..|z| - 1] == Zeros(k - 1) by {
        if k > 1 {
          ZerosSplit(k - 1);
        }
      }
      ValueOfZeros(k - 1);
    }
  }

  lemma {:induction false} ZerosSplit(k: nat)
    ensures Zeros(k + 1) == Zeros(k) + ['0']
  {
    if k > 0 {
      ZerosSplit(k - 1);
    }
  }

  /** Leading zeros do not change the value of a digit string. */
  lemma {:induction false} ValueOfLeadingZeros(k: nat, s: string)
    requires AllDigits(s)
    ensures AllDigits(Zeros(k) + s) && ValueOf(Zeros(k) + s) == ValueOf(s)
  {
    var t := Zeros(k) + s;
    if s == [] {
      assert t == Zeros(k);
      ValueOfZeros(k);
    } else {
      var init := s[..|s| - 1];
      assert t[..|t| - 1] == Zeros(k) + init;
      assert t[|t| - 1] == s[|s| - 1];
      ValueOfLeadingZeros(k, init);
    }
  }

  /** Reading back the digits of `n` gives `n`. */
  lemma {:induction false} ValueOfDigits(n: nat)
    ensures ValueOf(Digits(n)) == n
    decreases n
  {
    var d := Digits(n);
    if n >= 10 {
      assert d[..|d| - 1] == Digits(n / 10);
      ValueOfDigits(n / 10);
    }
  }

  /** Reading back a zero-padded number gives the number. */
  lemma ValueOfPad4(n: nat)
    ensures AllDigits(Pad4(n)) && ValueOf(Pad4(n)) == n
  {
    var d := Digits(n);
    Pad4Shape(n);
    PadZerosAddsZeros(d, 4);
    ValueOfDigits(n);
    if |d| < 4 {
      ValueOfLeadingZeros(4 - |d|, d);
    }
  }

  /** An account identifier yields the counter value it was made from. */
  lemma IdNumberOfAccountId(n: nat)
    ensures IdNumber(AccountId(n)) == n
  {
    var id := AccountId(n);
    assert id[3..] == Pad4(n);
    ValueOfPad4(n);
  }

  /** A transaction identifier yields the counter value it was made from. */
  lemma IdNumberOfTransactionId(n: nat)
    ensures IdNumber(TransactionId(n)) == n
  {
    var id := TransactionId(n);
    assert id[3..] == Pad4(n);
    ValueOfPad4(n);
  }

  /** Distinct counter values give distinct account identifiers. */
  lemma AccountIdInjective(m: nat, n: nat)
    ensures AccountId(m) == AccountId(n) <==> m == n
  {
    IdNumberOfAccountId(m);
    IdNumberOfAccountId(n);
  }

  /** Distinct counter values give distinct transaction identifiers. */
  lemma TransactionIdInjective(m: nat, n: nat)
    ensures TransactionId(m) == TransactionId(n) <==> m == n
  {
    IdNumberOfTransactionId(m);
    IdNumberOfTransactionId(n);
  }

  /** The first identifiers the counters produce (tests/test_account.py:53,
      tests/test_history.py:55-56). */
  lemma FirstIdentifiers()
    ensures AccountId(1) == "ACC0001" && AccountId(2) == "ACC0002"
    ensures TransactionId(1) == "TXN0001"
  {
    assert Zeros(3) == "000" by {
      assert Zeros(1) == "0";
      assert Zeros(2) == "00";
    }
    assert Digits(1) == ['1'] && Digits(2) == ['2'];
    PadZerosAddsZeros(['1'], 4);
    PadZerosAddsZeros(['2'], 4);
  }

  /** Padding never truncates: a five-digit counter gives a five-digit identifier. */
  lemma WideIdentifier()
    ensures AccountId(12345) == "ACC12345"
  {
    assert Digits(1) == ['1'];
    assert Digits(12) == ['1', '2'];
    assert Digits(123) == ['1', '2', '3'];
    assert Digits(1234) == ['1', '2', '3', '4'];
    assert Digits(12345) == ['1', '2', '3', '4', '5'];
  }

  // ----------------------------------------------------------------- strip

  /** The characters Python's `str.isspace()` accepts, so the ones
      `str.strip()` removes, by code point. */
  predicate IsSpace(c: char)
  {
    var x := c as int;
    x == 0x20 || 0x09 <= x <= 0x0D || 0x1C <= x <= 0x1F || x == 0x85 || x == 0xA0
    || x == 0x1680 || 0x2000 <= x <= 0x200A || x == 0x2028 || x == 0x2029
    || x == 0x202F || x == 0x205F || x == 0x3000
  }

  predicate AllSpace(s: string) { forall i :: 0 <= i < |s| ==> IsSpace(s[i]) }

  /** How many white-space characters `s` starts with. */
  function LeadingSpaces(s: string): (k: nat)
    ensures k <= |s| && AllSpace(s[..k])
    ensures k == |s| || !IsSpace(s[k])
  {
    if s != [] && IsSpace(s[0]) then
      SpaceBefore(s, LeadingSpaces(s[1..]));
      1 + LeadingSpaces(s[1..])
    else 0
  }

  /** A white-space character in front of `k` white-space characters makes
      `k + 1` of them. */
  lemma SpaceBefore(s: string, k: nat)
    requires s != [] && IsSpace(s[0])
    requires k <= |s| - 1 && AllSpace(s[1..][..k])
    ensures AllSpace(s[..k + 1])
  {
    var t := s[..k + 1];
    forall i | 0 <= i < |t| ensures IsSpace(t[i]) {
      if i > 0 { assert t[i] == s[1..][..k][i - 1]; }
    }
  }

  /** `s` with its leading white space removed. */
  function TrimStart(s: string): (r: string)
    ensures |r| <= |s| && r == s[|s| - |r|..]
    ensures AllSpace(s[..|s| - |r|])
    ensures r == [] || !IsSpace(r[0])
  {
    s[LeadingSpaces(s)..]
  }

  /** `s` with its trailing white space removed. */
  function TrimEnd(s: string): (r: string)
    ensures |r| <= |s| && r == s[..|r|]
    ensures AllSpace(s[|r|..])
    ensures r == [] || !IsSpace(r[|r| - 1])
  {
    if s != [] && IsSpace(s[|s| - 1]) then
      assert TrimEnd(s[..|s| - 1]) == s[..|TrimEnd(s[..|s| - 1])|];
      assert AllSpace(s[|TrimEnd(s[..|s| - 1])|..]) by {
        var k := |TrimEnd(s[..|s| - 1])|;
        forall i | 0 <= i < |s| - k ensures IsSpace(s[k..][i]) {
          if i < |s| - 1 - k { assert s[k..][i] == s[..|s| - 1][k..][i]; }
        }
      }
      TrimEnd(s[..|s| - 1])
    else s
  }

  /** Python's `s.strip()`: no white space at either end of the result. */
  function Strip(s: string): (r: string)
    ensures |r| <= |s|
    ensures r == [] || (!IsSpace(r[0]) && !IsSpace(r[|r| - 1]))
  {
    TrimEnd(TrimStart(s))
  }

  /** What `strip` keeps is a contiguous piece of `s`, and everything it
      removes around that piece is white space. */
  lemma StripKeepsInfix(s: string)
    ensures var r := Strip(s);
      exists k :: 0 <= k <= |s| - |r| && r == s[k..k + |r|]
                  && AllSpace(s[..k]) && AllSpace(s[k + |r|..])
  {
    StripPiece(s);
    StripSurround(s);
  }

  /** How many leading characters `strip` removes. */
  function StripStart(s: string): (k: nat)
    ensures k + |Strip(s)| <= |s|
  {
    |s| - |TrimStart(s)|
  }

  lemma StripPiece(s: string)
    ensures Strip(s) == s[StripStart(s)..StripStart(s) + |Strip(s)|]
  {
    var t := TrimStart(s);
    SuffixSplit(s, StripStart(s), |TrimEnd(t)|);
  }

  lemma StripSurround(s: string)
    ensures AllSpace(s[..StripStart(s)]) && AllSpace(s[StripStart(s) + |Strip(s)|..])
  {
    var t := TrimStart(s);
    SuffixSplit(s, StripStart(s), |TrimEnd(t)|);
  }

  lemma SuffixSplit(s: string, k: nat, n: nat)
    requires k + n <= |s|
    ensures s[k..][..n] == s[k..k + n] && s[k..][n..] == s[k + n..]
  {
  }

  /** The rejection test of modules/account.py:55, `not name or name.strip() == ""`. */
  predicate IsBlank(name: string) { name == [] || Strip(name) == [] }

  /** A name is rejected exactly when it is made only of white space. */
  lemma BlankIffAllSpace(name: string)
    ensures IsBlank(name) <==> AllSpace(name)
  {
    if AllSpace(name) {
      AllSpaceStripsToEmpty(name);
    }
    if IsBlank(name) && name != [] {
      EmptyStripIsAllSpace(name);
    }
  }

  lemma AllSpaceStripsToEmpty(name: string)
    requires AllSpace(name)
    ensures Strip(name) == []
  {
    StripKeepsInfix(name);
  }

  lemma EmptyStripIsAllSpace(name: string)
    requires Strip(name) == []
    ensures AllSpace(name)
  {
    StripSurround(name);
    var k := StripStart(name);
    assert name == name[..k] + name[k..];
    AllSpaceConcat(name[..k], name[k..]);
  }

  lemma AllSpaceConcat(a: string, b: string)
    requires AllSpace(a) && AllSpace(b)
    ensures AllSpace(a + b)
  {
    forall i | 0 <= i < |a + b| ensures IsSpace((a + b)[i]) {
      if i >= |a| {
        assert (a + b)[i] == b[i - |a|];
      }
    }
  }

  /** A string with no white space at either end is left as it is. */
  lemma StripUnpadded(s: string)
    requires s == [] || (!IsSpace(s[0]) && !IsSpace(s[|s| - 1]))
    ensures Strip(s) == s
  {
    if s != [] {
      assert TrimStart(s) == s;
      assert TrimEnd(s) == s;
    }
  }

  /** Stripping is idempotent: a stored name is already stripped. */
  lemma StripIdempotent(s: string)
    ensures Strip(Strip(s)) == Strip(s)
  {
    StripUnpadded(Strip(s));
  }
}
