/**
 * A simplified model of the tokenizer of the parser: a global match of the
 * pattern "one command letter, or -?digits(.digits)?" over the input, every
 * other character being skipped. Numbers are exact reals.
 */
module Tokenizer {
  import opened Options

  const CommandLetters: string := "mMlLhHvVcCsSqQtTzZ"

  predicate IsCommandLetter(c: char)
  {
    c in CommandLetters
  }

  /** A letter the tokenizer can produce. */
  type CommandLetter = c: char | IsCommandLetter(c) witness 'z'

  datatype Token = Letter(c: CommandLetter) | Num(value: real)

  predicate IsDigit(c: char)
  {
    '0' <= c <= '9'
  }

  /** The length of the run of digits at the start of `s`. */
  function DigitRun(s: string): (n: nat)
    ensures n <= |s|
    ensures forall i | 0 <= i < n :: IsDigit(s[i])
    ensures n < |s| ==> !IsDigit(s[n])
  {
    if s != [] && IsDigit(s[0]) then 1 + DigitRun(s[1..]) else 0
  }

  /** The decimal value of a string of digits. */
  function DigitsValue(ds: string): nat
    requires forall i | 0 <= i < |ds| :: IsDigit(ds[i])
  {
    if ds == [] then 0
    else
      var last := ds[|ds| - 1];
      assert IsDigit(last);
      10 * DigitsValue(ds[..|ds| - 1]) + (last as int - '0' as int)
  }

  function Pow10(k: nat): (r: nat)
    ensures r >= 1
  {
    if k == 0 then 1 else 10 * Pow10(k - 1)
  }

  /** Whether `t`, as a whole, is an unsigned literal `\d+(\.\d+)?`: digits
      and at most one point, with a digit at either end. */
  predicate IsUnsignedLiteral(t: string)
  {
    |t| > 0 && IsDigit(t[0]) && IsDigit(t[|t| - 1])
    && (forall i | 0 <= i < |t| :: IsDigit(t[i]) || t[i] == '.')
    && (forall i, j | 0 <= i < j < |t| && t[i] == '.' :: t[j] != '.')
  }

  /** Whether `t`, as a whole, is a number literal `-?\d+(\.\d+)?`. */
  predicate IsNumberLiteral(t: string)
  {
    if t != [] && t[0] == '-' then IsUnsignedLiteral(t[1..]) else IsUnsignedLiteral(t)
  }

  /** The length of the match of `\d+(\.\d+)?` at the start of `u`, or 0:
      the integer digits, then the point and the fraction digits when at
      least one digit follows the point. */
  function UnsignedLength(u: string): (k: nat)
    ensures k <= |u|
    ensures k > 0 <==> u != [] && IsDigit(u[0])
  {
    var intLen := DigitRun(u);
    if intLen == 0 then 0
    else if intLen < |u| && u[intLen] == '.' then
      var fracLen := DigitRun(u[intLen + 1..]);
      if fracLen == 0 then intLen else intLen + 1 + fracLen
    else intLen
  }

  /** The length of the match of `-?\d+(\.\d+)?` at the start of `s`, or 0
      when no number starts there. */
  function NumberLength(s: string): (n: nat)
    ensures n <= |s|
    ensures n > 0 <==> (s != [] && IsDigit(s[0])) || (1 < |s| && s[0] == '-' && IsDigit(s[1]))
  {
    var sign := if s != [] && s[0] == '-' then 1 else 0;
    var k := UnsignedLength(s[sign..]);
    if k == 0 then 0 else sign + k
  }

  /** The value of the fraction `.digits` at the start of `rest`, or 0 when
      no digit follows a point there. */
  function FractionPart(rest: string): (r: real)
    ensures r >= 0.0
  {
    if rest != [] && rest[0] == '.' && DigitRun(rest[1..]) > 0 then
      var fracLen := DigitRun(rest[1..]);
      DigitsValue(rest[1..][..fracLen]) as real / Pow10(fracLen) as real
    else 0.0
  }

  /** The value of the unsigned literal `\d+(\.\d+)?` at the start of `u`. */
  function UnsignedValue(u: string): (r: real)
    ensures r >= 0.0
  {
    var intLen := DigitRun(u);
    DigitsValue(u[..intLen]) as real + FractionPart(u[intLen..])
  }

  /** The exact value of a literal `-?\d+(\.\d+)?` (where the source calls
      `parseFloat`): a leading minus sign negates the unsigned value. */
  function NumberValue(lit: string): (r: real)
    ensures lit != [] && lit[0] == '-' ==> r <= 0.0
    ensures lit == [] || lit[0] != '-' ==> r >= 0.0
  {
    if lit != [] && lit[0] == '-' then -UnsignedValue(lit[1..]) else UnsignedValue(lit)
  }

  /** The tokens of `s`, left to right. */
  function Scan(s: string): (r: seq<Token>)
    ensures |r| <= |s|
    decreases |s|
  {
    if s == [] then []
    else if IsCommandLetter(s[0]) then [Letter(s[0])] + Scan(s[1..])
    else
      var n := NumberLength(s);
      if n > 0 then [Num(NumberValue(s[..n]))] + Scan(s[n..])
      else Scan(s[1..])
  }

  /** The global match: absent (the source's `null`) when nothing matches. */
  function Match(s: string): (r: Option<seq<Token>>)
    ensures r.None? <==> forall i | 0 <= i < |s| :: !IsCommandLetter(s[i]) && !IsDigit(s[i])
    ensures r.Some? ==> r.value != [] && r.value == Scan(s)
  {
    ScanEmptyIff(s);
    var tokens := Scan(s);
    if tokens == [] then None else Some(tokens)
  }

  /** There is no token exactly when the input holds no command letter and no digit. */
  lemma {:induction false} ScanEmptyIff(s: string)
    ensures Scan(s) == [] <==> forall i | 0 <= i < |s| :: !IsCommandLetter(s[i]) && !IsDigit(s[i])
    decreases |s|
  {
    if s != [] {
      ScanEmptyIff(s[1..]);
      if !IsCommandLetter(s[0]) && NumberLength(s) == 0 {
        assert Scan(s) == Scan(s[1..]);
        if !IsDigit(s[0]) {
          assert forall i | 1 <= i < |s| :: s[i] == s[1..][i - 1];
        }
      }
    }
  }

  // ---------------------------------------------------------------- numbers

  /** The digit run is exactly `k` long when the first `k` characters are
      digits and the next one, if any, is not. */
  lemma DigitRunIs(s: string, k: nat)
    requires k <= |s| && forall i | 0 <= i < k :: IsDigit(s[i])
    requires k < |s| ==> !IsDigit(s[k])
    ensures DigitRun(s) == k
  {
  }

  /** The unsigned match is the longest prefix that is an unsigned literal
      (and there is none when it is 0). */
  lemma UnsignedLengthIsLongestMatch(u: string)
    ensures var k := UnsignedLength(u);
            (k == 0 || IsUnsignedLiteral(u[..k]))
            && forall m | k < m <= |u| :: !IsUnsignedLiteral(u[..m])
  {
    var intLen := DigitRun(u);
    var k := UnsignedLength(u);
    if intLen == 0 {
      forall m | 0 < m <= |u|
        ensures !IsUnsignedLiteral(u[..m])
      {
        assert u[..m][0] == u[0];
      }
    } else if intLen < |u| && u[intLen] == '.' {
      var frac := u[intLen + 1..];
      var fracLen := DigitRun(frac);
      if fracLen == 0 {
        assert IsUnsignedLiteral(u[..k]) by {
          assert forall i | 0 <= i < k :: u[..k][i] == u[i];
        }
        forall m | k < m <= |u|
          ensures !IsUnsignedLiteral(u[..m])
        {
          var t := u[..m];
          if m == k + 1 {
            assert t[|t| - 1] == '.';
          } else {
            assert t[k] == '.' && t[k + 1] == frac[0];
          }
        }
      } else {
        assert IsUnsignedLiteral(u[..k]) by {
          var t := u[..k];
          forall i | 0 <= i < |t|
            ensures IsDigit(t[i]) || t[i] == '.'
            ensures t[i] == '.' ==> i == intLen
          {
            if i > intLen {
              assert t[i] == frac[i - intLen - 1];
            }
          }
          assert t[|t| - 1] == frac[fracLen - 1];
        }
        forall m | k < m <= |u|
          ensures !IsUnsignedLiteral(u[..m])
        {
          var t := u[..m];
          assert t[k] == frac[fracLen];
          assert t[intLen] == '.';
        }
      }
    } else {
      assert IsUnsignedLiteral(u[..k]) by {
        assert forall i | 0 <= i < k :: u[..k][i] == u[i];
      }
      forall m | k < m <= |u|
        ensures !IsUnsignedLiteral(u[..m])
      {
        assert u[..m][k] == u[k];
      }
    }
  }

  /** The number match is the longest prefix of `s` that is a number literal;
      it is 0 exactly when no prefix is one. */
  lemma NumberLengthIsLongestMatch(s: string)
    ensures var n := NumberLength(s);
            (n == 0 || IsNumberLiteral(s[..n]))
            && forall m | n < m <= |s| :: !IsNumberLiteral(s[..m])
  {
    var sign := if s != [] && s[0] == '-' then 1 else 0;
    var u := s[sign..];
    UnsignedLengthIsLongestMatch(u);
    forall m | sign <= m <= |s|
      ensures IsNumberLiteral(s[..m]) == IsUnsignedLiteral(u[..m - sign])
    {
      SignedPrefix(s, sign, m);
    }
    if sign == 1 {
      assert !IsNumberLiteral(s[..0]);
    }
  }

  /** A prefix past the sign is a number literal exactly when its part after
      the sign is an unsigned literal. */
  lemma SignedPrefix(s: string, sign: nat, m: nat)
    requires sign == (if s != [] && s[0] == '-' then 1 else 0) && sign <= m <= |s|
    ensures IsNumberLiteral(s[..m]) == IsUnsignedLiteral(s[sign..][..m - sign])
  {
    if sign == 1 && m > 0 {
      assert s[..m][1..] == s[1..][..m - 1];
    } else {
      assert s[..m] == s[0..][..m];
    }
  }

  /** The unsigned value of digits followed by something that is not a digit. */
  lemma UnsignedValueSplit(ds: string, rest: string)
    requires ds != [] && forall i | 0 <= i < |ds| :: IsDigit(ds[i])
    requires rest == [] || !IsDigit(rest[0])
    ensures UnsignedValue(ds + rest) == DigitsValue(ds) as real + FractionPart(rest)
  {
    var u := ds + rest;
    DigitRunIs(u, |ds|);
    assert u[..|ds|] == ds && u[|ds|..] == rest;
  }

  /** The value of a point followed by digits. */
  lemma FractionPartOf(fs: string)
    requires fs != [] && forall i | 0 <= i < |fs| :: IsDigit(fs[i])
    ensures FractionPart("." + fs) == DigitsValue(fs) as real / Pow10(|fs|) as real
  {
    assert ("." + fs)[1..] == fs;
    DigitRunIs(fs, |fs|);
    assert fs[..|fs|] == fs;
  }

  /** A literal of digits only is worth its decimal value. */
  lemma IntegerValue(ds: string)
    requires ds != [] && forall i | 0 <= i < |ds| :: IsDigit(ds[i])
    ensures NumberValue(ds) == DigitsValue(ds) as real
  {
    UnsignedValueSplit(ds, []);
    assert ds + [] == ds;
  }

  /** A literal with a fraction is worth the integer digits plus the fraction
      digits divided by the power of ten of their count. */
  lemma FractionValue(ds: string, fs: string)
    requires ds != [] && forall i | 0 <= i < |ds| :: IsDigit(ds[i])
    requires fs != [] && forall i | 0 <= i < |fs| :: IsDigit(fs[i])
    ensures NumberValue(ds + "." + fs)
            == DigitsValue(ds) as real + DigitsValue(fs) as real / Pow10(|fs|) as real
  {
    var rest := "." + fs;
    UnsignedValueSplit(ds, rest);
    FractionPartOf(fs);
    StringAppendAssociates(ds, ".", fs);
    assert (ds + rest)[0] == ds[0];
  }

  lemma StringAppendAssociates(p: string, q: string, r: string)
    ensures p + q + r == p + (q + r)
  {
  }

  /** A leading minus sign negates the value of the rest. */
  lemma NegativeValue(lit: string)
    requires lit != [] && IsDigit(lit[0])
    ensures NumberValue("-" + lit) == -NumberValue(lit)
  {
    assert ("-" + lit)[1..] == lit;
  }

  // ---------------------------------------------------------------- the token stream

  /** A character that is neither part of a token nor able to start or
      extend one: not a command letter, not a digit, not a point, not a minus. */
  predicate IsSeparator(c: char)
  {
    !IsCommandLetter(c) && !IsDigit(c) && c != '.' && c != '-'
  }

  /** A run of digits ends where a non-digit is appended. */
  lemma DigitRunAppend(x: string, y: string)
    requires y != [] && !IsDigit(y[0])
    ensures DigitRun(x + y) == DigitRun(x)
  {
    var k := DigitRun(x);
    assert forall i | 0 <= i < k :: (x + y)[i] == x[i];
    DigitRunIs(x + y, k);
  }

  /** Appending text that starts with neither a digit nor a point does not
      change the unsigned match. */
  lemma UnsignedLengthAppend(u: string, y: string)
    requires y != [] && !IsDigit(y[0]) && y[0] != '.'
    ensures UnsignedLength(u + y) == UnsignedLength(u)
  {
    DigitRunAppend(u, y);
    var intLen := DigitRun(u);
    if intLen > 0 && intLen < |u| && u[intLen] == '.' {
      assert (u + y)[intLen + 1..] == u[intLen + 1..] + y;
      DigitRunAppend(u[intLen + 1..], y);
    }
  }

  /** Appending such text after a non-empty prefix does not change the
      number match at its start. */
  lemma NumberLengthAppend(x: string, y: string)
    requires x != [] && y != [] && !IsDigit(y[0]) && y[0] != '.'
    ensures NumberLength(x + y) == NumberLength(x)
  {
    var sign := if x[0] == '-' then 1 else 0;
    assert (x + y)[sign..] == x[sign..] + y;
    UnsignedLengthAppend(x[sign..], y);
  }

  /** Tokens never span a separator: the tokens of `a`, a separator, then
      `b` are the tokens of `a` followed by the tokens of `b`. */
  lemma ScanSeparated(a: string, c: char, b: string)
    requires IsSeparator(c)
    ensures Scan(a + [c] + b) == Scan(a) + Scan(b)
  {
    assert a + [c] + b == a + ([c] + b) && ([c] + b)[0] == c && ([c] + b)[1..] == b;
    ScanBeforeSeparator(a, [c] + b);
  }

  /** `ScanSeparated` with the separator at the head of `y`. */
  lemma {:induction false} ScanBeforeSeparator(a: string, y: string)
    requires y != [] && IsSeparator(y[0])
    ensures Scan(a + y) == Scan(a) + Scan(y[1..])
    decreases |a|
  {
    if a == [] {
      assert a + y == y;
    } else {
      var k := if IsCommandLetter(a[0]) || NumberLength(a) == 0 then 1 else NumberLength(a);
      ScanBeforeSeparator(a[k..], y);
      SeparatedStep(a, y, k);
    }
  }

  lemma AppendAssociates(p: seq<Token>, q: seq<Token>, r: seq<Token>)
    ensures p + (q + r) == (p + q) + r
  {
  }

  /** Slicing `a + y` inside `a`. */
  lemma SliceAppend(a: string, y: string, k: nat)
    requires k <= |a|
    ensures (a + y)[..k] == a[..k] && (a + y)[k..] == a[k..] + y
  {
  }

  /** One step of `ScanBeforeSeparator`: the first token of `a` (or the
      skipped character) is the same whether or not `y` follows. */
  lemma SeparatedStep(a: string, y: string, k: nat)
    requires y != [] && IsSeparator(y[0]) && a != []
    requires k == if IsCommandLetter(a[0]) || NumberLength(a) == 0 then 1 else NumberLength(a)
    requires Scan(a[k..] + y) == Scan(a[k..]) + Scan(y[1..])
    ensures Scan(a + y) == Scan(a) + Scan(y[1..])
  {
    NumberLengthAppend(a, y);
    SliceAppend(a, y, k);
    var s := a + y;
    assert s[0] == a[0];
    var rest := Scan(a[k..]) + Scan(y[1..]);
    if IsCommandLetter(a[0]) {
      var head := [Letter(a[0])];
      assert Scan(s) == head + rest;
      assert Scan(a) == head + Scan(a[k..]);
      AppendAssociates(head, Scan(a[k..]), Scan(y[1..]));
    } else if k == NumberLength(a) {
      var head := [Num(NumberValue(a[..k]))];
      assert Scan(s) == head + rest;
      assert Scan(a) == head + Scan(a[k..]);
      AppendAssociates(head, Scan(a[k..]), Scan(y[1..]));
    } else {
      assert Scan(s) == rest;
      assert Scan(a) == Scan(a[k..]);
    }
  }

  /** A command letter alone is one letter token. */
  lemma ScanLetter(c: char)
    requires IsCommandLetter(c)
    ensures Scan([c]) == [Letter(c)]
  {
    assert [c][1..] == [];
  }

  /** A number literal alone is one number token carrying its value. */
  lemma ScanLiteral(t: string)
    requires IsNumberLiteral(t)
    ensures Scan(t) == [Num(NumberValue(t))]
  {
    NumberLengthIsLongestMatch(t);
    assert t[..|t|] == t;
    assert !IsCommandLetter(t[0]);
    assert t[|t|..] == [];
  }
}

