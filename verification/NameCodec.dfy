/** Names of up to six characters as 32-bit identifiers: base 39, digits 1 to 38. */
module NameCodec {

  const WORD := 0x1_0000_0000
  const NO_NAME := 0xFFFFFFFF

  /** The value of a char, whichever way the compiler signs it. */
  type Char = c: int | -128 <= c < 256

  type Digit = d: int | 0 <= d < 39

  predicate IsLower(c: int) { 97 <= c <= 122 }
  predicate IsUpper(c: int) { 65 <= c <= 90 }
  predicate IsDigit(c: int) { 48 <= c <= 57 }

  /** The digit that stands for a character. */
  function DigitOf(c: int): (d: Digit)
    ensures 1 <= d <= 38
  {
    if IsLower(c) then c + (11 - 97)
    else if IsUpper(c) then c + (11 - 65)
    else if IsDigit(c) then c - (48 - 1)
    else if c == 95 then 37
    else 38
  }

  /** The character that a digit is shown as; digit 0 stands for none and shows as '/'. */
  function SymbolOf(d: Digit): (c: Char)
    ensures 0 < c < 128
  {
    if d < 37 then if d > 10 then d + 65 - 11 else d + 48 - 1
    else if d == 37 then 95
    else 36
  }

  /** What becomes of a character: letters in upper case, digits, '_', and '$' for all else. */
  function Canonical(c: Char): (r: Char) {
    if IsLower(c) then c - 32
    else if IsUpper(c) || IsDigit(c) || c == 95 then c
    else 36
  }

  /** The characters that count: up to the terminator, six at most. */
  function Significant(name: seq<Char>, n: nat): (r: seq<Char>)
    ensures |r| <= n && |r| <= |name| && r == name[..|r|]
    ensures forall c :: c in r ==> c != 0
    ensures |r| < n && |r| < |name| ==> name[|r|] == 0
    decreases n
  {
    if n == 0 || name == [] || name[0] == 0 then [] else [name[0]] + Significant(name[1..], n - 1)
  }

  function Digits(s: seq<Char>): (r: seq<Digit>)
    ensures |r| == |s| && forall i :: 0 <= i < |s| ==> r[i] == DigitOf(s[i])
  {
    seq(|s|, i requires 0 <= i < |s| => DigitOf(s[i]))
  }

  function Symbols(ds: seq<Digit>): (r: seq<Char>)
    ensures |r| == |ds| && forall i :: 0 <= i < |ds| ==> r[i] == SymbolOf(ds[i])
  {
    seq(|ds|, i requires 0 <= i < |ds| => SymbolOf(ds[i]))
  }

  function CanonicalName(s: seq<Char>): (r: seq<Char>)
    ensures |r| == |s| && forall i :: 0 <= i < |s| ==> r[i] == Canonical(s[i])
  {
    seq(|s|, i requires 0 <= i < |s| => Canonical(s[i]))
  }

  /** The number that digits stand for, most significant first. */
  function Value(ds: seq<Digit>): (v: nat) {
    if ds == [] then 0 else Value(ds[..|ds| - 1]) * 39 + ds[|ds| - 1]
  }

  /** The last n digits of a number, without leading zeros. */
  function LowDigits(num: nat, n: nat): (r: seq<Digit>)
    ensures |r| <= n
    decreases n
  {
    if num == 0 || n == 0 then [] else LowDigits(num / 39, n - 1) + [num % 39]
  }

  function Power(n: nat): (p: nat)
    ensures p >= 1
  {
    if n == 0 then 1 else 39 * Power(n - 1)
  }

  /** The identifier of a name. */
  function NumOf(name: seq<Char>): (r: nat) {
    var s := Significant(name, 6);
    if s == [] then NO_NAME else Value(Digits(s))
  }

  /** The name of an identifier. */
  function TextOf(num: nat): (r: seq<Char>)
    ensures |r| <= 6
  {
    if num == NO_NAME then [] else Symbols(LowDigits(num, 6))
  }

  ghost predicate NameDigits(ds: seq<Digit>) {
    forall i :: 0 <= i < |ds| ==> 1 <= ds[i] <= 38
  }

  /** Digits from 1 to 38 never reach the next power of 39. */
  lemma {:induction false} ValueBounds(ds: seq<Digit>)
    requires NameDigits(ds)
    ensures Value(ds) < Power(|ds|) && (ds != [] ==> Value(ds) > 0)
  {
    if ds != [] {
      ValueBounds(ds[..|ds| - 1]);
    }
  }

  lemma {:induction false} PowerGrows(n: nat, m: nat)
    requires n <= m
    ensures Power(n) <= Power(m)
    decreases m
  {
    if n < m {
      PowerGrows(n, m - 1);
    }
  }

  /** Every name but the empty one encodes below 39^6, clear of the sentinel. */
  lemma NumBounds(name: seq<Char>)
    ensures Significant(name, 6) != [] ==> 0 < NumOf(name) <= 3518743760 < NO_NAME
    ensures Significant(name, 6) == [] ==> NumOf(name) == NO_NAME
    ensures 0 < NumOf(name) < WORD
  {
    var s := Significant(name, 6);
    ValueBounds(Digits(s));
    PowerGrows(|s|, 6);
    SixDigits();
  }

  lemma SixDigits()
    ensures Power(6) == 3518743761
  {
    assert Power(2) == 1521;
    assert Power(4) == 2313441;
  }

  /** Taking the digits of a value apart gives them back. */
  lemma {:induction false} DigitsBack(ds: seq<Digit>, n: nat)
    requires NameDigits(ds) && |ds| <= n
    ensures LowDigits(Value(ds), n) == ds
    decreases |ds|
  {
    ValueBounds(ds);
    if ds != [] {
      var front, d := ds[..|ds| - 1], ds[|ds| - 1];
      ValueBounds(front);
      DigitsBack(front, n - 1);
      assert Value(ds) / 39 == Value(front) && Value(ds) % 39 == d;
      assert ds == front + [d];
    }
  }

  /** Putting the digits of a number together gives it back, when n digits are enough. */
  lemma {:induction false} ValueBack(num: nat, n: nat)
    ensures num < Power(n) ==> Value(LowDigits(num, n)) == num
    ensures num >= Power(n) ==> Value(LowDigits(num, n)) < Power(n)
    decreases n
  {
    if num > 0 && n > 0 {
      ValueBack(num / 39, n - 1);
      var low := LowDigits(num / 39, n - 1);
      assert (low + [num % 39])[..|low|] == low;
      assert num == 39 * (num / 39) + num % 39;
    }
  }

  lemma SymbolsOfDigits(s: seq<Char>)
    ensures Symbols(Digits(s)) == CanonicalName(s)
  {
    forall i | 0 <= i < |s|
      ensures SymbolOf(DigitOf(s[i])) == Canonical(s[i])
    {
    }
  }

  /** Round trip from names: the first six characters come back in canonical form. */
  lemma NameRoundTrip(name: seq<Char>)
    ensures TextOf(NumOf(name)) == CanonicalName(Significant(name, 6))
  {
    var s := Significant(name, 6);
    NumBounds(name);
    SymbolsOfDigits(s);
    DigitsAt(s, 0);
    hide Value, LowDigits, Symbols, Digits, NameDigits;
    if s != [] {
      DigitsBack(Digits(s), 6);
    }
  }

  /** Two names share an identifier exactly when they have the same canonical form. */
  lemma NumInjective(a: seq<Char>, b: seq<Char>)
    ensures NumOf(a) == NumOf(b) <==> CanonicalName(Significant(a, 6)) == CanonicalName(Significant(b, 6))
  {
    NameRoundTrip(a);
    NameRoundTrip(b);
    var s, t := Significant(a, 6), Significant(b, 6);
    if CanonicalName(s) == CanonicalName(t) {
      SameCanonicalDigits(s, t);
    }
    hide TextOf, CanonicalName, Significant, Digits, Value;
  }

  lemma SameCanonicalDigits(s: seq<Char>, t: seq<Char>)
    requires CanonicalName(s) == CanonicalName(t)
    ensures Digits(s) == Digits(t)
  {
    assert |s| == |CanonicalName(s)| == |t|;
    forall i | 0 <= i < |s|
      ensures DigitOf(s[i]) == DigitOf(t[i])
    {
      assert CanonicalName(s)[i] == CanonicalName(t)[i];
    }
  }

  /** All digits of num, as many as there are, are non-zero. */
  predicate NoZeroDigit(num: nat) {
    num == 0 || (num % 39 != 0 && NoZeroDigit(num / 39))
  }

  lemma {:induction false} NoZeroDigits(num: nat, n: nat)
    requires num < Power(n)
    ensures NoZeroDigit(num) <==> NameDigits(LowDigits(num, n))
    decreases n
  {
    if num > 0 && n > 0 {
      NoZeroDigits(num / 39, n - 1);
      var low := LowDigits(num / 39, n - 1);
      var r := low + [num % 39];
      assert r[|low|] == num % 39;
      assert forall i :: 0 <= i < |low| ==> r[i] == low[i];
    }
  }

  /** Reading a shown digit back gives it, unless it is zero. */
  lemma SymbolsBack(ds: seq<Digit>)
    requires |ds| <= 6
    ensures Significant(Symbols(ds), 6) == Symbols(ds)
    ensures forall i :: 0 <= i < |ds| ==> Digits(Symbols(ds))[i] == if ds[i] == 0 then 38 else ds[i]
  {
    SignificantAll(Symbols(ds), 6);
  }

  lemma {:induction false} SignificantAll(s: seq<Char>, n: nat)
    requires |s| <= n && forall i :: 0 <= i < |s| ==> s[i] != 0
    ensures Significant(s, n) == s
    decreases n
  {
    if s != [] {
      SignificantAll(s[1..], n - 1);
    }
  }

  /** Round trip from identifiers: the identity exactly on the sentinel and on the numbers
      below 39^6 that have no zero digit. */
  lemma NumRoundTrip(num: nat)
    requires num < WORD
    ensures NumOf(TextOf(num)) == num <==> num == NO_NAME || (0 < num < 3518743761 && NoZeroDigit(num))
  {
    hide Significant, Value, Power, LowDigits, NoZeroDigit, NumOf, TextOf, DigitOf, SymbolOf;
    NumOfText(num);
    if num != NO_NAME && 0 < num < 3518743761 {
      ShortNumRoundTrip(num);
    }
  }

  lemma ShortNumRoundTrip(num: nat)
    requires 0 < num < 3518743761
    ensures NumOf(TextOf(num)) == num <==> NoZeroDigit(num)
  {
    var ds := LowDigits(num, 6);
    SixDigits();
    hide Significant, Value, Power, LowDigits, NoZeroDigit, NumOf, TextOf, DigitOf, SymbolOf;
    NumOfText(num);
    NoZeroDigits(num, 6);
    ValueBack(num, 6);
    if NoZeroDigit(num) {
      assert Digits(Symbols(ds)) == ds;
    } else {
      ZeroDigitLost(ds);
    }
  }

  lemma NumOfText(num: nat)
    requires num < WORD
    ensures num == NO_NAME || num == 0 ==> NumOf(TextOf(num)) == NO_NAME
    ensures var ds := LowDigits(num, 6);
            num != NO_NAME && num != 0 ==> NumOf(TextOf(num)) == Value(Digits(Symbols(ds))) < 3518743761
    ensures var ds := LowDigits(num, 6);
            forall i :: 0 <= i < |ds| ==> Digits(Symbols(ds))[i] == if ds[i] == 0 then 38 else ds[i]
  {
    var ds := LowDigits(num, 6);
    SymbolsBack(ds);
    hide Value, DigitOf, SymbolOf, Power, NumOf;
    NumBounds(Symbols(ds));
    NumOfNonEmpty(Symbols(ds));
  }

  lemma NumOfNonEmpty(s: seq<Char>)
    requires Significant(s, 6) == s
    ensures NumOf(s) == if s == [] then NO_NAME else Value(Digits(s))
  {
  }

  /** A zero digit shows as a character that reads back as 38. */
  lemma ZeroDigitLost(ds: seq<Digit>)
    requires |ds| <= 6 && !NameDigits(ds)
    requires forall i :: 0 <= i < |ds| ==> Digits(Symbols(ds))[i] == if ds[i] == 0 then 38 else ds[i]
    ensures Value(Digits(Symbols(ds))) != Value(ds) || LowDigits(Value(ds), 6) != ds
  {
    hide Value, LowDigits, DigitOf, SymbolOf;
    var es := Digits(Symbols(ds));
    var i :| 0 <= i < |ds| && ds[i] == 0;
    assert es[i] == 38;
    DigitsBack(es, 6);
  }

  // Which number a name gets, and which name a number: every character and every digit.

  /** The names of one character. */
  lemma NumOfOne(c: Char)
    requires c != 0
    ensures NumOf([c]) ==
            if 48 <= c <= 57 then c - 47        // '0' .. '9'
            else if 65 <= c <= 90 then c - 54   // 'A' .. 'Z'
            else if 97 <= c <= 122 then c - 86  // 'a' .. 'z'
            else if c == 95 then 37             // '_'
            else 38
  {
    SignificantAll([c], 6);
    ValueMore([], DigitOf(c));
    assert Digits([c]) == [] + [DigitOf(c)];
  }

  lemma ValueMore(ds: seq<Digit>, d: Digit)
    ensures Value(ds + [d]) == Value(ds) * 39 + d
  {
    assert (ds + [d])[..|ds|] == ds;
  }

  /** One more character, up to six. */
  lemma NumOfMore(s: seq<Char>, c: Char)
    requires 0 < |s| < 6 && 0 !in s && c != 0
    ensures NumOf(s + [c]) == NumOf(s) * 39 + NumOf([c])
  {
    assert Digits(s + [c]) == Digits(s) + [DigitOf(c)] && Digits([c]) == [] + [DigitOf(c)];
    hide Value, Digits, Significant, DigitOf;
    SignificantAll(s, 6);
    SignificantAll(s + [c], 6);
    SignificantAll([c], 6);
    ValueMore(Digits(s), DigitOf(c));
    ValueMore([], DigitOf(c));
    ValueNone();
  }

  lemma ValueNone()
    ensures Value([]) == 0
  {
  }

  /** Nothing behind six characters or a terminator counts; no character at all is the sentinel. */
  lemma NumOfRest(s: seq<Char>, rest: seq<Char>)
    requires |s| <= 6 && 0 !in s && (|s| == 6 || rest == [] || rest[0] == 0)
    ensures NumOf(s + rest) == NumOf(s)
    ensures s == [] ==> NumOf(s + rest) == 0xFFFFFFFF
  {
    SignificantFirst(s, rest, 6);
    SignificantAll(s, 6);
  }

  lemma {:induction false} SignificantFirst(s: seq<Char>, rest: seq<Char>, n: nat)
    requires |s| <= n && 0 !in s && (|s| == n || rest == [] || rest[0] == 0)
    ensures Significant(s + rest, n) == s
    decreases n
  {
    if s == [] {
      assert s + rest == rest;
    } else {
      SignificantFirst(s[1..], rest, n - 1);
      assert (s + rest)[1..] == s[1..] + rest;
    }
  }

  /** The numbers of one digit: the character each is shown as. */
  lemma TextOfOne(num: nat)
    requires 1 <= num <= 38
    ensures TextOf(num) == [if num <= 10 then num + 47       // '0' .. '9'
                            else if num <= 36 then num + 54  // 'A' .. 'Z'
                            else if num == 37 then 95        // '_'
                            else 36]                         // '$'
  {
    assert LowDigits(num / 39, 5) == [];
    assert LowDigits(num, 6) == [] + [num % 39];
  }

  /** One more digit: the text of the quotient, without its first place when it has six,
      and the character of the last digit, which is '/' for zero. */
  lemma TextOfMore(num: nat)
    requires 39 <= num < WORD && num != NO_NAME
    ensures var front := TextOf(num / 39);
            var last := if num % 39 == 0 then [47] else TextOf(num % 39);
            TextOf(num) == (if |front| == 6 then front[1..] else front) + last
  {
    var q, d := num / 39, num % 39;
    FewerDigits(q, 5);
    assert LowDigits(num, 6) == LowDigits(q, 5) + [d];
    assert Symbols(LowDigits(num, 6)) == Symbols(LowDigits(q, 5)) + [SymbolOf(d)];
    if d != 0 {
      TextOfOne(d);
    }
  }

  lemma TextOfNone()
    ensures TextOf(0) == [] && TextOf(0xFFFFFFFF) == []
  {
  }

  lemma {:induction false} FewerDigits(num: nat, n: nat)
    ensures var more := LowDigits(num, n + 1);
            LowDigits(num, n) == if |more| == n + 1 then more[1..] else more
    decreases n
  {
    if num != 0 && n > 0 {
      FewerDigits(num / 39, n - 1);
    }
  }

  /** The magic numbers of tasks and semaphores, and a number with a zero digit. */
  lemma KnownNumbers()
    ensures NumOf([114, 116, 116, 97, 115, 107]) == 0x9ad25f6f  // "rttask"
    ensures NumOf([114, 116, 115, 101, 109]) == 0x3f83ebb       // "rtsem"
    ensures TextOf(39) == [48, 47]
  {
    hide NumOf, TextOf;
    NumOfOne(114);
    NumOfOne(116);
    NumOfOne(97);
    NumOfOne(115);
    NumOfOne(107);
    NumOfOne(101);
    NumOfOne(109);
    NumOfFive(114, 116, 116, 97, 115);
    NumOfMore([114, 116, 116, 97, 115], 107);
    assert [114, 116, 116, 97, 115] + [107] == [114, 116, 116, 97, 115, 107];
    NumOfFive(114, 116, 115, 101, 109);
    TextOfMore(39);
    TextOfOne(1);
  }

  lemma NumOfFive(a: Char, b: Char, c: Char, d: Char, e: Char)
    requires 0 !in [a, b, c, d, e]
    ensures NumOf([a, b, c, d, e]) ==
            (((NumOf([a]) * 39 + NumOf([b])) * 39 + NumOf([c])) * 39 + NumOf([d])) * 39 + NumOf([e])
  {
    hide NumOf;
    NumOfMore([a], b);
    NumOfMore([a, b], c);
    NumOfMore([a, b, c], d);
    NumOfMore([a, b, c, d], e);
    assert [a] + [b] == [a, b] && [a, b] + [c] == [a, b, c];
    assert [a, b, c] + [d] == [a, b, c, d] && [a, b, c, d] + [e] == [a, b, c, d, e];
  }

  // The two loops.

  /** What an unsigned 32-bit variable keeps of a number. */
  function ToWord(x: int): (r: nat)
    ensures 0 <= r < WORD && (r - x) % WORD == 0
  {
    x % WORD
  }

  /** A 32-bit signed value, as two's complement leaves it. */
  function Wrap32(x: int): (r: int)
    ensures -0x8000_0000 <= r < 0x8000_0000 && (r - x) % WORD == 0
  {
    var u := x % WORD;
    if u < 0x8000_0000 then u else u - WORD
  }

  lemma PrefixValue(ds: seq<Digit>, i: nat)
    requires NameDigits(ds) && i < |ds| <= 6
    ensures Value(ds[..i + 1]) == ToWord(Value(ds[..i]) * 39 + ds[i])
  {
    assert ds[..i + 1][..i] == ds[..i];
    ValueBounds(ds[..i + 1]);
    PowerGrows(i + 1, 6);
    SixDigits();
  }

  /** The loop's test finds the end of the significant characters. */
  lemma SignificantEnd(name: seq<Char>, i: nat)
    requires (0 in name || |name| >= 6) && i < 6 && i <= |Significant(name, 6)|
    ensures i < |name|
    ensures name[i] == 0 <==> i == |Significant(name, 6)|
    ensures name[i] != 0 ==> Significant(name, 6)[i] == name[i]
  {
    var s := Significant(name, 6);
    if i < |s| {
      assert s[i] in s && s[i] == name[..|s|][i];
    }
  }

  /** The digit computed for one character. */
  method DigitFor(ch: Char) returns (c: int)
    ensures c == DigitOf(ch)
  {
    c := ch;
    if c >= 97 && c <= 122 {
      c := c + (11 - 97);
    } else if c >= 65 && c <= 90 {
      c := c + (11 - 65);
    } else if c >= 48 && c <= 57 {
      c := c - (48 - 1);
    } else {
      c := if c == 95 then 37 else 38;
    }
  }

  /** value is what the first i characters of name make. */
  ghost predicate ReadSoFar(name: seq<Char>, i: nat, value: nat) {
    i <= |Significant(name, 6)| && value == Value(Digits(Significant(name, 6))[..i])
  }

  lemma ReadOne(name: seq<Char>, i: nat, value: nat)
    requires (0 in name || |name| >= 6) && i < 6 && ReadSoFar(name, i, value)
    ensures i < |name|
    ensures name[i] == 0 ==> i == |Significant(name, 6)|
    ensures name[i] != 0 ==> ReadSoFar(name, i + 1, ToWord(value * 39 + DigitOf(name[i])))
  {
    hide Value, Significant, ToWord, DigitOf, Digits, NameDigits;
    SignificantEnd(name, i);
    var s := Significant(name, 6);
    DigitsAt(s, if i < |s| then i else 0);
    if name[i] != 0 {
      PrefixValue(Digits(s), i);
    }
  }

  lemma DigitsAt(s: seq<Char>, i: nat)
    ensures |Digits(s)| == |s| && NameDigits(Digits(s))
    ensures i < |s| ==> Digits(s)[i] == DigitOf(s[i])
  {
  }

  lemma ReadAll(name: seq<Char>, i: nat, value: nat)
    requires ReadSoFar(name, i, value) && i == |Significant(name, 6)|
    ensures NumOf(name) == if i == 0 then NO_NAME else value
  {
    hide Value, Significant;
    assert Digits(Significant(name, 6))[..i] == Digits(Significant(name, 6));
  }

  /** Reads up to the terminator, six characters at most. */
  method Nam2Num(name: seq<Char>) returns (retval: nat)
    requires 0 in name || |name| >= 6
    ensures retval == NumOf(name)
  {
    retval := 0;
    var i := 0;
    assert ReadSoFar(name, 0, 0);
    hide ReadSoFar, Significant, ToWord, DigitOf, NumOf;
    while i < 6
      invariant 0 <= i <= 6 && ReadSoFar(name, i, retval)
      decreases 6 - i
    {
      ReadOne(name, i, retval);
      if name[i] == 0 {
        break;
      }
      var c := DigitFor(name[i]);
      retval := ToWord(retval * 39 + c);
      i := i + 1;
    }
    assert i <= |Significant(name, 6)| <= 6 by {
      ReadLength(name, i, retval);
    }
    ReadAll(name, i, retval);
    if i == 0 {
      return NO_NAME;
    }
  }

  lemma ReadLength(name: seq<Char>, i: nat, value: nat)
    requires ReadSoFar(name, i, value)
    ensures i <= |Significant(name, 6)| <= 6
  {
  }

  /** The remainder comes out right although q * 39 may exceed a signed int. */
  lemma RemainderWraps(num: nat)
    requires num < WORD
    ensures num / 39 < 0x8000_0000 && ToWord(num - Wrap32(num / 39 * 39)) == num % 39
  {
    var q := num / 39;
    assert num == q * 39 + num % 39;
    assert 0 <= q * 39 < WORD;
    assert Wrap32(q * 39) == q * 39 || Wrap32(q * 39) == q * 39 - WORD;
  }

  /** The character stored for digit c. */
  method Symbol(c: nat) returns (symbol: Char)
    requires c < 39
    ensures symbol == SymbolOf(c)
  {
    if c < 37 {
      symbol := if c > 10 then c + 65 - 11 else c + 48 - 1;
    } else {
      symbol := if c == 37 then 95 else 36;
    }
  }

  /** Fills the buffer with the low digits of num, from place 5 downwards. */
  method WriteDigits(num: nat, name: array<Char>) returns (last: int)
    requires num < WORD && name.Length >= 6
    modifies name
    ensures -1 <= last <= 5 && name[last + 1..6] == Symbols(LowDigits(num, 6))
    ensures forall j :: 6 <= j < name.Length ==> name[j] == old(name[j])
  {
    var rest: nat := num;
    last := 5;
    ghost var tail: seq<Digit> := [];
    assert Taken(num, rest, 6, tail) && Shown(name, 5, tail);
    hide LowDigits, Symbols, Taken, Shown;
    while rest != 0 && last >= 0
      invariant -1 <= last <= 5 && rest < WORD
      invariant Taken(num, rest, last + 1, tail) && Shown(name, last, tail)
      invariant forall j :: 6 <= j < name.Length ==> name[j] == old(name[j])
      decreases last
    {
      rest, tail := StoreDigit(num, rest, name, last, tail);
      last := last - 1;
    }
    AllTaken(num, rest, last + 1, tail);
    AllShown(name, last, tail);
  }

  /** Behind place last the buffer shows the digits of tail. */
  ghost predicate Shown(name: array<Char>, last: int, tail: seq<Digit>)
    reads name
  {
    && name.Length >= 6 && -1 <= last <= 5 && |tail| == 5 - last
    && forall j :: last < j < 6 ==> name[j] == SymbolOf(tail[j - last - 1])
  }

  lemma AllShown(name: array<Char>, last: int, tail: seq<Digit>)
    requires Shown(name, last, tail)
    ensures name[last + 1..6] == Symbols(tail)
  {
    hide SymbolOf;
    var s, r := name[last + 1..6], Symbols(tail);
    assert |s| == |r| && forall i :: 0 <= i < |s| ==> s[i] == r[i];
  }

  /** One round: the last digit of rest is shown at place last. */
  method StoreDigit(ghost num: nat, rest: nat, name: array<Char>, last: int, ghost tail: seq<Digit>)
    returns (q: nat, ghost more: seq<Digit>)
    requires 0 < rest < WORD && 0 <= last && Shown(name, last, tail) && Taken(num, rest, last + 1, tail)
    modifies name
    ensures q < WORD && Shown(name, last - 1, more) && Taken(num, q, last, more)
    ensures forall j :: 6 <= j < name.Length ==> name[j] == old(name[j])
  {
    hide ToWord, Wrap32, LowDigits, SymbolOf, Taken;
    RemainderWraps(rest);
    ghost var d := rest % 39;
    q := rest / 39;
    var c := ToWord(rest - Wrap32(q * 39));
    TakeDigit(num, rest, last, tail, q, d);
    more := [d] + tail;
    name[last] := Symbol(c);
  }

  /** The digits of num are those of rest, n places at most, and then those of tail. */
  ghost predicate Taken(num: nat, rest: nat, n: nat, tail: seq<Digit>) {
    LowDigits(num, 6) == LowDigits(rest, n) + tail
  }

  lemma TakeDigit(num: nat, rest: nat, i: nat, tail: seq<Digit>, q: nat, d: Digit)
    requires rest == q * 39 + d != 0 && Taken(num, rest, i + 1, tail)
    ensures Taken(num, q, i, [d] + tail)
  {
    assert rest / 39 == q && rest % 39 == d;
    assert LowDigits(rest, i + 1) == LowDigits(q, i) + [d];
  }

  lemma AllTaken(num: nat, rest: nat, n: nat, tail: seq<Digit>)
    requires (rest == 0 || n == 0) && Taken(num, rest, n, tail)
    ensures LowDigits(num, 6) == tail
  {
  }

  /** Writes the text of num, and a terminator. The documented buffer of six characters is
      enough exactly for the numbers with a shorter text; a longer text takes the seventh. */
  method Num2Nam(num: nat, name: array<Char>)
    requires num < WORD && name.Length >= 6
    requires NeedsSeven(num) ==> name.Length >= 7
    modifies name
    ensures var t := TextOf(num); |t| < name.Length && name[..|t|] == t && name[|t|] == 0
    ensures name.Length >= 7 ==> name[6] == if NeedsSeven(num) then 0 else old(name[6])
    ensures forall k :: 7 <= k < name.Length ==> name[k] == old(name[k])
  {
    if num == NO_NAME {
      name[0] := 0;
      return;
    }
    SeventhPlace(num);
    hide LowDigits, Power, NeedsSeven;
    var i := WriteDigits(num, name);
    ShiftLeft(name, i, Symbols(LowDigits(num, 6)));
  }

  predicate NeedsSeven(num: nat) {
    num >= Power(5) && num != NO_NAME
  }

  /** The terminator goes to the seventh place exactly for the numbers from 39^5 on. */
  lemma SeventhPlace(num: nat)
    ensures |TextOf(num)| == 6 <==> NeedsSeven(num)
  {
    DigitCount(num, 6);
    hide Power, LowDigits;
  }

  /** n places are all used exactly from 39^(n-1) on. */
  lemma {:induction false} DigitCount(num: nat, n: nat)
    requires n > 0
    ensures |LowDigits(num, n)| == n <==> num >= Power(n - 1)
    decreases n
  {
    if n > 1 {
      DigitCount(num / 39, n - 1);
      assert num == 39 * (num / 39) + num % 39;
    }
  }

  /** So every name of six characters or more needs the seventh place when it comes back. */
  lemma FullNameNeedsSeven(name: seq<Char>)
    ensures NeedsSeven(NumOf(name)) <==> |Significant(name, 6)| == 6
  {
    NameRoundTrip(name);
    SeventhPlace(NumOf(name));
    hide NeedsSeven, Significant, TextOf, NumOf;
  }

  /** The least number that does is 39^5; "rttask" is a name that does. */
  lemma NeedsSevenExamples()
    ensures NeedsSeven(90224199) && !NeedsSeven(90224198)
    ensures NeedsSeven(NumOf([114, 116, 116, 97, 115, 107]))
  {
    SixDigits();
    assert Power(6) == 39 * Power(5);
    SignificantAll([114, 116, 116, 97, 115, 107], 6);
    FullNameNeedsSeven([114, 116, 116, 97, 115, 107]);
  }

  /** Moves the text t, which ends at place 5, to the front and terminates it. */
  method ShiftLeft(name: array<Char>, last: int, ghost t: seq<Char>)
    requires name.Length >= 6 && -1 <= last <= 5 && name[last + 1..6] == t && |t| < name.Length
    modifies name
    ensures name[..|t|] == t && name[|t|] == 0
    ensures forall k :: 6 <= k < name.Length ==> name[k] == if k == |t| then 0 else old(name[k])
  {
    var i, k := last, 0;
    while i < 5
      invariant last <= i <= 5 && k == i - last
      invariant name[..k] == t[..k]
      invariant name[i + 1..6] == t[k..]
      invariant forall j :: 6 <= j < name.Length ==> name[j] == old(name[j])
    {
      i := i + 1;
      assert name[i] == t[k..][0];
      name[k] := name[i];
      k := k + 1;
    }
    name[k] := 0;
  }
}
