/** Option legs as text: the printer of the option plans and the parser of the option backtest. */
module OptionLegs {
  import opened Options
  import opened Rounding

  // ---------- Numbers ----------

  predicate IsDigit(c: char) {
    '0' <= c <= '9'
  }

  predicate AllDigits(s: string) {
    forall i :: 0 <= i < |s| ==> IsDigit(s[i])
  }

  function DigitValue(c: char): nat
    requires IsDigit(c)
  {
    c as int - '0' as int
  }

  function DigitChar(d: nat): (c: char)
    requires d < 10
    ensures IsDigit(c) && DigitValue(c) == d
  {
    ('0' as int + d) as char
  }

  function Digits(n: nat): (s: string)
    ensures s != "" && AllDigits(s)
  {
    if n < 10 then [DigitChar(n)] else Digits(n / 10) + [DigitChar(n % 10)]
  }

  function NatOf(s: string): nat
    requires AllDigits(s)
  {
    if s == "" then 0 else NatOf(s[..|s| - 1]) * 10 + DigitValue(s[|s| - 1])
  }

  lemma {:induction false} NatOfDigits(n: nat)
    ensures NatOf(Digits(n)) == n
  {
    if n >= 10 {
      NatOfDigits(n / 10);
      assert Digits(n)[..|Digits(n)| - 1] == Digits(n / 10);
    }
  }

  function Pow10(k: nat): nat {
    if k == 0 then 1 else 10 * Pow10(k - 1)
  }

  lemma {:induction false} Pow10IsPositive(k: nat)
    ensures Pow10(k) > 0
  {
    if k > 0 {
      Pow10IsPositive(k - 1);
    }
  }

  // ---------- Decimals ----------

  /** Where the first dot is, or the length when there is none. */
  function DotAt(s: string): (k: nat)
    ensures k <= |s| && (k < |s| ==> s[k] == '.')
    ensures forall i :: 0 <= i < k ==> s[i] != '.'
  {
    if s == "" || s[0] == '.' then 0 else 1 + DotAt(s[1..])
  }

  /** Digits, and perhaps a dot and more digits. */
  predicate IsDecimal(s: string) {
    var k := DotAt(s);
    && k > 0 && AllDigits(s[..k])
    && (k < |s| ==> k + 1 < |s| && AllDigits(s[k + 1..]))
  }

  function DecimalValue(s: string): (x: real)
    requires IsDecimal(s)
    ensures x >= 0.0
  {
    var k := DotAt(s);
    if k == |s| then NatOf(s[..k]) as real
    else
      Pow10IsPositive(|s| - k - 1);
      NatOf(s[..k]) as real + NatOf(s[k + 1..]) as real / Pow10(|s| - k - 1) as real
  }

  lemma {:induction false} DotAtConcat(a: string, b: string)
    requires AllDigits(a)
    ensures DotAt(a + "." + b) == |a| && DotAt(a) == |a|
  {
    var s := a + "." + b;
    if a != "" {
      DotAtConcat(a[1..], b);
      assert s[1..] == a[1..] + "." + b;
      assert s[0] == a[0];
    } else {
      assert s[0] == '.';
    }
  }

  // ---------- Strikes ----------

  const MICRO := 1000000
  const CENT := 10000

  function RStrip(s: string, c: char): string {
    if s != "" && s[|s| - 1] == c then RStrip(s[..|s| - 1], c) else s
  }

  /** Two decimals, as `:.2f` prints them. */
  function Fixed2(cents: nat): string {
    Digits(cents / 100) + "." + [DigitChar(cents % 100 / 10), DigitChar(cents % 10)]
  }

  function CentsOf(micro: nat): (cents: nat) {
    RoundHalfEven(micro as real / CENT as real)
  }

  /** A strike of some millionths: an integer without decimals, or else two decimals without trailing zeros. */
  function FormatStrike(micro: int): string {
    var sign := if micro < 0 then "-" else "";
    var magnitude := if micro < 0 then -micro else micro;
    sign + (if magnitude % MICRO == 0 then Digits(magnitude / MICRO)
            else RStrip(RStrip(Fixed2(CentsOf(magnitude)), '0'), '.'))
  }

  /** The shortest text of a number of cents. */
  function CentsText(cents: nat): string {
    if cents % 100 == 0 then Digits(cents / 100)
    else if cents % 10 == 0 then Digits(cents / 100) + "." + [DigitChar(cents % 100 / 10)]
    else Fixed2(cents)
  }

  lemma RStripLast(s: string, d: char, c: char)
    ensures RStrip(s + [d], c) == if d == c then RStrip(s, c) else s + [d]
  {
    assert (s + [d])[..|s|] == s;
  }

  /** Stripping zeros stops at the dot, and a dot is stripped only when nothing is left behind it. */
  lemma StrippingGivesShortest(cents: nat)
    ensures RStrip(RStrip(Fixed2(cents), '0'), '.') == CentsText(cents)
  {
    hide RStrip, Digits;
    var whole, d1, d2 := Digits(cents / 100), DigitChar(cents % 100 / 10), DigitChar(cents % 10);
    var s1 := whole + "." + [d1];
    assert cents % 100 == 10 * (cents % 100 / 10) + cents % 10;
    assert d1 == '0' <==> cents % 100 / 10 == 0;
    assert d2 == '0' <==> cents % 10 == 0;
    assert Fixed2(cents) == s1 + [d2];
    RStripLast(s1, d2, '0');
    RStripLast(s1, d2, '.');
    RStripLast(whole + ".", d1, '0');
    RStripLast(whole + ".", d1, '.');
    RStripLast(whole, '.', '0');
    RStripLast(whole, '.', '.');
    DigitsAreBare(whole);
    assert whole == whole[..|whole| - 1] + [whole[|whole| - 1]];
    RStripLast(whole[..|whole| - 1], whole[|whole| - 1], '.');
  }

  lemma CentsTextIsDecimal(cents: nat)
    ensures IsDecimal(CentsText(cents)) && DecimalValue(CentsText(cents)) == cents as real / 100.0
  {
    hide IsDecimal, DecimalValue, Digits, NatOf, Pow10, AllDigits, DigitValue;
    var w, a, b := cents / 100, cents % 100 / 10, cents % 10;
    var whole, d1, d2 := Digits(w), DigitChar(a), DigitChar(b);
    NatOfDigits(w);
    Places(cents, w, a, b);
    if cents % 100 == 0 {
      WholeValue(whole);
    } else if cents % 10 == 0 {
      OneDigit(d1);
      FractionValue(whole, [d1]);
    } else {
      TwoDigits(d1, d2);
      FractionValue(whole, [d1, d2]);
    }
  }

  lemma Places(cents: nat, w: nat, a: nat, b: nat)
    requires w == cents / 100 && a == cents % 100 / 10 && b == cents % 10
    ensures cents == 100 * w + 10 * a + b
    ensures cents % 100 == 0 ==> a == 0 && b == 0
    ensures w as real + (10 * a + b) as real / 100.0 == cents as real / 100.0
    ensures b == 0 ==> w as real + a as real / 10.0 == cents as real / 100.0
  {
    assert cents % 100 == 10 * a + b;
  }

  lemma OneDigit(d: char)
    requires IsDigit(d)
    ensures AllDigits([d]) && NatOf([d]) == DigitValue(d) && Pow10(1) == 10
  {
    assert [d][..0] == "";
  }

  lemma TwoDigits(d: char, e: char)
    requires IsDigit(d) && IsDigit(e)
    ensures AllDigits([d, e]) && NatOf([d, e]) == 10 * DigitValue(d) + DigitValue(e) && Pow10(2) == 100
  {
    OneDigit(d);
    assert [d, e][..1] == [d];
  }

  lemma WholeValue(whole: string)
    requires whole != "" && AllDigits(whole)
    ensures IsDecimal(whole) && DecimalValue(whole) == NatOf(whole) as real
  {
    DotAtConcat(whole, "");
    assert whole[..|whole|] == whole;
  }

  lemma FractionValue(whole: string, fraction: string)
    requires whole != "" && fraction != "" && AllDigits(whole) && AllDigits(fraction)
    ensures Pow10(|fraction|) > 0
    ensures var s := whole + "." + fraction;
            && IsDecimal(s)
            && DecimalValue(s) == NatOf(whole) as real + NatOf(fraction) as real / Pow10(|fraction|) as real
  {
    hide Pow10, NatOf, DotAt, AllDigits;
    Pow10IsPositive(|fraction|);
    DotAtConcat(whole, fraction);
    var s := whole + "." + fraction;
    assert s[..|whole|] == whole && s[|whole| + 1..] == fraction;
  }

  lemma CentsTextIsBare(cents: nat)
    ensures CentsText(cents) != "" && Bare(CentsText(cents)) && CentsText(cents)[0] != '-'
  {
    DigitsAreBare(Digits(cents / 100));
  }

  // ---------- Words ----------

  /** ASCII white space: the blank, tab to carriage return, and the four separators. */
  predicate IsSpace(c: char) {
    c == ' ' || '\t' <= c <= '\r' || '\U{1C}' <= c <= '\U{1F}'
  }

  /** No white space inside. */
  predicate Bare(s: string) {
    forall i :: 0 <= i < |s| ==> !IsSpace(s[i])
  }

  lemma DigitsAreBare(s: string)
    requires AllDigits(s)
    ensures Bare(s) && '-' !in s
  {
    forall i | 0 <= i < |s|
      ensures !IsSpace(s[i]) && s[i] != '-'
    {
      assert IsDigit(s[i]);
    }
  }

  /** One character more: white space ends a word, and any other character starts one or extends the last one. */
  function WithNext(ws: seq<string>, starts: bool, c: char): seq<string>
    requires !IsSpace(c) && !starts ==> ws != []
  {
    if IsSpace(c) then ws
    else if starts then ws + [[c]]
    else ws[..|ws| - 1] + [ws[|ws| - 1] + [c]]
  }

  /** The maximal pieces without white space, in order. */
  function Words(s: string): (ws: seq<string>)
    ensures s != "" && !IsSpace(s[|s| - 1]) ==> ws != []
  {
    if s == "" then []
    else
      var n := |s| - 1;
      WithNext(Words(s[..n]), n == 0 || IsSpace(s[n - 1]), s[n])
  }

  lemma NextJoins(a: seq<string>, b: seq<string>, starts: bool, c: char)
    requires !IsSpace(c) && !starts ==> b != []
    ensures WithNext(a + b, starts, c) == a + WithNext(b, starts, c)
  {
    if !IsSpace(c) && !starts {
      assert (a + b)[..|a + b| - 1] == a + b[..|b| - 1];
    }
  }

  predicate EndsWord(s: string) {
    s == "" || IsSpace(s[|s| - 1])
  }

  lemma WordsSnoc(s: string, c: char)
    ensures !IsSpace(c) && !EndsWord(s) ==> Words(s) != []
    ensures Words(s + [c]) == WithNext(Words(s), EndsWord(s), c)
  {
    assert (s + [c])[..|s|] == s;
  }

  lemma NoWords()
    ensures Words("") == []
  {
  }

  /** White space separates the words before it from the words behind it. */
  lemma {:induction false} SpaceSeparates(a: string, gap: char, b: string)
    requires IsSpace(gap)
    ensures Words(a + [gap] + b) == Words(a) + Words(b)
  {
    hide Words, WithNext, EndsWord, IsSpace;
    NoWords();
    if b == "" {
      WordsSnoc(a, gap);
      SpaceAddsNothing(Words(a), EndsWord(a), gap);
      assert a + [gap] + b == a + [gap];
    } else {
      var n := |b| - 1;
      var before := a + [gap] + b[..n];
      SpaceSeparates(a, gap, b[..n]);
      assert b == b[..n] + [b[n]] && a + [gap] + b == before + [b[n]];
      WordsSnoc(before, b[n]);
      WordsSnoc(b[..n], b[n]);
      SameEnd(a, gap, b[..n]);
      NextJoins(Words(a), Words(b[..n]), EndsWord(b[..n]), b[n]);
    }
  }

  lemma WordsJoin(a: string, b: string)
    ensures Words(a + " " + b) == Words(a) + Words(b)
  {
    hide Words;
    SpaceSeparates(a, ' ', b);
    assert " " == [' '];
  }

  lemma SpaceAddsNothing(ws: seq<string>, starts: bool, gap: char)
    requires IsSpace(gap)
    ensures WithNext(ws, starts, gap) == ws
  {
  }

  lemma SameEnd(a: string, gap: char, b: string)
    requires IsSpace(gap)
    ensures EndsWord(a + [gap] + b) <==> EndsWord(b)
  {
  }

  /** A character of the text separates words if and only if its code is 32, 9 to 13 or 28 to 31. */
  lemma SpacesAreListed(a: string, c: char, b: string)
    ensures if c as int == 32 || 9 <= c as int <= 13 || 28 <= c as int <= 31
            then Words(a + [c] + b) == Words(a) + Words(b)
            else Words([c]) == [[c]]
  {
    if IsSpace(c) {
      hide Words;
      SpaceSeparates(a, c, b);
    } else {
      OneWord([c]);
    }
  }

  lemma {:induction false} OneWord(word: string)
    requires word != "" && Bare(word)
    ensures Words(word) == [word]
  {
    hide Words;
    var n := |word| - 1;
    NoWords();
    assert word == word[..n] + [word[n]];
    WordsSnoc(word[..n], word[n]);
    if n > 0 {
      OneWord(word[..n]);
    }
  }

  // ---------- Legs ----------

  datatype LegSide = Buy | Sell

  datatype Right = Call | Put

  /** A calendar date as `YYYY-MM-DD`. */
  predicate IsIsoDate(s: string) {
    && |s| == 10 && s[4] == '-' && s[7] == '-'
    && AllDigits(s[..4]) && AllDigits(s[5..7]) && AllDigits(s[8..])
  }

  type IsoDate = s: string | IsIsoDate(s) witness "2024-01-02"

  predicate IsSymbol(s: string) {
    s != "" && forall i :: 0 <= i < |s| ==> 'A' <= s[i] <= 'Z'
  }

  datatype ParsedLeg = ParsedLeg(
    side: LegSide, quantity: nat, symbol: string, expiry: string, strike: real, right: Right)

  /** A leg of a plan, with its strike in millionths. */
  datatype PlanLeg = PlanLeg(
    side: LegSide, quantity: nat, symbol: string, expiry: IsoDate, strike: int, right: Right)

  function SideText(side: LegSide): string {
    if side == Buy then "BUY" else "SELL"
  }

  function RightText(right: Right): string {
    if right == Call then "CALL" else "PUT"
  }

  function LegText(side: LegSide, quantity: nat, symbol: string, expiry: string, strike: string, right: Right): string {
    SideText(side) + " " + Digits(quantity) + " " + symbol + " " + expiry + " " + strike + " " + RightText(right)
  }

  /** A leg as the option plan writes it. */
  function PlanText(leg: PlanLeg): string {
    LegText(leg.side, leg.quantity, leg.symbol, leg.expiry, FormatStrike(leg.strike), leg.right)
  }

  /** Six words, each of its class; anything else is an error. */
  function ParseLeg(text: string): Option<ParsedLeg> {
    var ws := Words(text);
    if && |ws| == 6
       && (ws[0] == "BUY" || ws[0] == "SELL")
       && ws[1] != "" && AllDigits(ws[1])
       && IsSymbol(ws[2]) && IsIsoDate(ws[3]) && IsDecimal(ws[4])
       && (ws[5] == "CALL" || ws[5] == "PUT")
    then Some(ParsedLeg(if ws[0] == "BUY" then Buy else Sell, NatOf(ws[1]), ws[2], ws[3], DecimalValue(ws[4]),
                        if ws[5] == "CALL" then Call else Put))
    else None
  }

  lemma FixedWordsAreBare(side: LegSide, right: Right, expiry: IsoDate)
    ensures Bare(SideText(side)) && Bare(RightText(right)) && Bare(expiry) && expiry != ""
  {
    DigitsAreBare(expiry[..4]);
    DigitsAreBare(expiry[5..7]);
    DigitsAreBare(expiry[8..]);
    forall i | 0 <= i < 10
      ensures !IsSpace(expiry[i])
    {
      assert i < 4 ==> expiry[i] == expiry[..4][i];
      assert 5 <= i < 7 ==> expiry[i] == expiry[5..7][i - 5];
      assert 8 <= i ==> expiry[i] == expiry[8..][i - 8];
    }
  }

  lemma WordsOfLeg(side: LegSide, quantity: nat, symbol: string, expiry: IsoDate, strike: string, right: Right)
    requires strike != "" && Bare(strike)
    ensures Words(LegText(side, quantity, symbol, expiry, strike, right))
         == [SideText(side), Digits(quantity)] + Words(symbol) + [expiry, strike, RightText(right)]
  {
    hide Words, Digits, IsSpace, IsIsoDate, Bare;
    FixedWordsAreBare(side, right, expiry);
    DigitsAreBare(Digits(quantity));
    var a := SideText(side);
    var b := a + " " + Digits(quantity);
    var c := b + " " + symbol;
    var d := c + " " + expiry;
    var e := d + " " + strike;
    OneWord(a);
    OneWord(Digits(quantity));
    OneWord(expiry);
    OneWord(strike);
    OneWord(RightText(right));
    WordsJoin(a, Digits(quantity));
    WordsJoin(b, symbol);
    WordsJoin(c, expiry);
    WordsJoin(d, strike);
    WordsJoin(e, RightText(right));
  }

  /** The symbol is a single word of capital letters; blanks around it do not matter to the parser. */
  predicate IsReadable(symbol: string) {
    |Words(symbol)| == 1 && IsSymbol(Words(symbol)[0])
  }

  lemma SymbolsAreReadable(symbol: string)
    requires IsSymbol(symbol)
    ensures Words(symbol) == [symbol] && IsReadable(symbol)
  {
    SymbolsAreBare(symbol);
    OneWord(symbol);
  }

  lemma SymbolsAreBare(symbol: string)
    requires IsSymbol(symbol)
    ensures Bare(symbol)
  {
  }

  /** What comes out of the parser has a symbol of capital letters and a strike that is not negative. */
  lemma ParsedLegsAreSane(text: string)
    ensures ParseLeg(text).Some? ==> IsSymbol(ParseLeg(text).value.symbol) && ParseLeg(text).value.strike >= 0.0
  {
    hide Words, IsDecimal, IsSymbol, IsIsoDate;
  }

  // ---------- Printing and parsing ----------

  function Dollars(micro: int): real {
    micro as real / 1000000.0
  }

  function Parsed(leg: PlanLeg, strike: real): ParsedLeg {
    ParsedLeg(leg.side, leg.quantity, leg.symbol, leg.expiry, strike, leg.right)
  }

  lemma CentsAreExact(micro: nat)
    ensures micro % CENT == 0 <==> CentsOf(micro) * CENT == micro
    ensures micro % MICRO == 0 ==> CentsOf(micro) == 100 * (micro / MICRO)
  {
    hide RoundHalfEven;
    if micro % CENT == 0 {
      RoundingIsUnique(micro as real / CENT as real, micro / CENT);
    }
  }

  /** The strike a reader sees, in cents. */
  lemma FormattedStrike(micro: nat)
    ensures FormatStrike(micro) == CentsText(CentsOf(micro))
  {
    hide CentsOf, Digits, RStrip, Fixed2;
    CentsAreExact(micro);
    StrippingGivesShortest(CentsOf(micro));
    assert FormatStrike(micro) == if micro % MICRO == 0 then Digits(micro / MICRO)
                                  else RStrip(RStrip(Fixed2(CentsOf(micro)), '0'), '.');
  }

  lemma FormattedNegative(micro: int)
    requires micro < 0
    ensures FormatStrike(micro) == "-" + FormatStrike(-micro)
  {
    hide CentsOf, Digits, RStrip, Fixed2;
  }

  lemma MinusIsNotDecimal(s: string)
    ensures !IsDecimal("-" + s)
  {
    var t := "-" + s;
    assert t[0] == '-' && !IsDigit(t[0]);
    assert DotAt(t) > 0 ==> t[..DotAt(t)][0] == t[0];
  }

  /** A leg with a sensible symbol and strike is read back with the strike of the nearest cent. */
  lemma OtherStrikesParse(side: LegSide, quantity: nat, symbol: string, expiry: IsoDate, cents: nat, right: Right)
    requires IsSymbol(symbol)
    ensures ParseLeg(LegText(side, quantity, symbol, expiry, CentsText(cents), right))
         == Some(ParsedLeg(side, quantity, symbol, expiry, cents as real / 100.0, right))
  {
    hide CentsText, LegText, Words, IsDecimal, DecimalValue, IsIsoDate, IsSymbol, Digits, NatOf;
    CentsTextIsBare(cents);
    CentsTextIsDecimal(cents);
    NatOfDigits(quantity);
    SymbolsAreReadable(symbol);
    WordsOfLeg(side, quantity, symbol, expiry, CentsText(cents), right);
  }

  /** A printed leg is read back unchanged exactly when its symbol is in capital letters and its strike is a
      non-negative number of whole cents. */
  lemma LegRoundTrip(leg: PlanLeg)
    ensures ParseLeg(PlanText(leg)) == Some(Parsed(leg, Dollars(leg.strike)))
       <==> IsSymbol(leg.symbol) && leg.strike >= 0 && leg.strike % CENT == 0
  {
    hide CentsOf, CentsText, FormatStrike, LegText, ParseLeg, IsSymbol;
    ParsedLegsAreSane(PlanText(leg));
    if IsSymbol(leg.symbol) && leg.strike >= 0 {
      var cents := CentsOf(leg.strike);
      FormattedStrike(leg.strike);
      CentsAreExact(leg.strike);
      OtherStrikesParse(leg.side, leg.quantity, leg.symbol, leg.expiry, cents, leg.right);
      assert cents as real / 100.0 == Dollars(leg.strike) <==> cents * CENT == leg.strike;
    }
  }

  lemma StrikeTextIsDecimal(micro: int)
    ensures FormatStrike(micro) != "" && Bare(FormatStrike(micro))
    ensures IsDecimal(FormatStrike(micro)) <==> micro >= 0
  {
    hide CentsOf, CentsText, FormatStrike, IsDecimal, DecimalValue;
    if micro < 0 {
      FormattedNegative(micro);
      FormattedStrike(-micro);
      CentsTextIsBare(CentsOf(-micro));
      MinusIsNotDecimal(FormatStrike(-micro));
    } else {
      FormattedStrike(micro);
      CentsTextIsBare(CentsOf(micro));
      CentsTextIsDecimal(CentsOf(micro));
    }
  }

  /** A leg cannot be read back exactly when its symbol is not a word of capital letters or its strike is negative. */
  lemma LegParses(leg: PlanLeg)
    ensures ParseLeg(PlanText(leg)).Some? <==> IsReadable(leg.symbol) && leg.strike >= 0
  {
    hide FormatStrike, LegText, Words, IsDecimal, IsIsoDate, IsSymbol, Digits, NatOf, Bare;
    var strike, ws := FormatStrike(leg.strike), Words(leg.symbol);
    StrikeTextIsDecimal(leg.strike);
    WordsOfLeg(leg.side, leg.quantity, leg.symbol, leg.expiry, strike, leg.right);
    var all := Words(PlanText(leg));
    assert |all| == 5 + |ws|;
    if |ws| == 1 {
      assert all == [SideText(leg.side), Digits(leg.quantity), ws[0], leg.expiry, strike, RightText(leg.right)];
    }
  }

  /** For a symbol in capital letters, the text is an error exactly when the strike is negative. */
  lemma LegParsesIffNotNegative(leg: PlanLeg)
    requires IsSymbol(leg.symbol)
    ensures ParseLeg(PlanText(leg)).Some? <==> leg.strike >= 0
  {
    hide ParseLeg, PlanText, IsSymbol, IsReadable;
    SymbolsAreReadable(leg.symbol);
    LegParses(leg);
  }
}
