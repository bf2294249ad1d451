/**
 From a textual SteamID to its 64-bit form (ezhttp_steam_to_steam64 in src/module.cpp).  LONG_MAX, which strtol
 stops at, is 2^31 - 1 on some platforms and 2^63 - 1 on others, so it is a parameter.
 */
module SteamId {
  import opened Common
  import opened Split

  const TWO_31: nat := 0x8000_0000
  const TWO_32: nat := 0x1_0000_0000

  // ----- decimal numbers -----

  predicate Digit(c: char) { '0' <= c <= '9' }

  predicate Digits(s: string) {
    forall i :: 0 <= i < |s| ==> Digit(s[i])
  }

  function Value(s: string): nat
    requires Digits(s)
  {
    if s == "" then 0 else Value(s[..|s|-1]) * 10 + (s[|s|-1] - '0') as nat
  }

  /** std::to_string */
  function Decimal(n: nat): (s: string)
    ensures s != "" && Digits(s) && Value(s) == n
  {
    var last := '0' + (n % 10) as char;
    if n < 10 then [last]
    else
      var front := Decimal(n / 10);
      assert (front + [last])[..|front|] == front;
      front + [last]
  }

  // ----- strtol(s, &end, 10) -----

  predicate Blank(c: char) {
    c == ' ' || '\t' <= c <= '\r'
  }

  /** isspace: space, tab, newline, vertical tab, form feed and carriage return. */
  lemma BlankMeaning(c: char)
    ensures Blank(c) <==> c as int in {32, 9, 10, 11, 12, 13}
  {
  }

  function Blanks(s: string): (n: nat)
    ensures n <= |s| && (n < |s| ==> !Blank(s[n])) && forall i :: 0 <= i < n ==> Blank(s[i])
  {
    if s != "" && Blank(s[0]) then 1 + Blanks(s[1..]) else 0
  }

  function LeadingDigits(s: string): (n: nat)
    ensures n <= |s| && (n < |s| ==> !Digit(s[n])) && Digits(s[..n])
  {
    if s != "" && Digit(s[0]) then
      var n := LeadingDigits(s[1..]);
      assert s[..1 + n] == [s[0]] + s[1..][..n];
      1 + n
    else 0
  }

  /** `end` is where parsing stopped; `range` is ERANGE. */
  datatype Parsed = Parsed(value: int, end: nat, range: bool)

  function Strtol(s: string, longMax: nat): Parsed {
    var w := Blanks(s);
    var sign := w < |s| && (s[w] == '+' || s[w] == '-');
    var start := if sign then w + 1 else w;
    var n := LeadingDigits(s[start..]);
    if n == 0 then Parsed(0, 0, false)
    else
      var v: int, max: int := Value(s[start..][..n]), longMax;
      if sign && s[w] == '-' then
        if v > max + 1 then Parsed(-max - 1, start + n, true) else Parsed(-v, start + n, false)
      else if v > longMax then Parsed(longMax, start + n, true)
      else Parsed(v, start + n, false)
  }

  /** The checks on an account number: no error, nothing left over, not negative. */
  function Account(s: string, longMax: nat): Option<nat> {
    var p := Strtol(s, longMax);
    if p.range || p.end != |s| || p.value < 0 then None else Some(p.value)
  }

  /** What passes: blanks, a sign and digits that make a number from 0 to LONG_MAX; and the empty string, as 0. */
  ghost predicate Numeral(s: string, v: nat, longMax: nat) {
    || (s == "" && v == 0)
    || exists blanks: string, sign: string, digits: string :: NumeralParts(s, blanks, sign, digits, v, longMax)
  }

  predicate NumeralParts(s: string, blanks: string, sign: string, digits: string, v: nat, longMax: nat) {
    && s == blanks + sign + digits
    && (forall i :: 0 <= i < |blanks| ==> Blank(blanks[i]))
    && (sign == "" || sign == "+" || (sign == "-" && v == 0))
    && digits != "" && Digits(digits) && Value(digits) == v && v <= longMax
  }

  lemma PartsAreFound(s: string, blanks: string, sign: string, digits: string, v: nat, longMax: nat)
    requires NumeralParts(s, blanks, sign, digits, v, longMax)
    ensures Account(s, longMax) == Some(v)
  {
    var w := |blanks|;
    assert forall i :: 0 <= i < w ==> s[i] == blanks[i];
    assert s[w] == (sign + digits)[0];
    assert Blanks(s) == w;
    var start := w + |sign|;
    assert s[start..] == digits;
    assert LeadingDigits(digits) == |digits|;
    assert digits[..|digits|] == digits;
  }

  lemma AcceptedHasParts(s: string, longMax: nat)
    requires Account(s, longMax).Some? && s != ""
    ensures Numeral(s, Account(s, longMax).value, longMax)
  {
    hide Value;
    var w := Blanks(s);
    var start := if s[w] == '+' || s[w] == '-' then w + 1 else w;
    assert s[start..][..|s| - start] == s[start..];
    assert s == s[..w] + s[w..start] + s[start..];
    assert NumeralParts(s, s[..w], s[w..start], s[start..], Account(s, longMax).value, longMax);
  }

  lemma AccountIsNumeral(s: string, v: nat, longMax: nat)
    ensures Account(s, longMax) == Some(v) <==> Numeral(s, v, longMax)
  {
    hide Value, NumeralParts;
    if s == "" {
      assert Blanks(s) == 0 && LeadingDigits(s) == 0;
      forall blanks: string, sign: string, digits: string ensures !NumeralParts(s, blanks, sign, digits, v, longMax) {
        EmptyHasNoParts(blanks, sign, digits, v, longMax);
      }
    } else {
      if Account(s, longMax) == Some(v) {
        AcceptedHasParts(s, longMax);
      }
      if Numeral(s, v, longMax) {
        var blanks, sign, digits :| NumeralParts(s, blanks, sign, digits, v, longMax);
        PartsAreFound(s, blanks, sign, digits, v, longMax);
      }
    }
  }

  lemma EmptyHasNoParts(blanks: string, sign: string, digits: string, v: nat, longMax: nat)
    ensures !NumeralParts("", blanks, sign, digits, v, longMax)
  {
    assert |blanks + sign + digits| == |blanks| + |sign| + |digits|;
  }

  // ----- the bits -----

  /** Bitwise or. */
  function Or(a: nat, b: nat): nat {
    if a == 0 && b == 0 then 0
    else (if a % 2 == 1 || b % 2 == 1 then 1 else 0) + 2 * Or(a / 2, b / 2)
  }

  function Pow2(k: nat): nat {
    if k == 0 then 1 else 2 * Pow2(k - 1)
  }

  function ShiftLeft(a: nat, k: nat): nat {
    a * Pow2(k)
  }

  lemma {:induction false} OrWithNothing(b: nat)
    ensures Or(0, b) == b
  {
    if b == 0 {
    } else {
      OrWithNothing(b / 2);
    }
  }

  /** Where the bits do not overlap none is lost. */
  lemma {:induction false} OrAppends(a: nat, k: nat, b: nat)
    requires b < Pow2(k)
    ensures Or(ShiftLeft(a, k), b) == ShiftLeft(a, k) + b
  {
    if k == 0 {
      if a > 0 {
        OrIsSymmetricWithNothing(a);
      }
    } else {
      var p := Pow2(k - 1);
      assert ShiftLeft(a, k) == 2 * (a * p) by {
        assert a * (2 * p) == 2 * (a * p);
      }
      OrAppends(a, k - 1, b / 2);
    }
  }

  lemma {:induction false} OrIsSymmetricWithNothing(a: nat)
    ensures Or(a, 0) == a
  {
    if a == 0 {
    } else {
      OrIsSymmetricWithNothing(a / 2);
    }
  }

  // ----- the conversion -----

  const PREFIX := "STEAM_"

  /** The account number and the Y bit, as 32-bit unsigned integers. */
  function AccountBits(value: nat, y: nat): nat {
    Or(ShiftLeft(value % TWO_32, 1) % TWO_32, y)
  }

  /** Universe 1, account type 1, account instance 1. */
  function Steam64(account: nat): nat {
    Or(Or(Or(ShiftLeft(1, 56), ShiftLeft(1, 52)), ShiftLeft(1, 32)), account)
  }

  /** What a conversion gives; None is the return value 0. */
  function Converted(steam: string, longMax: nat): Option<string> {
    if !(PREFIX <= steam) then None
    else
      var tokens := Tokens(steam[|PREFIX|..], ":");
      if |tokens| != 3 || (tokens[1] != "0" && tokens[1] != "1") then None
      else
        match Account(tokens[2], longMax)
        case None => None
        case Some(v) => Some(Decimal(Steam64(AccountBits(v, if tokens[1] == "1" then 1 else 0))))
  }

  method SteamToSteam64(steam: string, longMax: nat) returns (steam64: Option<string>)
    requires longMax >= 1
    ensures steam64 == Converted(steam, longMax)
  {
    if !(PREFIX <= steam) {
      return None;
    }
    var tokens := SplitInto(steam[|PREFIX|..], ":", []);
    assert tokens == Tokens(steam[|PREFIX|..], ":");
    if |tokens| != 3 {
      return None;
    }
    if tokens[1] != "0" && tokens[1] != "1" {
      return None;
    }
    var y := Strtol(tokens[1], longMax);
    AccountOfDigit(tokens[1], longMax);
    if y.range || y.end != |tokens[1]| {
      return None;
    }
    var value := Strtol(tokens[2], longMax);
    if value.range || value.end != |tokens[2]| || value.value < 0 {
      return None;
    }
    steam64 := Some(Decimal(Steam64(AccountBits(value.value, y.value))));
  }

  lemma AccountOfDigit(s: string, longMax: nat)
    requires (s == "0" || s == "1") && longMax >= 1
    ensures Strtol(s, longMax) == Parsed(if s == "1" then 1 else 0, 1, false)
  {
    assert Value(s[..0]) == 0;
    assert Value(s) == if s == "1" then 1 else 0;
    assert NumeralParts(s, "", "", s, Value(s), longMax);
    PartsAreFound(s, "", "", s, Value(s), longMax);
  }

  const BASE: nat := 76561197960265728

  lemma EightMore(k: nat)
    ensures Pow2(k + 8) == 256 * Pow2(k)
  {
    assert Pow2(k + 1) == 2 * Pow2(k) && Pow2(k + 2) == 2 * Pow2(k + 1) && Pow2(k + 3) == 2 * Pow2(k + 2);
    assert Pow2(k + 4) == 2 * Pow2(k + 3) && Pow2(k + 5) == 2 * Pow2(k + 4) && Pow2(k + 6) == 2 * Pow2(k + 5);
    assert Pow2(k + 7) == 2 * Pow2(k + 6) && Pow2(k + 8) == 2 * Pow2(k + 7);
  }

  lemma Powers()
    ensures Pow2(1) == 2 && Pow2(32) == TWO_32 && Pow2(52) == 0x10_0000_0000_0000 && Pow2(56) == 0x100_0000_0000_0000
  {
    assert Pow2(8) == 256 && Pow2(4) == 16;
    EightMore(8);
    EightMore(16);
    EightMore(24);
    EightMore(4);
    EightMore(12);
    EightMore(20);
    EightMore(28);
    EightMore(36);
    EightMore(44);
    EightMore(32);
    EightMore(40);
    EightMore(48);
  }

  /** No field of the result overlaps another. */
  lemma FieldsDoNotOverlap(account: nat)
    requires account < TWO_32
    ensures Steam64(account) == BASE + account
  {
    Powers();
    OrAppends(1, 56, ShiftLeft(1, 52));
    assert ShiftLeft(1, 56) + ShiftLeft(1, 52) == ShiftLeft(17, 52);
    OrAppends(17, 52, ShiftLeft(1, 32));
    assert ShiftLeft(17, 52) + ShiftLeft(1, 32) == ShiftLeft(17825793, 32);
    OrAppends(17825793, 32, account);
  }

  lemma YBitIsAppended(value: nat, y: nat)
    requires y < 2
    ensures AccountBits(value, y) == 2 * value % TWO_32 + y && AccountBits(value, y) < TWO_32
  {
    Powers();
    hide Or;
    var shifted := 2 * value % TWO_32;
    DoubledIsEven(value);
    assert ShiftLeft(value % TWO_32, 1) % TWO_32 == shifted;
    assert ShiftLeft(shifted / 2, 1) == shifted;
    OrAppends(shifted / 2, 1, y);
  }

  lemma Remainder(n: nat, q: nat)
    requires TWO_32 * q <= n < TWO_32 * q + TWO_32
    ensures n % TWO_32 == n - TWO_32 * q
  {
    var d := n / TWO_32;
    assert n == TWO_32 * d + n % TWO_32;
  }

  lemma DoubledIsEven(value: nat)
    ensures 2 * value % TWO_32 % 2 == 0 && 2 * (value % TWO_32) % TWO_32 == 2 * value % TWO_32
  {
    var q, r := value / TWO_32, value % TWO_32;
    assert value == TWO_32 * q + r;
    Remainder(2 * value, if r < TWO_31 then 2 * q else 2 * q + 1);
    Remainder(2 * r, if r < TWO_31 then 0 else 1);
  }

  /** The number is the one that the account number and the Y bit stand for iff the account number has 31 bits. */
  lemma ExactIff(value: nat, y: nat)
    requires y < 2
    ensures Steam64(AccountBits(value, y)) == BASE + 2 * value + y <==> value < TWO_31
  {
    hide AccountBits, Steam64;
    YBitIsAppended(value, y);
    FieldsDoNotOverlap(AccountBits(value, y));
    if value < TWO_31 {
      Remainder(2 * value, 0);
    } else {
      assert 2 * value % TWO_32 < TWO_32 <= 2 * value;
    }
  }

  /** A SteamID as it is printed. */
  function Printed(x: string, y: nat, z: nat): string
    requires y < 2
  {
    PREFIX + x + ":" + (if y == 1 then "1" else "0") + ":" + Decimal(z)
  }

  ghost predicate WellFormed(steam: string, x: string, y: string, account: string, v: nat, longMax: nat) {
    && steam == PREFIX + (x + ":" + (y + ":" + account))
    && ':' !in x && ':' !in account && (y == "0" || y == "1")
    && Numeral(account, v, longMax)
  }

  lemma JoinOfThree(tokens: seq<string>)
    requires |tokens| == 3
    ensures Join(tokens, ":") == tokens[0] + ":" + (tokens[1] + ":" + tokens[2])
  {
    assert tokens[1..][1..] == [tokens[2]];
    assert Join(tokens[1..], ":") == tokens[1] + ":" + Join(tokens[1..][1..], ":");
  }

  lemma NoColons(s: string, k: nat)
    requires k < |Tokens(s, ":")|
    ensures ':' !in Tokens(s, ":")[k]
  {
    var t := Tokens(s, ":")[k];
    forall j | 0 <= j < |t| ensures t[j] != ':' {
      NoTokenHoldsTheSeparator(s, ":", k, j);
      assert t[j..j + 1] == [t[j]];
    }
  }

  lemma AcceptedIsWellFormed(steam: string, longMax: nat) returns (x: string, y: string, account: string, v: nat)
    requires Converted(steam, longMax).Some?
    ensures WellFormed(steam, x, y, account, v, longMax)
  {
    hide Tokens, Account, Numeral, Join, Or, Decimal;
    var tokens := Tokens(steam[|PREFIX|..], ":");
    x, y, account, v := tokens[0], tokens[1], tokens[2], Account(tokens[2], longMax).value;
    AccountIsNumeral(account, v, longMax);
    JoinUndoesSplit(steam[|PREFIX|..], ":");
    JoinOfThree(tokens);
    NoColons(steam[|PREFIX|..], 0);
    NoColons(steam[|PREFIX|..], 2);
  }

  lemma TokensOfWellFormed(steam: string, x: string, y: string, account: string, v: nat, longMax: nat)
    requires WellFormed(steam, x, y, account, v, longMax)
    ensures Converted(steam, longMax) == Some(Decimal(Steam64(AccountBits(v, if y == "1" then 1 else 0))))
  {
    JoinOfThree([x, y, account]);
    SplitUndoesJoinOfPlainTokens([x, y, account], ':');
    assert steam[|PREFIX|..] == Join([x, y, account], ":");
    AccountIsNumeral(account, v, longMax);
  }

  /** Exactly these strings are converted. */
  lemma AcceptedIff(steam: string, longMax: nat)
    ensures Converted(steam, longMax).Some? <==>
      exists x: string, y: string, account: string, v: nat :: WellFormed(steam, x, y, account, v, longMax)
  {
    hide Converted, WellFormed;
    if Converted(steam, longMax).Some? {
      var x, y, account, v := AcceptedIsWellFormed(steam, longMax);
    }
    if exists x: string, y: string, account: string, v: nat :: WellFormed(steam, x, y, account, v, longMax) {
      var x, y, account, v :| WellFormed(steam, x, y, account, v, longMax);
      TokensOfWellFormed(steam, x, y, account, v, longMax);
    }
  }

  lemma PrintedIsWellFormed(x: string, y: nat, z: nat, longMax: nat)
    requires ':' !in x && y < 2 && z <= longMax
    ensures WellFormed(Printed(x, y, z), x, if y == 1 then "1" else "0", Decimal(z), z, longMax)
  {
    hide Value;
    var ys, account := if y == 1 then "1" else "0", Decimal(z);
    assert Printed(x, y, z) == PREFIX + (x + ":" + (ys + ":" + account));
    assert NumeralParts(account, "", "", account, z, longMax);
  }

  /** Printing, splitting, parsing and putting the bits together: for every X, Y and Z the documented number. */
  lemma RoundTrip(x: string, y: nat, z: nat, longMax: nat)
    requires ':' !in x && y < 2 && z < TWO_31 <= longMax + 1
    ensures Converted(Printed(x, y, z), longMax) == Some(Decimal(BASE + 2 * z + y))
  {
    hide WellFormed, Converted, Printed, Steam64, AccountBits, Decimal;
    PrintedIsWellFormed(x, y, z, longMax);
    TokensOfWellFormed(Printed(x, y, z), x, if y == 1 then "1" else "0", Decimal(z), z, longMax);
    ExactIff(z, y);
  }

  /** A number is written digit by digit. */
  lemma DecimalMeaning(n: nat, d: nat)
    requires d < 10
    ensures n > 0 ==> Decimal(10 * n + d) == Decimal(n) + Decimal(d)
    ensures Decimal(d) == ["0123456789"[d]]
  {
    assert (10 * n + d) / 10 == n && (10 * n + d) % 10 == d;
  }

  /** What is converted to what, with the number for account 0 as it stands. */
  lemma SteamIdMeaning(x: string, z: nat, longMax: nat)
    requires ':' !in x && z < 2147483648 <= longMax + 1
    ensures Converted("STEAM_" + x + ":0:" + Decimal(z), longMax) == Some(Decimal(76561197960265728 + 2 * z))
    ensures Converted("STEAM_" + x + ":1:" + Decimal(z), longMax) == Some(Decimal(76561197960265729 + 2 * z))
  {
    hide Converted, Decimal;
    RoundTrip(x, 0, z, longMax);
    RoundTrip(x, 1, z, longMax);
    assert "STEAM_" + x + ":0:" + Decimal(z) == Printed(x, 0, z);
    assert "STEAM_" + x + ":1:" + Decimal(z) == Printed(x, 1, z);
  }

  /** One as it appears in practice. */
  lemma SteamIdExample(longMax: nat)
    requires longMax >= 2147483647
    ensures Converted("STEAM_0:1:11101", longMax) == Some("76561197960287931")
  {
    hide Converted;
    SteamIdMeaning("0", 11101, longMax);
    assert Decimal(11101) == "11101" by {
      DecimalOfFive();
    }
    assert "STEAM_" + "0" + ":1:" + "11101" == "STEAM_0:1:11101";
    DecimalOfSeventeen();
  }

  lemma DecimalOfFive()
    ensures Decimal(11101) == "11101"
  {
    DecimalMeaning(1, 1);
    DecimalMeaning(11, 1);
    DecimalMeaning(111, 0);
    DecimalMeaning(1110, 1);
    hide Decimal;
    assert Decimal(1) == "1" && Decimal(0) == "0" by {
      DecimalMeaning(0, 1);
      DecimalMeaning(0, 0);
    }
    assert Decimal(11) == "11" && Decimal(111) == "111" && Decimal(1110) == "1110";
  }

  lemma DecimalOfSeventeen()
    ensures Decimal(76561197960287931) == "76561197960287931"
  {
    forall d: nat | d < 10 ensures Decimal(d) == ["0123456789"[d]] {
      DecimalMeaning(0, d);
    }
    DecimalMeaning(7, 6);
    DecimalMeaning(76, 5);
    DecimalMeaning(765, 6);
    DecimalMeaning(7656, 1);
    DecimalMeaning(76561, 1);
    DecimalMeaning(765611, 9);
    DecimalMeaning(7656119, 7);
    DecimalMeaning(76561197, 9);
    DecimalMeaning(765611979, 6);
    DecimalMeaning(7656119796, 0);
    DecimalMeaning(76561197960, 2);
    DecimalMeaning(765611979602, 8);
    DecimalMeaning(7656119796028, 7);
    DecimalMeaning(76561197960287, 9);
    DecimalMeaning(765611979602879, 3);
    DecimalMeaning(7656119796028793, 1);
    hide Decimal;
    assert Decimal(765) == "765" && Decimal(765611) == "765611";
  }

  /** Different accounts get different numbers; X does not matter. */
  lemma Injective(x: string, y: nat, z: nat, x': string, y': nat, z': nat, longMax: nat)
    requires ':' !in x && ':' !in x' && y < 2 && y' < 2 && z < TWO_31 && z' < TWO_31 <= longMax + 1
    ensures Converted(Printed(x, y, z), longMax) == Converted(Printed(x', y', z'), longMax) <==> y == y' && z == z'
  {
    hide Converted, Printed, Decimal, Value;
    RoundTrip(x, y, z, longMax);
    RoundTrip(x', y', z', longMax);
    assert Value(Decimal(BASE + 2 * z + y)) == BASE + 2 * z + y;
    assert Value(Decimal(BASE + 2 * z' + y')) == BASE + 2 * z' + y';
  }
}
