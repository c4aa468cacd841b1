/**
 * The two regular expressions of src/card/card.router.ts, written out as
 * character predicates that follow the structure of each pattern, and
 * proved equal to a numeric description of the strings they accept.
 *
 *   time: ^([0-1]?[0-9]|2[0-3]):[0-5][0-9]$        (anchored at both ends)
 *   date: [0-9]{4}-(0[1-9]|1[0-2])-(0[1-9]|[1-2][0-9]|3[0-1])   (unanchored)
 */
module CardPatterns {

  predicate IsDigit(c: char)
  {
    '0' <= c <= '9'
  }

  predicate AllDigits(s: string)
  {
    forall i | 0 <= i < |s| :: IsDigit(s[i])
  }

  function DigitValue(c: char): (v: nat)
    requires IsDigit(c)
    ensures v <= 9
  {
    c as int - '0' as int
  }

  /** The number a string of decimal digits denotes. */
  function Decimal(s: string): (v: nat)
    requires AllDigits(s)
  {
    if |s| == 0 then 0 else 10 * Decimal(s[..|s| - 1]) + DigitValue(s[|s| - 1])
  }

  lemma DecimalOfTwo(s: string)
    requires |s| == 2 && AllDigits(s)
    ensures Decimal(s) == 10 * DigitValue(s[0]) + DigitValue(s[1])
  {
    var a := s[..1];
    assert AllDigits(a) && a[..0] == [] && a[0] == s[0];
    assert Decimal(a) == DigitValue(s[0]);
  }

  // ---------------------------------------------------------------- time

  /**
   * The group `([0-1]?[0-9]|2[0-3])` can match the first `p` characters:
   * one digit (the optional part absent), or two characters by either branch.
   */
  predicate HourGroupEndsAt(s: string, p: nat)
  {
    || (p == 1 && |s| >= 1 && IsDigit(s[0]))
    || (p == 2 && |s| >= 2 && '0' <= s[0] <= '1' && IsDigit(s[1]))
    || (p == 2 && |s| >= 2 && s[0] == '2' && '0' <= s[1] <= '3')
  }

  /** `:[0-5][0-9]$` matches from position `p` to the end of the string. */
  predicate MinutesFrom(s: string, p: nat)
  {
    p + 3 == |s| && s[p] == ':' && '0' <= s[p + 1] <= '5' && IsDigit(s[p + 2])
  }

  /** `timeRegex.test(s)`: some way through the hour group is followed by the minutes. */
  predicate TimeMatches(s: string): (b: bool)
    ensures b ==> (|s| == 4 || |s| == 5) && s[|s| - 3] == ':'
  {
    (HourGroupEndsAt(s, 1) && MinutesFrom(s, 1)) || (HourGroupEndsAt(s, 2) && MinutesFrom(s, 2))
  }

  /** The time `H:MM` or `HH:MM` with the hour written in `k` digits. */
  predicate TimeWithHourDigits(s: string, k: nat)
  {
    && |s| == k + 3
    && AllDigits(s[..k]) && s[k] == ':' && AllDigits(s[k + 1..])
    && Decimal(s[..k]) <= 23 && Decimal(s[k + 1..]) <= 59
  }

  /**
   * Reference reading of the time format: an hour from 0 to 23 in one or two
   * digits, a colon, and a minute from 0 to 59 in exactly two digits.
   */
  predicate IsTime(s: string)
  {
    TimeWithHourDigits(s, 1) || TimeWithHourDigits(s, 2)
  }

  lemma TwoDigitsOf(s: string)
    requires |s| == 2 && AllDigits(s)
    ensures Decimal(s) <= 23 <==> ('0' <= s[0] <= '1' || (s[0] == '2' && '0' <= s[1] <= '3'))
    ensures Decimal(s) <= 59 <==> s[0] <= '5'
  {
    DecimalOfTwo(s);
  }

  /** The time pattern accepts exactly the times of the reference reading. */
  lemma TimeMatchesIff(s: string)
    ensures TimeMatches(s) <==> IsTime(s)
  {
    if |s| == 4 {
      var h, m := s[..1], s[2..];
      assert h == [s[0]] && m == [s[2], s[3]];
      if AllDigits(h) {
        assert h[..0] == [];
        assert Decimal(h) == DigitValue(s[0]);
      }
      if AllDigits(m) {
        TwoDigitsOf(m);
      }
    } else if |s| == 5 {
      var h, m := s[..2], s[3..];
      assert h == [s[0], s[1]] && m == [s[3], s[4]];
      if AllDigits(h) {
        TwoDigitsOf(h);
      }
      if AllDigits(m) {
        TwoDigitsOf(m);
      }
    }
  }

  // ---------------------------------------------------------------- date

  /** `(0[1-9]|1[0-2])` on the two characters at `i`. */
  predicate MonthAt(s: string, i: nat)
    requires i + 2 <= |s|
  {
    (s[i] == '0' && '1' <= s[i + 1] <= '9') || (s[i] == '1' && '0' <= s[i + 1] <= '2')
  }

  /** `(0[1-9]|[1-2][0-9]|3[0-1])` on the two characters at `i`. */
  predicate DayAt(s: string, i: nat)
    requires i + 2 <= |s|
  {
    || (s[i] == '0' && '1' <= s[i + 1] <= '9')
    || ('1' <= s[i] <= '2' && IsDigit(s[i + 1]))
    || (s[i] == '3' && '0' <= s[i + 1] <= '1')
  }

  /** The whole date pattern, ten characters long, matches starting at `i`. */
  predicate DatePatternAt(s: string, i: nat)
    requires i + 10 <= |s|
  {
    && IsDigit(s[i]) && IsDigit(s[i + 1]) && IsDigit(s[i + 2]) && IsDigit(s[i + 3])
    && s[i + 4] == '-' && MonthAt(s, i + 5)
    && s[i + 7] == '-' && DayAt(s, i + 8)
  }

  /** `dateRegex.test`, trying each start position from `i` on, as the regex engine does. */
  function ScanDate(s: string, i: nat): (r: bool)
    ensures r <==> exists j | i <= j && j + 10 <= |s| :: DatePatternAt(s, j)
    decreases |s| - i
  {
    if i + 10 > |s| then false
    else DatePatternAt(s, i) || ScanDate(s, i + 1)
  }

  /** `dateRegex.test(s)`: the pattern matches at some position of `s`. */
  predicate DateMatches(s: string): (b: bool)
    ensures b <==> exists j | 0 <= j && j + 10 <= |s| :: DatePatternAt(s, j)
  {
    ScanDate(s, 0)
  }

  /**
   * Reference reading of one date: four digits, `-`, a month 1 to 12 in two
   * digits, `-`, a day 1 to 31 in two digits. No day is checked against its month.
   */
  predicate IsDateAt(s: string, i: nat)
  {
    && i + 10 <= |s|
    && AllDigits(s[i..i + 4]) && s[i + 4] == '-'
    && AllDigits(s[i + 5..i + 7]) && 1 <= Decimal(s[i + 5..i + 7]) <= 12
    && s[i + 7] == '-'
    && AllDigits(s[i + 8..i + 10]) && 1 <= Decimal(s[i + 8..i + 10]) <= 31
  }

  /** The date pattern at one position reads as a date at that position. */
  lemma DatePatternAtIff(s: string, i: nat)
    requires i + 10 <= |s|
    ensures DatePatternAt(s, i) <==> IsDateAt(s, i)
  {
    var m, d := s[i + 5..i + 7], s[i + 8..i + 10];
    assert m == [s[i + 5], s[i + 6]] && d == [s[i + 8], s[i + 9]];
    assert s[i..i + 4] == [s[i], s[i + 1], s[i + 2], s[i + 3]];
    if AllDigits(m) {
      DecimalOfTwo(m);
    }
    if AllDigits(d) {
      DecimalOfTwo(d);
    }
  }

  lemma {:induction false} ScanDateIff(s: string, i: nat)
    ensures ScanDate(s, i) <==> exists j :: i <= j && IsDateAt(s, j)
    decreases |s| - i
  {
    if i + 10 <= |s| {
      DatePatternAtIff(s, i);
      ScanDateIff(s, i + 1);
      if exists j :: i <= j && IsDateAt(s, j) {
        var j :| i <= j && IsDateAt(s, j);
        assert j == i || (i + 1 <= j && IsDateAt(s, j));
      }
    }
  }

  /**
   * The date pattern is unanchored: a string passes exactly when a date of
   * the reference reading occurs somewhere inside it.
   */
  lemma DateMatchesIff(s: string)
    ensures DateMatches(s) <==> exists i :: IsDateAt(s, i)
  {
    ScanDateIff(s, 0);
  }

  /** `2020-02-31` passes: months and days are checked independently. */
  lemma NoDayOfMonthCheck()
    ensures DateMatches("2020-02-31")
  {
    assert DatePatternAt("2020-02-31", 0);
  }

  /** Characters around a date do not matter. */
  lemma SurroundingTextAccepted()
    ensures DateMatches("due 2020-12-31!")
  {
    assert DatePatternAt("due 2020-12-31!", 4);
    assert ScanDate("due 2020-12-31!", 4);
    assert ScanDate("due 2020-12-31!", 3);
    assert ScanDate("due 2020-12-31!", 2);
    assert ScanDate("due 2020-12-31!", 1);
  }

  /** Single-digit hours pass; 24:00 and one-digit minutes do not. */
  lemma TimeExamples()
    ensures TimeMatches("9:05") && TimeMatches("09:05") && TimeMatches("23:59")
    ensures !TimeMatches("24:00") && !TimeMatches("12:5") && !TimeMatches("12:60") && !TimeMatches("1:00 ")
  {
  }
}
