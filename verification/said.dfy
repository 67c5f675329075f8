/**
  The South African ID birth-date and age rule of the backend smoke test:
  slice year, month and day out of the ID, choose the century by a pivot at
  50, and count completed years up to a reference date.
 */
module SaId {
  import opened Wrappers

  datatype Date = Date(year: int, month: int, day: int)

  /** Lexicographic order on (year, month, day). */
  predicate DateLe(a: Date, b: Date) {
    a.year < b.year
    || (a.year == b.year && (a.month < b.month || (a.month == b.month && a.day <= b.day)))
  }

  const TestSaId: string := "7807215422081"
  const ExpectedAge: int := 46

  /** Python `s[lo:hi]` for `0 <= lo <= hi`: out-of-range bounds are clamped. */
  function Slice(s: string, lo: nat, hi: nat): (t: string)
    requires lo <= hi
    ensures hi <= |s| ==> t == s[lo..hi]
    ensures |t| <= hi - lo
  {
    if lo >= |s| then [] else if hi >= |s| then s[lo..] else s[lo..hi]
  }

  predicate IsDigit(c: char) { '0' <= c <= '9' }

  function DigitValue(c: char): int { c as int - '0' as int }

  /** The ASCII characters `int()` strips around a number: space, tab, LF, VT, FF and CR. */
  predicate IsSpace(c: char) {
    c == ' ' || 9 <= c as int <= 13
  }

  /** A character `int()` can accept somewhere in its argument. */
  predicate IntChar(c: char) {
    IsDigit(c) || IsSpace(c) || c == '+' || c == '-' || c == '_'
  }

  function TrimStart(s: string): (t: string)
    ensures |t| <= |s|
    ensures t == [] || !IsSpace(t[0])
  {
    if s != [] && IsSpace(s[0]) then TrimStart(s[1..]) else s
  }

  function TrimEnd(s: string): (t: string)
    ensures |t| <= |s|
    ensures t == [] || !IsSpace(t[|t| - 1])
  {
    if s != [] && IsSpace(s[|s| - 1]) then TrimEnd(s[..|s| - 1]) else s
  }

  /** `TrimStart` keeps a suffix and drops only whitespace. */
  lemma {:induction false} TrimStartSpaces(s: string)
    ensures TrimStart(s) == s[|s| - |TrimStart(s)|..]
    ensures forall i :: 0 <= i < |s| - |TrimStart(s)| ==> IsSpace(s[i])
  {
    if s != [] && IsSpace(s[0]) {
      TrimStartSpaces(s[1..]);
      assert s[1..][|s| - 1 - |TrimStart(s)|..] == s[|s| - |TrimStart(s)|..];
      forall i | 1 <= i < |s| - |TrimStart(s)| ensures IsSpace(s[i]) {
        assert s[i] == s[1..][i - 1];
      }
    }
  }

  /** `TrimEnd` keeps a prefix and drops only whitespace. */
  lemma {:induction false} TrimEndSpaces(s: string)
    ensures TrimEnd(s) == s[..|TrimEnd(s)|]
    ensures forall i :: |TrimEnd(s)| <= i < |s| ==> IsSpace(s[i])
  {
    if s != [] && IsSpace(s[|s| - 1]) {
      TrimEndSpaces(s[..|s| - 1]);
      assert s[..|s| - 1][..|TrimEnd(s)|] == s[..|TrimEnd(s)|];
      forall i | |TrimEnd(s)| <= i < |s| - 1 ensures IsSpace(s[i]) {
        assert s[i] == s[..|s| - 1][i];
      }
    }
  }

  /** Digits, with single underscores allowed between two digits. */
  predicate DigitGroups(b: string) {
    |b| > 0 && IsDigit(b[0]) && forall i :: 0 <= i < |b| ==> GroupAt(b, i)
  }

  /** Position `i` of `b` holds a digit, or an underscore between two digits. */
  predicate GroupAt(b: string, i: nat)
    requires i < |b|
  {
    IsDigit(b[i]) || (b[i] == '_' && 0 < i && i + 1 < |b| && IsDigit(b[i + 1]))
  }

  lemma GroupChar(b: string, j: int)
    requires DigitGroups(b) && 0 <= j < |b|
    ensures IsDigit(b[j]) || b[j] == '_'
  {
    assert GroupAt(b, j);
  }

  /** The value of the digits of `b`, underscores skipped. */
  function DigitsValue(b: string): nat {
    if b == [] then 0
    else if IsDigit(b[|b| - 1]) then 10 * DigitsValue(b[..|b| - 1]) + DigitValue(b[|b| - 1])
    else DigitsValue(b[..|b| - 1])
  }

  /** The text `int()` reads: whitespace stripped from both ends. */
  function Trim(s: string): string {
    TrimEnd(TrimStart(s))
  }

  /** 1 when the trimmed text starts with a sign, else 0. */
  function SignLength(t: string): (n: nat)
    ensures n <= |t|
  {
    if |t| > 0 && (t[0] == '-' || t[0] == '+') then 1 else 0
  }

  /** `t` without a leading sign. */
  function StripSign(t: string): string {
    t[SignLength(t)..]
  }

  /** The trimmed text without its sign. */
  function Unsigned(s: string): string {
    StripSign(Trim(s))
  }

  /** Python's `int(s)` on ASCII text; None where it raises `ValueError`. */
  function ParseInt(s: string): (r: Option<int>)
    // Text without a digit raises.
    ensures r.Some? ==> exists i :: 0 <= i < |s| && IsDigit(s[i])
    // Two digits read as a decimal number.
    ensures |s| == 2 && IsDigit(s[0]) && IsDigit(s[1]) ==>
              r == Some(10 * DigitValue(s[0]) + DigitValue(s[1]))
  {
    ParseIntAccepts(s);
    ParseIntTwoDigits(s);
    var t := Trim(s);
    var magnitude: int := DigitsValue(Unsigned(s));
    if DigitGroups(Unsigned(s)) then Some(if |t| > 0 && t[0] == '-' then -magnitude else magnitude)
    else None
  }

  lemma ParseIntAccepts(s: string)
    ensures DigitGroups(Unsigned(s)) ==> exists i :: 0 <= i < |s| && IsDigit(s[i])
  {
    if DigitGroups(Unsigned(s)) {
      AcceptedChars(s);
    }
  }

  /** Text with a character other than digits, whitespace, signs and underscores raises. */
  lemma ParseIntChars(s: string)
    requires exists i :: 0 <= i < |s| && !IntChar(s[i])
    ensures ParseInt(s).None?
  {
    if DigitGroups(Unsigned(s)) {
      AcceptedChars(s);
    }
  }

  lemma ParseIntTwoDigits(s: string)
    ensures |s| == 2 && IsDigit(s[0]) && IsDigit(s[1]) ==>
              Unsigned(s) == s && DigitsValue(s) == 10 * DigitValue(s[0]) + DigitValue(s[1])
  {
    if |s| == 2 && IsDigit(s[0]) && IsDigit(s[1]) {
      UnsignedOfTwoDigits(s);
      TwoDigitValue(s);
    }
  }

  /** Two digits are their own unsigned text. */
  lemma UnsignedOfTwoDigits(s: string)
    requires |s| == 2 && IsDigit(s[0]) && IsDigit(s[1])
    ensures Unsigned(s) == s
  {
    TrimOfTwoDigits(s);
    StripSignOfDigit(s);
  }

  lemma StripSignOfDigit(t: string)
    requires |t| > 0 && IsDigit(t[0])
    ensures StripSign(t) == t
  {
  }

  /** Whitespace around, an optional sign, then digit groups: only accepted characters. */
  lemma AcceptedChars(s: string)
    requires DigitGroups(Unsigned(s))
    ensures exists i :: 0 <= i < |s| && IsDigit(s[i])
    ensures forall i :: 0 <= i < |s| ==> IntChar(s[i])
  {
    var u := TrimStart(s);
    var t := TrimEnd(u);
    TrimStartSpaces(s);
    TrimEndSpaces(u);
    assert Unsigned(s) == t[SignLength(t)..];
    WindowChars(s, |s| - |u|, u, t, SignLength(t));
  }

  /**
    `s` is spaces, then the window `t` starting at `a`, then spaces; the
    window is an optional sign followed by digit groups.
   */
  lemma WindowChars(s: string, a: nat, u: string, t: string, k: nat)
    requires a + |u| == |s| && u == s[a..] && |t| <= |u| && t == u[..|t|]
    requires forall i :: 0 <= i < a ==> IsSpace(s[i])
    requires forall i :: |t| <= i < |u| ==> IsSpace(u[i])
    requires k <= 1 && k <= |t| && (k == 1 ==> t[0] == '-' || t[0] == '+') && DigitGroups(t[k..])
    ensures exists i :: 0 <= i < |s| && IsDigit(s[i])
    ensures forall i :: 0 <= i < |s| ==> IntChar(s[i])
  {
    var body := t[k..];
    assert s[a + k] == body[0];
    forall i | 0 <= i < |s| ensures IntChar(s[i]) {
      if i < a {
        assert IsSpace(s[i]);
      } else if i < a + k {
        assert s[i] == u[0] == t[0];
      } else if i < a + |t| {
        var j := i - a - k;
        GroupChar(body, j);
        assert s[i] == u[i - a] == t[i - a] == body[j];
      } else {
        assert s[i] == u[i - a];
        assert IsSpace(u[i - a]);
      }
    }

  }

  lemma TrimOfTwoDigits(s: string)
    requires |s| == 2 && IsDigit(s[0]) && IsDigit(s[1])
    ensures Trim(s) == s
  {
    assert TrimStart(s) == s;
  }

  lemma TwoDigitValue(s: string)
    requires |s| == 2 && IsDigit(s[0]) && IsDigit(s[1])
    ensures DigitsValue(s) == 10 * DigitValue(s[0]) + DigitValue(s[1])
  {
    assert DigitsValue(s[..1]) == DigitValue(s[0]) by {
      assert s[..1][..0] == [];
    }
  }

  /** `f"{n:02d}"` for `0 <= n < 100`, as the test prints month and day. */
  function TwoDigits(n: nat): (s: string)
    requires n < 100
    ensures |s| == 2 && IsDigit(s[0]) && IsDigit(s[1])
  {
    [('0' as int + n / 10) as char, ('0' as int + n % 10) as char]
  }

  /** Reading back a two-digit field gives the number that was printed. */
  lemma ParseTwoDigits(n: nat)
    requires n < 100
    ensures ParseInt(TwoDigits(n)) == Some(n)
  {
    var s := TwoDigits(n);
    assert DigitValue(s[0]) == n / 10 && DigitValue(s[1]) == n % 10;
  }

  /** The two digits of `id` from position `k`, read as a decimal number. */
  function PairAt(id: string, k: nat): int
    requires k + 1 < |id|
  {
    10 * DigitValue(id[k]) + DigitValue(id[k + 1])
  }

  /** `int(id[0:2])`, `int(id[2:4])`, `int(id[4:6])`; None when any of them raises. */
  function BirthFields(id: string): (r: Option<(int, int, int)>)
    // Every field needs a digit, so an ID of fewer than five characters raises.
    ensures r.Some? ==> |id| >= 5
    // A character of the first six that `int()` cannot accept makes its field raise.
    ensures r.Some? ==> forall i :: 0 <= i < |id| && i < 6 ==> IntChar(id[i])
  {
    match (ParseInt(Slice(id, 0, 2)), ParseInt(Slice(id, 2, 4)), ParseInt(Slice(id, 4, 6)))
    case (Some(y), Some(m), Some(d)) =>
      FieldChars(id);
      Some((y, m, d))
    case _ => None
  }

  /** An ID that starts with six digits reads as three two-digit numbers. */
  lemma BirthFieldsOfDigits(id: string)
    requires |id| >= 6 && forall i :: 0 <= i < 6 ==> IsDigit(id[i])
    ensures BirthFields(id) == Some((PairAt(id, 0), PairAt(id, 2), PairAt(id, 4)))
  {
    FieldOfDigits(id, 0);
    FieldOfDigits(id, 2);
    FieldOfDigits(id, 4);
    FieldsRead(id, PairAt(id, 0), PairAt(id, 2), PairAt(id, 4));
  }

  lemma FieldsRead(id: string, y: int, m: int, d: int)
    requires ParseInt(Slice(id, 0, 2)) == Some(y)
    requires ParseInt(Slice(id, 2, 4)) == Some(m)
    requires ParseInt(Slice(id, 4, 6)) == Some(d)
    ensures BirthFields(id) == Some((y, m, d))
  {
  }

  lemma FieldOfDigits(id: string, k: nat)
    requires k + 2 <= |id| && IsDigit(id[k]) && IsDigit(id[k + 1])
    ensures ParseInt(Slice(id, k, k + 2)) == Some(PairAt(id, k))
  {
    var f := Slice(id, k, k + 2);
    assert f == id[k..k + 2];
    assert |f| == 2 && f[0] == id[k] && f[1] == id[k + 1];
    assert IsDigit(f[0]) && IsDigit(f[1]);
  }

  /** Three fields that `int()` accepts cover five or six acceptable characters. */
  lemma FieldChars(id: string)
    requires ParseInt(Slice(id, 0, 2)).Some?
    requires ParseInt(Slice(id, 2, 4)).Some?
    requires ParseInt(Slice(id, 4, 6)).Some?
    ensures |id| >= 5
    ensures forall i :: 0 <= i < |id| && i < 6 ==> IntChar(id[i])
  {
    forall i | 0 <= i < |id| && i < 6 ensures IntChar(id[i]) {
      var lo := if i < 2 then 0 else if i < 4 then 2 else 4;
      var f := Slice(id, lo, lo + 2);
      assert f[i - lo] == id[i];
      if !IntChar(id[i]) {
        ParseIntChars(f);
      }
    }
  }

  /** `(current_year // 100) * 100` */
  function CenturyOf(year: int): (c: int)
    ensures c % 100 == 0
    ensures c <= year < c + 100
  {
    (year / 100) * 100
  }

  /** Two-digit years from 50 on fall in the previous century, the rest in this one. */
  function FullYear(yy: int, century: int): (fy: int)
    ensures 0 <= yy <= 99 ==> century - 50 <= fy <= century + 49
    ensures 0 <= yy <= 99 && century % 100 == 0 ==> fy % 100 == yy
    ensures 0 <= yy <= 99 ==> (fy < century <==> yy >= 50)
  {
    if yy >= 50 then century - 100 + yy else century + yy
  }

  /** `today.year - full_year`, less one while this year's birthday is still ahead. */
  function AgeOn(fullYear: int, month: int, day: int, today: Date): (age: int)
    // The birthday of year `fullYear + age` has occurred, that of the next year has not.
    ensures DateLe(Date(fullYear + age, month, day), today)
    ensures !DateLe(Date(fullYear + age + 1, month, day), today)
  {
    var age := today.year - fullYear;
    if today.month < month || (today.month == month && today.day < day) then age - 1 else age
  }

  /** The age is the only count of completed years: no other number has both properties. */
  lemma AgeIsUnique(fullYear: int, month: int, day: int, today: Date, k: int)
    requires DateLe(Date(fullYear + k, month, day), today)
    requires !DateLe(Date(fullYear + k + 1, month, day), today)
    ensures k == AgeOn(fullYear, month, day, today)
  {
  }

  /** The age the test computes from an ID on a given day; None when `int()` raises. */
  function AgeFromId(id: string, today: Date): (r: Option<int>)
    ensures r.Some? <==> BirthFields(id).Some?
  {
    match BirthFields(id)
    case None => None
    case Some((yy, m, d)) => Some(AgeOn(FullYear(yy, CenturyOf(today.year)), m, d, today))
  }

  /** The test ID reads as the 21st of July of '78. */
  lemma TestIdFields()
    ensures BirthFields(TestSaId) == Some((78, 7, 21))
  {
    var id := TestSaId;
    assert id[0] == '7' && id[1] == '8' && id[2] == '0' && id[3] == '7' && id[4] == '2' && id[5] == '1';
    BirthFieldsOfDigits(id);
    assert PairAt(id, 0) == 78 && PairAt(id, 2) == 7 && PairAt(id, 4) == 21;
  }

  /**
    During 2000-2099 the test ID yields the expected age 46 exactly when the
    reference day lies from 2024-07-21 to 2025-07-20 inclusive.
   */
  lemma TestIdAgeWindow(today: Date)
    requires 2000 <= today.year < 2100
    ensures AgeFromId(TestSaId, today) == Some(ExpectedAge)
            <==> DateLe(Date(2024, 7, 21), today) && DateLe(today, Date(2025, 7, 20))
  {
    TestIdFields();
    AgeOfFields(TestSaId, today, 78, 7, 21, ExpectedAge);
    BornIn78Window(today);
    var fy := FullYear(78, CenturyOf(today.year));
    if DateLe(Date(fy + ExpectedAge, 7, 21), today) && !DateLe(Date(fy + ExpectedAge + 1, 7, 21), today) {
      AgeIsUnique(fy, 7, 21, today, ExpectedAge);
    }
  }

  /** In 2000-2099 the year '78 pivots to 1978, which gives the test ID's age window. */
  lemma BornIn78Window(today: Date)
    requires 2000 <= today.year < 2100
    ensures FullYear(78, CenturyOf(today.year)) == 1978
    ensures AgeOn(FullYear(78, CenturyOf(today.year)), 7, 21, today) == ExpectedAge
            <==> DateLe(Date(2024, 7, 21), today) && DateLe(today, Date(2025, 7, 20))
  {
    assert today.year / 100 == 20;
    BornOn1978July21(today);
  }

  /**
    Once the fields are read, the ID yields age `k` exactly when `k` counts
    the completed years from the pivoted birth year: the birthday of year
    `full_year + k` has occurred by `today`, and the next one has not.
   */
  lemma AgeOfFields(id: string, today: Date, yy: int, m: int, d: int, k: int)
    requires BirthFields(id) == Some((yy, m, d))
    ensures var fy := FullYear(yy, CenturyOf(today.year));
            AgeFromId(id, today) == Some(k)
            <==> DateLe(Date(fy + k, m, d), today) && !DateLe(Date(fy + k + 1, m, d), today)
  {
    var fy := FullYear(yy, CenturyOf(today.year));
    if DateLe(Date(fy + k, m, d), today) && !DateLe(Date(fy + k + 1, m, d), today) {
      AgeIsUnique(fy, m, d, today, k);
    }
  }

  lemma BornOn1978July21(today: Date)
    ensures AgeOn(1978, 7, 21, today) == ExpectedAge
            <==> DateLe(Date(2024, 7, 21), today) && DateLe(today, Date(2025, 7, 20))
  {
  }
}
