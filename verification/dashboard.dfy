/**
 * The labels on the dashboard's group cards (app/dashboard/page.tsx): the
 * coloured balance, the "time ago" phrase and the member count wording.
 * Balances are integer cents and dates are millisecond timestamps.
 */
module Dashboard {
  import opened Common
  import opened Text

  // ----------------------------------------------------------------- balance

  /** The CSS class that colours a balance. */
  datatype BalanceClass = Positive | Negative | Zero

  function ClassName(c: BalanceClass): string {
    match c
    case Positive => "balance-positive"
    case Negative => "balance-negative"
    case Zero => "balance-zero"
  }

  datatype BalanceLabel = BalanceLabel(text: string, cls: BalanceClass)

  /** The text shown for a settled balance. */
  const ZeroText: string := "$0.00 \U{2728}"

  /** `n.toFixed(2)` for an amount of `c` cents: whole units, a point, two digits. */
  function MoneyText(c: nat): (s: string)
    ensures |s| >= 4 && s[|s| - 3] == '.'
  {
    var frac := c % 100;
    NatToString(c / 100) + "." + [DigitChar(frac / 10), DigitChar(frac % 10)]
  }

  /** Reads an amount written as `MoneyText` writes it back into cents. */
  function ReadCents(s: string): Option<nat> {
    if |s| >= 4 && s[|s| - 3] == '.' && IsDigit(s[|s| - 2]) && IsDigit(s[|s| - 1]) then
      match ParseNat(s[..|s| - 3])
      case Some(w) => Some(w * 100 + (s[|s| - 2] as int - '0' as int) * 10 + (s[|s| - 1] as int - '0' as int))
      case None => None
    else None
  }

  lemma ReadCentsMoneyText(c: nat)
    ensures ReadCents(MoneyText(c)) == Some(c)
  {
    var s := MoneyText(c);
    var frac := c % 100;
    ParseNatToString(c / 100);
    assert s[..|s| - 3] == NatToString(c / 100);
    assert s[|s| - 2] == DigitChar(frac / 10) && s[|s| - 1] == DigitChar(frac % 10);
    assert c == (c / 100) * 100 + (frac / 10) * 10 + frac % 10;
  }

  /** `formatBalance`: the sign picks the class; the magnitude follows `+$` or `-$`. */
  function FormatBalance(cents: int): (r: BalanceLabel)
    ensures r.cls == Positive <==> cents > 0
    ensures r.cls == Negative <==> cents < 0
    ensures r.cls == Zero <==> cents == 0
    ensures cents > 0 ==> StartsWith(r.text, "+$")
    ensures cents < 0 ==> StartsWith(r.text, "-$")
    ensures cents > 0 ==> ClassName(r.cls) == "balance-positive"
    ensures cents < 0 ==> ClassName(r.cls) == "balance-negative"
    ensures cents == 0 ==> ClassName(r.cls) == "balance-zero"
  {
    if cents > 0 then BalanceLabel("+$" + MoneyText(cents), Positive)
    else if cents < 0 then BalanceLabel("-$" + MoneyText(-cents), Negative)
    else BalanceLabel(ZeroText, Zero)
  }

  /** Reads a balance text back into signed cents. */
  function ReadBalance(text: string): Option<int> {
    if text == ZeroText then Some(0)
    else if StartsWith(text, "+$") then
      match ReadCents(text[2..]) case Some(c) => Some(c) case None => None
    else if StartsWith(text, "-$") then
      match ReadCents(text[2..]) case Some(c) => Some(-(c as int)) case None => None
    else None
  }

  /** The balance text determines the balance: reading it back gives the cents it was made from. */
  lemma BalanceReadsBack(cents: int)
    ensures ReadBalance(FormatBalance(cents).text) == Some(cents)
  {
    var t := FormatBalance(cents).text;
    if cents > 0 {
      ReadCentsMoneyText(cents);
      assert t[0] == '+' && ZeroText[0] == '$';
      assert t[2..] == MoneyText(cents);
    } else if cents < 0 {
      ReadCentsMoneyText(-cents);
      assert t[0] == '-' && ZeroText[0] == '$';
      assert t[2..] == MoneyText(-cents);
    }
  }

  // ---------------------------------------------------------------- day count

  const MsPerDay: nat := 1000 * 60 * 60 * 24

  function Abs(x: int): nat {
    if x < 0 then -x else x
  }

  /** `Math.ceil(Math.abs(now - date) / msPerDay)`: the whole days needed to cover the gap. */
  function DayCount(nowMs: int, dateMs: int): (d: nat)
    ensures var gap := Abs(nowMs - dateMs); (d - 1) * MsPerDay < gap <= d * MsPerDay
  {
    (Abs(nowMs - dateMs) + MsPerDay - 1) / MsPerDay
  }

  /** A date that long in the future reads the same as one that long in the past. */
  lemma DayCountSymmetric(nowMs: int, dateMs: int)
    ensures DayCount(nowMs, dateMs) == DayCount(dateMs, nowMs)
  {
    assert Abs(nowMs - dateMs) == Abs(dateMs - nowMs);
  }

  // ---------------------------------------------------------------- time ago

  datatype TimeUnit = Day | Week | Month

  /** A "time ago" phrase read back: its number, unit, and whether the unit is plural. */
  datatype Ago = Ago(count: nat, unit: TimeUnit, plural: bool)

  /** `formatTimeAgo` over the day count. */
  function FormatTimeAgo(days: nat): string {
    if days == 1 then "1 day ago"
    else if days <= 7 then NatToString(days) + " days ago"
    else if days <= 30 then
      var weeks := days / 7;
      if weeks == 1 then "1 week ago" else NatToString(weeks) + " weeks ago"
    else
      var months := days / 30;
      if months == 1 then "1 month ago" else NatToString(months) + " months ago"
  }

  /** The leading decimal digits of `s`. */
  function TakeDigits(s: string): (r: string)
    ensures |r| <= |s| && r == s[..|r|] && AllDigits(r)
  {
    if s != [] && IsDigit(s[0]) then [s[0]] + TakeDigits(s[1..]) else []
  }

  lemma {:induction false} TakeDigitsOf(a: string, b: string)
    requires AllDigits(a) && b != [] && !IsDigit(b[0])
    ensures TakeDigits(a + b) == a
  {
    if a == [] {
      assert a + b == b;
    } else {
      assert (a + b)[1..] == a[1..] + b;
      TakeDigitsOf(a[1..], b);
    }
  }

  /** Reads a phrase of the form "<n> <unit>[s] ago". */
  function ReadTimeAgo(s: string): Option<Ago> {
    var num := TakeDigits(s);
    var rest := s[|num|..];
    if num == [] then None
    else
      var n := DigitsValue(num);
      if rest == " day ago" then Some(Ago(n, Day, false))
      else if rest == " days ago" then Some(Ago(n, Day, true))
      else if rest == " week ago" then Some(Ago(n, Week, false))
      else if rest == " weeks ago" then Some(Ago(n, Week, true))
      else if rest == " month ago" then Some(Ago(n, Month, false))
      else if rest == " months ago" then Some(Ago(n, Month, true))
      else None
  }

  /** A phrase built from a number and a suffix starting with a space reads back to that number and suffix. */
  lemma ReadsNumber(n: nat, rest: string)
    requires rest != [] && rest[0] == ' '
    ensures var s := NatToString(n) + rest;
      TakeDigits(s) == NatToString(n) && s[|NatToString(n)|..] == rest && DigitsValue(NatToString(n)) == n
  {
    TakeDigitsOf(NatToString(n), rest);
    ParseNatToString(n);
  }

  /** Up to a week, the phrase counts days, and is singular only for one day. */
  lemma TimeAgoDays(days: nat)
    requires days <= 7
    ensures ReadTimeAgo(FormatTimeAgo(days)) == Some(Ago(days, Day, days != 1))
  {
    if days == 1 {
      assert FormatTimeAgo(days) == NatToString(1) + " day ago";
      ReadsNumber(1, " day ago");
    } else {
      ReadsNumber(days, " days ago");
    }
  }

  /** From 8 to 30 days, the phrase counts whole weeks (1 to 4), singular exactly below 14 days. */
  lemma TimeAgoWeeks(days: nat)
    requires 7 < days <= 30
    ensures var a := ReadTimeAgo(FormatTimeAgo(days));
      a.Some? && a.value.unit == Week && 1 <= a.value.count <= 4
      && a.value.count * 7 <= days < a.value.count * 7 + 7
      && (a.value.plural <==> a.value.count != 1)
      && (a.value.plural <==> days >= 14)
  {
    var weeks := days / 7;
    if weeks == 1 {
      assert FormatTimeAgo(days) == NatToString(1) + " week ago";
      ReadsNumber(1, " week ago");
    } else {
      ReadsNumber(weeks, " weeks ago");
    }
  }

  /** After 30 days, the phrase counts whole 30-day months, singular exactly below 60 days. */
  lemma TimeAgoMonths(days: nat)
    requires 30 < days
    ensures var a := ReadTimeAgo(FormatTimeAgo(days));
      a.Some? && a.value.unit == Month && 1 <= a.value.count
      && a.value.count * 30 <= days < a.value.count * 30 + 30
      && (a.value.plural <==> a.value.count != 1)
      && (a.value.plural <==> days >= 60)
  {
    var months := days / 30;
    if months == 1 {
      assert FormatTimeAgo(days) == NatToString(1) + " month ago";
      ReadsNumber(1, " month ago");
    } else {
      ReadsNumber(months, " months ago");
    }
  }

  // ------------------------------------------------------------- member count

  /** `member_count === 1 ? 'member' : 'members'`. */
  function MemberLabel(count: int): (r: string)
    ensures StartsWith(r, "member")
    ensures r == "member" <==> count == 1
  {
    if count == 1 then "member" else "members"
  }
}
