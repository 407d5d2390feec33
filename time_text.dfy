/**
  The text form of an alarm time, "HH:MM", and the JavaScript string and Date
  operations the app uses on it: `toString().padStart(2, '0')`, `split(':')`,
  `Number(...)` on digit strings, the `^\d{2}:\d{2}$` shape check, and the
  Date setters `setHours`, `setMinutes`, `setSeconds`.
*/
module TimeText {

  // ---------------------------------------------------------------------------
  // Decimal digits

  predicate IsDigit(c: char) {
    '0' <= c <= '9'
  }

  function DigitValue(c: char): (n: nat)
    requires IsDigit(c)
    ensures n < 10
  {
    (c as int - '0' as int) as nat
  }

  function DigitChar(n: nat): (c: char)
    requires n < 10
    ensures IsDigit(c) && DigitValue(c) == n
  {
    ('0' as int + n) as char
  }

  lemma DigitCharOfValue(c: char)
    requires IsDigit(c)
    ensures DigitChar(DigitValue(c)) == c
  {
  }

  predicate AllDigits(s: string) {
    forall i :: 0 <= i < |s| ==> IsDigit(s[i])
  }

  function Pow10(k: nat): (p: nat)
    ensures p >= 1
  {
    if k == 0 then 1 else 10 * Pow10(k - 1)
  }

  /** `Number(s)` for a string made of decimal digits only (leading zeros allowed). */
  function DigitsValue(s: string): (n: nat)
    requires AllDigits(s)
    ensures n < Pow10(|s|)
    decreases |s|
  {
    if s == [] then 0 else 10 * DigitsValue(s[..|s| - 1]) + DigitValue(s[|s| - 1])
  }

  /** `Number` ignores leading zeros: "08" reads as 8. */
  lemma {:induction false} DigitsValueLeadingZero(s: string)
    requires AllDigits(s)
    ensures AllDigits(['0'] + s) && DigitsValue(['0'] + s) == DigitsValue(s)
    decreases |s|
  {
    var z := ['0'] + s;
    if s != [] {
      assert z[..|z| - 1] == ['0'] + s[..|s| - 1];
      DigitsValueLeadingZero(s[..|s| - 1]);
    } else {
      assert z[..|z| - 1] == [];
    }
  }

  lemma DigitsValueTwo(s: string)
    requires |s| == 2 && AllDigits(s)
    ensures DigitsValue(s) == 10 * DigitValue(s[0]) + DigitValue(s[1])
  {
    var first := s[..1];
    assert s[..|s| - 1] == first;
    assert first[..|first| - 1] == [];
    assert DigitsValue(first) == DigitValue(s[0]);
  }

  /** `n.toString()` for a non-negative integer: its decimal digits, without leading zeros. */
  function DecimalString(n: nat): (s: string)
    ensures 1 <= |s| && AllDigits(s) && DigitsValue(s) == n
    ensures |s| == 1 <==> n < 10
    ensures |s| == 2 <==> 10 <= n < 100
  {
    if n < 10 then
      [DigitChar(n)]
    else
      var s := DecimalString(n / 10) + [DigitChar(n % 10)];
      assert s[..|s| - 1] == DecimalString(n / 10);
      s
  }

  /** `n.toString().padStart(2, '0')`. */
  function PadTwo(n: nat): (s: string)
    ensures AllDigits(s) && DigitsValue(s) == n
    ensures |s| == 2 <==> n < 100
    ensures n < 100 ==> s == [DigitChar(n / 10), DigitChar(n % 10)]
  {
    var d := DecimalString(n);
    if |d| < 2 then
      var s := ['0'] + d;
      assert s[..|s| - 1] == ['0'] && s[..|s| - 1][..0] == [];
      s
    else
      d
  }

  // ---------------------------------------------------------------------------
  // String.prototype.split with a one-character separator

  /** `s.split(sep)`: the maximal separator-free pieces of `s`, in order, empty pieces kept. */
  function Split(s: string, sep: char): (parts: seq<string>)
    ensures |parts| >= 1
    ensures forall i :: 0 <= i < |parts| ==> sep !in parts[i]
  {
    if s == [] then
      [[]]
    else
      var rest := Split(s[1..], sep);
      if s[0] == sep then [[]] + rest else [[s[0]] + rest[0]] + rest[1..]
  }

  /** `parts.join(sep)`, the inverse of `Split`. */
  function Join(parts: seq<string>, sep: char): string
    requires |parts| >= 1
  {
    if |parts| == 1 then parts[0] else parts[0] + [sep] + Join(parts[1..], sep)
  }

  /** Splitting loses nothing: joining the pieces again gives back the string. */
  lemma {:induction false} SplitJoin(s: string, sep: char)
    ensures Join(Split(s, sep), sep) == s
  {
    if s != [] {
      var rest := Split(s[1..], sep);
      SplitJoin(s[1..], sep);
      if s[0] == sep {
        assert ([[]] + rest)[1..] == rest;
      } else if |rest| > 1 {
        var parts := [[s[0]] + rest[0]] + rest[1..];
        assert parts[1..] == rest[1..];
        assert Join(rest, sep) == rest[0] + [sep] + Join(rest[1..], sep);
      }
    }
  }

  lemma {:induction false} SplitWithoutSeparator(s: string, sep: char)
    requires sep !in s
    ensures Split(s, sep) == [s]
  {
    if s != [] {
      SplitWithoutSeparator(s[1..], sep);
      assert [s[0]] + s[1..] == s;
    }
  }

  lemma {:induction false} SplitAtFirstSeparator(a: string, sep: char, b: string)
    requires sep !in a
    ensures Split(a + [sep] + b, sep) == [a] + Split(b, sep)
  {
    var s := a + [sep] + b;
    if a == [] {
      assert s[1..] == b;
    } else {
      assert s[1..] == a[1..] + [sep] + b;
      SplitAtFirstSeparator(a[1..], sep, b);
      assert [a[0]] + a[1..] == a;
    }
  }

  // ---------------------------------------------------------------------------
  // "HH:MM"

  /** The web prompt's check `/^\d{2}:\d{2}$/.test(s)`: two ASCII digits, a colon, two ASCII digits. */
  predicate IsTimeText(s: string) {
    |s| == 5 && IsDigit(s[0]) && IsDigit(s[1]) && s[2] == ':' && IsDigit(s[3]) && IsDigit(s[4])
  }

  /**
    The anchored pattern `^\d{2}:\d{2}$` read structurally: a text passes the
    check exactly when it is two decimal digits, a colon and two decimal
    digits, with nothing before or after.
  */
  lemma TimeTextOfPairs(a: string, b: string)
    ensures IsTimeText(a + ":" + b) <==> |a| == 2 && |b| == 2 && AllDigits(a) && AllDigits(b)
  {
    var s := a + ":" + b;
    if IsTimeText(s) {
      assert |a| == 2 && |b| == 2;
      assert a == s[..2] && b == s[3..];
    }
  }

  /** A well-shaped time text splits on ':' into exactly its two digit pairs. */
  lemma SplitTimeText(s: string)
    requires IsTimeText(s)
    ensures Split(s, ':') == [s[..2], s[3..]]
  {
    assert s == s[..2] + [':'] + s[3..];
    SplitAtFirstSeparator(s[..2], ':', s[3..]);
    SplitWithoutSeparator(s[3..], ':');
  }

  /**
    `const [hours, minutes] = s.split(':').map(Number)` on a well-shaped time
    text: each half read as a two-digit decimal number. No range check is made,
    so "99:99" gives (99, 99).
  */
  function SplitTime(s: string): (hm: (nat, nat))
    requires IsTimeText(s)
    ensures hm.0 == 10 * DigitValue(s[0]) + DigitValue(s[1])
    ensures hm.1 == 10 * DigitValue(s[3]) + DigitValue(s[4])
  {
    SplitTimeText(s);
    var parts := Split(s, ':');
    DigitsValueTwo(parts[0]);
    DigitsValueTwo(parts[1]);
    (DigitsValue(parts[0]), DigitsValue(parts[1]))
  }

  // ---------------------------------------------------------------------------
  // Time of day held by a JavaScript Date

  /** The time-of-day part of a Date; the calendar day is not modelled. */
  datatype Clock = Clock(hour: nat, minute: nat, second: nat)

  predicate ValidClock(c: Clock) {
    c.hour < 24 && c.minute < 60 && c.second < 60
  }

  /** The time of day `t` seconds after midnight, any whole days dropped. */
  function FromSeconds(t: nat): (c: Clock)
    ensures ValidClock(c)
  {
    Clock((t / 3600) % 24, (t / 60) % 60, t % 60)
  }

  lemma FromSecondsCarry(h: nat, m: nat, s: nat)
    requires s < 60
    ensures FromSeconds(h * 3600 + m * 60 + s) == Clock((h + m / 60) % 24, m % 60, s)
  {
    var q, r := m / 60, m % 60;
    var t := h * 3600 + m * 60 + s;
    assert t == (h + q) * 3600 + r * 60 + s;
    assert t / 3600 == h + q;
    assert t / 60 == (h + q) * 60 + r;
  }

  lemma AddAfterMod(a: nat, b: nat)
    ensures (a % 24 + b) % 24 == (a + b) % 24
  {
    var x := a % 24 + b;
    assert a == 24 * (a / 24) + a % 24;
    assert x == 24 * (x / 24) + x % 24;
    assert a + b == 24 * (a / 24 + x / 24) + x % 24;
  }

  /** `date.setHours(h)`: hours past 23 carry into the (unmodelled) day. */
  function SetHours(c: Clock, h: nat): (r: Clock)
    requires ValidClock(c)
    ensures ValidClock(r)
    ensures r.hour == h % 24 && r.minute == c.minute && r.second == c.second
  {
    FromSecondsCarry(h, c.minute, c.second);
    FromSeconds(h * 3600 + c.minute * 60 + c.second)
  }

  /** `date.setMinutes(m)`: minutes past 59 carry into the hour. */
  function SetMinutes(c: Clock, m: nat): (r: Clock)
    requires ValidClock(c)
    ensures ValidClock(r)
    ensures r.hour == (c.hour + m / 60) % 24 && r.minute == m % 60 && r.second == c.second
  {
    FromSecondsCarry(c.hour, m, c.second);
    FromSeconds(c.hour * 3600 + m * 60 + c.second)
  }

  /** `date.setSeconds(s)`, for the only argument the app passes, 0 included. */
  function SetSeconds(c: Clock, s: nat): (r: Clock)
    requires ValidClock(c) && s < 60
    ensures r == Clock(c.hour, c.minute, s)
  {
    FromSecondsCarry(c.hour, c.minute, s);
    FromSeconds(c.hour * 3600 + c.minute * 60 + s)
  }

  /** Setting hours, then minutes, then seconds to 0 leaves nothing of the starting time of day. */
  lemma SettersInOrder(now: Clock, h: nat, m: nat)
    requires ValidClock(now)
    ensures SetSeconds(SetMinutes(SetHours(now, h), m), 0) == Clock((h + m / 60) % 24, m % 60, 0)
  {
    var withHours := SetHours(now, h);
    var withMinutes := SetMinutes(withHours, m);
    AddAfterMod(h, m / 60);
    assert withMinutes.hour == (h + m / 60) % 24;
  }

  /**
    `createDateFromTime(s)`: a Date made at `now` whose hours, minutes and
    seconds are then set from `s`. Out-of-range values are not rejected; they
    wrap as the Date setters make them.
  */
  function CreateDateFromTime(s: string, now: Clock): (c: Clock)
    requires IsTimeText(s) && ValidClock(now)
    ensures ValidClock(c) && c.second == 0
    ensures c.minute == SplitTime(s).1 % 60
    ensures c.hour == (SplitTime(s).0 + SplitTime(s).1 / 60) % 24
  {
    var hm := SplitTime(s);
    SettersInOrder(now, hm.0, hm.1);
    SetSeconds(SetMinutes(SetHours(now, hm.0), hm.1), 0)
  }

  /**
    The picker's `${hours}:${minutes}` with both parts zero-padded. For any
    time a Date can hold this is a well-shaped time text, and splitting it
    gives back the hour and the minute.
  */
  function Format(c: Clock): (s: string)
    ensures c.hour < 100 && c.minute < 100 ==> IsTimeText(s) && SplitTime(s) == (c.hour, c.minute)
    ensures |s| == 5 <==> c.hour < 100 && c.minute < 100
  {
    PadTwo(c.hour) + ":" + PadTwo(c.minute)
  }

  lemma NoCarry(h: nat, m: nat)
    requires h < 24 && m < 60
    ensures (h + m / 60) % 24 == h && m % 60 == m
  {
  }

  /** Formatting a Date's time and reading it back into a Date keeps hour and minute and zeroes seconds. */
  lemma FormatThenCreate(c: Clock, now: Clock)
    requires ValidClock(c) && ValidClock(now)
    ensures CreateDateFromTime(Format(c), now) == Clock(c.hour, c.minute, 0)
  {
    var text := Format(c);
    assert SplitTime(text) == (c.hour, c.minute);
    CreateInRange(text, now);
  }

  /** An in-range time text is read into a Date without any carry. */
  lemma CreateInRange(s: string, now: Clock)
    requires IsTimeText(s) && ValidClock(now)
    requires SplitTime(s).0 <= 23 && SplitTime(s).1 <= 59
    ensures CreateDateFromTime(s, now) == Clock(SplitTime(s).0, SplitTime(s).1, 0)
  {
    var hm := SplitTime(s);
    NoCarry(hm.0, hm.1);
  }

  /** Zero-padding the value of a two-digit string gives back that string. */
  lemma PadTwoOfDigits(t: string)
    requires |t| == 2 && AllDigits(t)
    ensures PadTwo(10 * DigitValue(t[0]) + DigitValue(t[1])) == t
  {
    var a, b := DigitValue(t[0]), DigitValue(t[1]);
    assert (10 * a + b) / 10 == a && (10 * a + b) % 10 == b;
    DigitCharOfValue(t[0]);
    DigitCharOfValue(t[1]);
  }

  /** Formatting the hour and minute read from a time text gives the text back, whatever their range. */
  lemma FormatSplitTime(s: string, second: nat)
    requires IsTimeText(s)
    ensures Format(Clock(SplitTime(s).0, SplitTime(s).1, second)) == s
  {
    var hm := SplitTime(s);
    var a, b := s[..2], s[3..];
    assert a[0] == s[0] && a[1] == s[1] && b[0] == s[3] && b[1] == s[4];
    PadTwoOfDigits(a);
    PadTwoOfDigits(b);
    assert PadTwo(hm.0) == a && PadTwo(hm.1) == b;
    assert s == a + ":" + b;
  }

  /** A time text with hour at most 23 and minute at most 59 survives reading into a Date and formatting. */
  lemma CreateThenFormat(s: string, now: Clock)
    requires IsTimeText(s) && ValidClock(now)
    requires SplitTime(s).0 <= 23 && SplitTime(s).1 <= 59
    ensures Format(CreateDateFromTime(s, now)) == s
  {
    CreateInRange(s, now);
    FormatSplitTime(s, 0);
  }
}
