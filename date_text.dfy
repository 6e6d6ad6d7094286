/** Calendar dates as the report screen writes and reads them: the
    "yyyy-mm-dd" and "dd/mm/yyyy" texts, the two parsers that accept a
    leading date in either form, and JavaScript's string order `<=`, which
    the screen uses to compare the "yyyy-mm-dd" keys. A date is the raw
    (year, month, day) triple; JavaScript's `Date` is not part of this model. */
module DateText {
  import opened Text

  datatype Ymd = Ymd(y: int, m: int, d: int)

  /** Chronological order of triples. */
  predicate YmdLe(a: Ymd, b: Ymd)
  {
    a.y < b.y || (a.y == b.y && (a.m < b.m || (a.m == b.m && a.d <= b.d)))
  }

  /** The triples whose texts are fixed-width: a four-digit year, and a
      month and a day of at most two digits. */
  predicate Canonical(x: Ymd)
  {
    1000 <= x.y <= 9999 && 0 <= x.m <= 99 && 0 <= x.d <= 99
  }

  /** `ymdLocal`: "yyyy-mm-dd", month and day zero-padded to two digits. */
  function YmdText(x: Ymd): string
  {
    IntToString(x.y) + "-" + Pad2(IntToString(x.m)) + "-" + Pad2(IntToString(x.d))
  }

  /** `fmtDate`: "dd/mm/yyyy", day and month zero-padded to two digits. */
  function FmtDate(x: Ymd): string
  {
    Pad2(IntToString(x.d)) + "/" + Pad2(IntToString(x.m)) + "/" + IntToString(x.y)
  }

  // ---------------------------------------------------------------------
  // Digit texts
  // ---------------------------------------------------------------------

  /** 10^k, the helper bound the digit lemmas below are stated with. */
  function Pow10(k: nat): (p: nat)
    ensures p >= 1
  {
    if k == 0 then 1 else 10 * Pow10(k - 1)
  }

  /** `n` digits spell a number below 10^n. */
  lemma {:induction false} DecimalBound(s: string)
    requires AllDigits(s)
    ensures DecimalValue(s) < Pow10(|s|)
  {
    if s != [] {
      DecimalBound(s[..|s| - 1]);
    }
  }

  lemma DecimalOfNatToString(n: nat)
    ensures DecimalValue(NatToString(n)) == n
  {
    if n >= 10 {
      var p := NatToString(n / 10);
      var s := NatToString(n);
      assert s == p + [DigitChar(n % 10)];
      assert s[..|s| - 1] == p;
      DecimalOfNatToString(n / 10);
    }
  }

  /** A zero-padded month or day is two digits that read back as it. */
  lemma TwoDigits(n: int)
    requires 0 <= n <= 99
    ensures var s := Pad2(IntToString(n)); |s| == 2 && AllDigits(s) && DecimalValue(s) == n
  {
    var t := IntToString(n);
    assert t == NatToString(n);
    DecimalOfNatToString(n);
    if n < 10 {
      var s := Pad2(t);
      assert s == "0" + t;
      assert s[..1] == "0";
      assert DecimalValue(s[..1]) == 0;
    } else {
      assert |NatToString(n / 10)| == 1;
    }
  }

  /** A year from 1000 to 9999 is four digits that read back as it. */
  lemma FourDigits(n: int)
    requires 1000 <= n <= 9999
    ensures var s := IntToString(n); |s| == 4 && AllDigits(s) && DecimalValue(s) == n
  {
    assert IntToString(n) == NatToString(n);
    DecimalOfNatToString(n);
    assert |NatToString(n / 1000)| == 1;
    assert NatToString(n / 100) == NatToString(n / 100 / 10) + [DigitChar(n / 100 % 10)];
    assert NatToString(n / 10) == NatToString(n / 10 / 10) + [DigitChar(n / 10 % 10)];
  }

  // ---------------------------------------------------------------------
  // JavaScript string order
  // ---------------------------------------------------------------------

  /** `a <= b` on strings: code unit by code unit, a proper prefix first. */
  predicate StrLe(a: string, b: string)
  {
    if a == [] then true
    else if b == [] then false
    else if a[0] != b[0] then a[0] < b[0]
    else StrLe(a[1..], b[1..])
  }

  /** Any two strings are ordered one way or the other, and only equal
      strings both ways. */
  lemma {:induction false} StrLeTotal(a: string, b: string)
    ensures StrLe(a, b) || StrLe(b, a)
    ensures StrLe(a, b) && StrLe(b, a) ==> a == b
  {
    if a != [] && b != [] && a[0] == b[0] {
      StrLeTotal(a[1..], b[1..]);
      assert a == [a[0]] + a[1..] && b == [b[0]] + b[1..];
    }
  }

  lemma {:induction false} StrLeTransitive(a: string, b: string, c: string)
    requires StrLe(a, b) && StrLe(b, c)
    ensures StrLe(a, c)
  {
    if a != [] && b != [] && c != [] && a[0] == b[0] && b[0] == c[0] {
      StrLeTransitive(a[1..], b[1..], c[1..]);
    }
  }

  /** Comparing two texts that start with parts of the same length: the
      first parts decide unless they are equal. */
  lemma {:induction false} StrLeConcat(a1: string, a2: string, b1: string, b2: string)
    requires |a1| == |b1|
    ensures StrLe(a1 + a2, b1 + b2) == if a1 == b1 then StrLe(a2, b2) else StrLe(a1, b1)
  {
    if a1 == [] {
      assert a1 + a2 == a2 && b1 + b2 == b2;
    } else {
      var a, b := a1 + a2, b1 + b2;
      assert a[0] == a1[0] && b[0] == b1[0];
      if a1[0] == b1[0] {
        assert a[1..] == a1[1..] + a2 && b[1..] == b1[1..] + b2;
        StrLeConcat(a1[1..], a2, b1[1..], b2);
        assert a1 == [a1[0]] + a1[1..] && b1 == [b1[0]] + b1[1..];
        assert a1 == b1 <==> a1[1..] == b1[1..];
      }
    }
  }

  /** On digit texts of the same length the string order is the order of
      the numbers they spell. */
  lemma {:induction false} DigitsOrder(a: string, b: string)
    requires AllDigits(a) && AllDigits(b) && |a| == |b|
    ensures StrLe(a, b) <==> DecimalValue(a) <= DecimalValue(b)
    decreases |a|
  {
    if a != [] {
      var n := |a| - 1;
      var a', b' := a[..n], b[..n];
      assert a == a' + [a[n]] && b == b' + [b[n]];
      StrLeConcat(a', [a[n]], b', [b[n]]);
      DigitsOrder(a', b');
      DigitsOrder(b', a');
      StrLeTotal(a', b');
    }
  }

  /** Two texts "a1-a2" and "b1-b2" with `|a1| == |b1|` compare by the
      first parts unless they are equal. */
  lemma {:induction false} DashConcat(a1: string, a2: string, b1: string, b2: string)
    requires |a1| == |b1|
    ensures StrLe(a1 + "-" + a2, b1 + "-" + b2) == if a1 == b1 then StrLe(a2, b2) else StrLe(a1, b1)
  {
    assert a1 + "-" + a2 == a1 + ("-" + a2);
    assert b1 + "-" + b2 == b1 + ("-" + b2);
    StrLeConcat(a1, "-" + a2, b1, "-" + b2);
    StrLeConcat("-", a2, "-", b2);
  }

  /** Two "y-m-d" texts whose parts have equal lengths compare by the first
      part that differs. */
  lemma {:induction false} DashedOrder(y1: string, m1: string, d1: string, y2: string, m2: string, d2: string)
    requires |y1| == |y2| && |m1| == |m2| && |d1| == |d2|
    ensures StrLe(y1 + "-" + m1 + "-" + d1, y2 + "-" + m2 + "-" + d2)
      == if y1 != y2 then StrLe(y1, y2) else if m1 != m2 then StrLe(m1, m2) else StrLe(d1, d2)
  {
    var p1, p2 := y1 + "-" + m1, y2 + "-" + m2;
    DashConcat(p1, d1, p2, d2);
    DashConcat(y1, m1, y2, m2);
    assert p1 == p2 <==> y1 == y2 && m1 == m2 by {
      if p1 == p2 {
        assert p1[..|y1|] == y1 && p2[..|y2|] == y2;
        assert p1[|y1| + 1..] == m1 && p2[|y2| + 1..] == m2;
      }
    }
  }

  /** Two digit texts of one length: equal exactly when their numbers are,
      and ordered as their numbers are. */
  lemma DigitsCompare(a: string, b: string)
    requires AllDigits(a) && AllDigits(b) && |a| == |b|
    ensures a == b <==> DecimalValue(a) == DecimalValue(b)
    ensures StrLe(a, b) <==> DecimalValue(a) <= DecimalValue(b)
  {
    DigitsOrder(a, b);
    DigitsOrder(b, a);
    StrLeTotal(a, b);
  }

  /** On the canonical triples the order of the "yyyy-mm-dd" texts is the
      order of the dates: the screen's `ymd >= from && ymd <= to` is a date
      range test. */
  lemma YmdTextOrder(a: Ymd, b: Ymd)
    requires Canonical(a) && Canonical(b)
    ensures StrLe(YmdText(a), YmdText(b)) <==> YmdLe(a, b)
  {
    var ya, ma, da := IntToString(a.y), Pad2(IntToString(a.m)), Pad2(IntToString(a.d));
    var yb, mb, db := IntToString(b.y), Pad2(IntToString(b.m)), Pad2(IntToString(b.d));
    FourDigits(a.y); FourDigits(b.y);
    TwoDigits(a.m); TwoDigits(b.m); TwoDigits(a.d); TwoDigits(b.d);
    DashedOrder(ya, ma, da, yb, mb, db);
    DigitsCompare(ya, yb);
    DigitsCompare(ma, mb);
    DigitsCompare(da, db);
  }

  // ---------------------------------------------------------------------
  // Parsing
  // ---------------------------------------------------------------------

  /** The first index from `i` on that is not white space (`\s*`). */
  function SkipSpaces(s: string, i: nat): (r: nat)
    requires i <= |s|
    ensures i <= r <= |s|
    ensures forall k :: i <= k < r ==> IsSpace(s[k])
    ensures r < |s| ==> !IsSpace(s[r])
    decreases |s| - i
  {
    if i < |s| && IsSpace(s[i]) then SkipSpaces(s, i + 1) else i
  }

  /** `(\d{4})-(\d{2})-(\d{2})` at `i`. */
  predicate IsoAt(s: string, i: nat)
  {
    i + 10 <= |s| && DigitsAt(s, i, 4) && s[i + 4] == '-' && DigitsAt(s, i + 5, 2)
    && s[i + 7] == '-' && DigitsAt(s, i + 8, 2)
  }

  /** The value of the `n` digits at `i`. */
  function NumAt(s: string, i: nat, n: nat): (v: nat)
    requires DigitsAt(s, i, n)
    ensures v < Pow10(n)
  {
    DecimalBound(s[i..i + n]);
    DecimalValue(s[i..i + n])
  }

  /** The leading "yyyy-mm-dd" after optional white space, whatever its
      parts: `inRange`'s `pickISO`, and the match `parseISODateOnly` reads. */
  function PickISO(s: Option<string>): (r: Option<string>)
    ensures r.Some? ==> (|r.value| == 10 && r.value[4] == '-' && r.value[7] == '-'
      && DigitsAt(r.value, 0, 4) && DigitsAt(r.value, 5, 2) && DigitsAt(r.value, 8, 2))
  {
    if s.None? || s.value == "" then None
    else
      var t := s.value;
      var i := SkipSpaces(t, 0);
      if !IsoAt(t, i) then None else Some(t[i..i + 10])
  }

  /** `parseISODateOnly`: the date of the leading "yyyy-mm-dd"; nothing for
      a missing or empty text, and nothing when a part is zero. */
  function ParseISODateOnly(s: Option<string>): (r: Option<Ymd>)
    ensures r.Some? ==> 1 <= r.value.y <= 9999 && 1 <= r.value.m <= 99 && 1 <= r.value.d <= 99
    ensures r.Some? ==> PickISO(s).Some?
  {
    var p := PickISO(s);
    if p.None? then None
    else
      var y, m, d := NumAt(p.value, 0, 4), NumAt(p.value, 5, 2), NumAt(p.value, 8, 2);
      if y == 0 || m == 0 || d == 0 then None else Some(Ymd(y, m, d))
  }

  /** One or two digits at `i` followed by '/': their value and the index
      after the '/'. Only one of the two lengths can be followed by '/'. */
  function DayOrMonthAt(s: string, i: nat): (r: Option<(nat, nat)>)
    ensures r.Some? ==> r.value.1 <= |s| && 1 <= r.value.0 + 1 <= 100
  {
    if DigitsAt(s, i, 2) && i + 2 < |s| && s[i + 2] == '/' then Some((NumAt(s, i, 2), i + 3))
    else if DigitsAt(s, i, 1) && i + 1 < |s| && s[i + 1] == '/' then Some((NumAt(s, i, 1), i + 2))
    else None
  }

  /** `parseBRDate`: a "d/m/yyyy" (day and month of one or two digits)
      after optional white space; nothing for a missing or empty text, and
      nothing when a part is zero. */
  function ParseBRDate(s: Option<string>): (r: Option<Ymd>)
    ensures r.Some? ==> 1 <= r.value.y <= 9999 && 1 <= r.value.m <= 99 && 1 <= r.value.d <= 99
  {
    if s.None? || s.value == "" then None
    else
      var t := s.value;
      var i := SkipSpaces(t, 0);
      var day := DayOrMonthAt(t, i);
      if day.None? then None
      else
        var month := DayOrMonthAt(t, day.value.1);
        if month.None? || !DigitsAt(t, month.value.1, 4) then None
        else
          var d, m, y := day.value.0, month.value.0, NumAt(t, month.value.1, 4);
          if d == 0 || m == 0 || y == 0 then None else Some(Ymd(y, m, d))
  }

  /** The layout of a "yyyy-mm-dd" text. */
  lemma DashedLayout(y: string, m: string, d: string)
    requires |y| == 4 && |m| == 2 && |d| == 2 && AllDigits(y) && AllDigits(m) && AllDigits(d)
    ensures var s := y + "-" + m + "-" + d;
      IsoAt(s, 0) && SkipSpaces(s, 0) == 0 && s[0..4] == y && s[5..7] == m && s[8..10] == d && s[0..10] == s
  {
    var s := y + "-" + m + "-" + d;
    assert s[0] == y[0];
    assert s[0..4] == y && s[5..7] == m && s[8..10] == d;
  }

  /** What `ymdLocal` writes, `parseISODateOnly` reads back, and `pickISO`
      keeps as is. */
  lemma ParseISOOfYmdText(x: Ymd)
    requires Canonical(x) && x.m >= 1 && x.d >= 1
    ensures ParseISODateOnly(Some(YmdText(x))) == Some(x)
    ensures PickISO(Some(YmdText(x))) == Some(YmdText(x))
  {
    var y, m, d := IntToString(x.y), Pad2(IntToString(x.m)), Pad2(IntToString(x.d));
    FourDigits(x.y); TwoDigits(x.m); TwoDigits(x.d);
    DashedLayout(y, m, d);
  }

  /** Two digits followed by '/' at `i` read as a day or a month. */
  lemma TwoDigitsSlashAt(s: string, i: nat, t: string)
    requires |t| == 2 && AllDigits(t) && i + 2 < |s| && s[i..i + 2] == t && s[i + 2] == '/'
    ensures DayOrMonthAt(s, i) == Some((DecimalValue(t), i + 3))
  {
    assert s[i] == t[0] && s[i + 1] == t[1];
  }

  /** The layout of a "dd/mm/yyyy" text. */
  lemma SlashedLayout(d: string, m: string, y: string)
    requires |y| == 4 && |m| == 2 && |d| == 2 && AllDigits(y) && AllDigits(m) && AllDigits(d)
    ensures var s := d + "/" + m + "/" + y;
      SkipSpaces(s, 0) == 0
      && DayOrMonthAt(s, 0) == Some((DecimalValue(d), 3))
      && DayOrMonthAt(s, 3) == Some((DecimalValue(m), 6))
      && DigitsAt(s, 6, 4) && NumAt(s, 6, 4) == DecimalValue(y)
  {
    var s := d + "/" + m + "/" + y;
    assert s[0..2] == d && s[2] == '/' && s[3..5] == m && s[5] == '/' && s[6..10] == y;
    assert s[0] == d[0] && !IsSpace(s[0]);
    TwoDigitsSlashAt(s, 0, d);
    TwoDigitsSlashAt(s, 3, m);
    assert forall k :: 6 <= k < 10 ==> s[k] == y[k - 6];
  }

  /** What `fmtDate` writes, `parseBRDate` reads back. */
  lemma ParseBROfFmtDate(x: Ymd)
    requires Canonical(x) && x.m >= 1 && x.d >= 1
    ensures ParseBRDate(Some(FmtDate(x))) == Some(x)
  {
    var y, m, d := IntToString(x.y), Pad2(IntToString(x.m)), Pad2(IntToString(x.d));
    FourDigits(x.y); TwoDigits(x.m); TwoDigits(x.d);
    SlashedLayout(d, m, y);
  }

  /** A ten-character text with dashes at 4 and 7 is its three parts
      joined by dashes. */
  lemma {:induction false} DashedSplit(p: string)
    requires |p| == 10 && p[4] == '-' && p[7] == '-'
    ensures p == p[0..4] + "-" + p[5..7] + "-" + p[8..10]
  {
  }

  /** A "yyyy-mm-dd" text is the text of the date it spells when its year
      has four significant digits. */
  lemma {:induction false} DashedIsYmdText(p: string)
    requires |p| == 10 && p[4] == '-' && p[7] == '-'
    requires DigitsAt(p, 0, 4) && DigitsAt(p, 5, 2) && DigitsAt(p, 8, 2) && NumAt(p, 0, 4) >= 1000
    ensures p == YmdText(Ymd(NumAt(p, 0, 4), NumAt(p, 5, 2), NumAt(p, 8, 2)))
  {
    var x := Ymd(NumAt(p, 0, 4), NumAt(p, 5, 2), NumAt(p, 8, 2));
    var y, m, d := IntToString(x.y), Pad2(IntToString(x.m)), Pad2(IntToString(x.d));
    FourDigits(x.y); TwoDigits(x.m); TwoDigits(x.d);
    DigitsCompare(p[0..4], y);
    DigitsCompare(p[5..7], m);
    DigitsCompare(p[8..10], d);
    DashedSplit(p);
    assert YmdText(x) == y + "-" + m + "-" + d;
  }

  /** A date `parseISODateOnly` accepts with a four-digit year is the one
      `pickISO` picks out of the same text. */
  lemma {:induction false} PickISOAgrees(s: Option<string>)
    requires ParseISODateOnly(s).Some? && ParseISODateOnly(s).value.y >= 1000
    ensures PickISO(s) == Some(YmdText(ParseISODateOnly(s).value))
  {
    DashedIsYmdText(PickISO(s).value);
  }
}
