/** The scheduled-slot screen (src/screens/VagasAgendamentoScreen.tsx): how
    a slot's dates and times are shown, and the two-step choice of the day
    whose slots are listed. The conversion of ISO instants to Brasília time
    is an input: the text it yields is a parameter. */
module Vagas {
  import opened Text
  import opened DateText

  // ---------------------------------------------------------------------
  // Formatters
  // ---------------------------------------------------------------------

  /** "y-m-d…" written as "dd/mm/y"; `fallback` when the text has fewer
      than three parts or an empty one. */
  function DayMonthYear(v: string, fallback: string): (r: string)
    ensures var parts := SplitOn(v, '-');
      (|parts| < 3 || parts[0] == "" || parts[1] == "" || parts[2] == "") ==> r == fallback
  {
    var parts := SplitOn(v, '-');
    if |parts| < 3 || parts[0] == "" || parts[1] == "" || parts[2] == "" then fallback
    else Pad2(parts[2]) + "/" + Pad2(parts[1]) + "/" + parts[0]
  }

  /** `formatDateBR`: "—" for a missing or empty value; else the first ten
      characters (of the Brasília conversion when the value is an instant
      with a 'T') as "dd/mm/yyyy", or the value itself when a part is
      missing. */
  function FormatDateBR(value: Option<string>, converted: Option<string>): (r: string)
    ensures value.None? || value.value == "" ==> r == "—"
  {
    if value.None? || value.value == "" then "—"
    else if 'T' in value.value then
      var v := if converted.Some? then Take(converted.value, 10) else Take(value.value, 10);
      DayMonthYear(v, value.value)
    else DayMonthYear(Take(value.value, 10), value.value)
  }

  /** A "yyyy-mm-dd" date, alone or followed by more text without a 'T',
      is shown as the same day in "dd/mm/yyyy". */
  lemma FormatDateBROfDate(x: Ymd, rest: string, converted: Option<string>)
    requires Canonical(x) && 'T' !in rest
    ensures FormatDateBR(Some(YmdText(x) + rest), converted) == FmtDate(x)
  {
    var s := YmdText(x);
    YmdTextShape(x);
    assert Take(s + rest, 10) == s;
    assert 'T' !in s + rest by {
      assert forall i :: 0 <= i < |s + rest| ==> (s + rest)[i] != 'T' by {
        forall i | 0 <= i < |s + rest|
          ensures (s + rest)[i] != 'T'
        {
          if i >= |s| {
            assert (s + rest)[i] == rest[i - |s|];
          }
        }
      }
    }
    DayMonthYearOfYmd(x, s + rest);
  }

  /** An instant whose Brasília conversion starts with a "yyyy-mm-dd" date
      is shown as that day. */
  lemma FormatDateBROfInstant(value: string, x: Ymd, rest: string)
    requires Canonical(x) && 'T' in value
    ensures FormatDateBR(Some(value), Some(YmdText(x) + rest)) == FmtDate(x)
  {
    YmdTextShape(x);
    assert Take(YmdText(x) + rest, 10) == YmdText(x);
    DayMonthYearOfYmd(x, value);
  }

  /** A canonical date's text is ten digits and dashes. */
  lemma YmdTextShape(x: Ymd)
    requires Canonical(x)
    ensures |YmdText(x)| == 10
    ensures forall i :: 0 <= i < |YmdText(x)| ==> IsDigit(YmdText(x)[i]) || YmdText(x)[i] == '-'
  {
    var y, m, d := IntToString(x.y), Pad2(IntToString(x.m)), Pad2(IntToString(x.d));
    FourDigits(x.y); TwoDigits(x.m); TwoDigits(x.d);
    assert YmdText(x) == y + "-" + m + "-" + d;
  }

  /** The text of a canonical date is rewritten as the same day. */
  lemma DayMonthYearOfYmd(x: Ymd, fallback: string)
    requires Canonical(x)
    ensures DayMonthYear(YmdText(x), fallback) == FmtDate(x)
  {
    var y, m, d := IntToString(x.y), Pad2(IntToString(x.m)), Pad2(IntToString(x.d));
    YmdTextParts(x);
    TwoDigits(x.m); TwoDigits(x.d);
    assert Pad2(m) == m && Pad2(d) == d;
  }

  /** A canonical date's text splits at '-' into its three parts. */
  lemma YmdTextParts(x: Ymd)
    requires Canonical(x)
    ensures SplitOn(YmdText(x), '-') == [IntToString(x.y), Pad2(IntToString(x.m)), Pad2(IntToString(x.d))]
  {
    var y, m, d := IntToString(x.y), Pad2(IntToString(x.m)), Pad2(IntToString(x.d));
    FourDigits(x.y); TwoDigits(x.m); TwoDigits(x.d);
    assert [y, m, d][1..] == [m, d] && [m, d][1..] == [d];
    assert Join([m, d], "-") == m + "-" + d;
    assert y + "-" + m + "-" + d == Join([y, m, d], "-");
    assert forall k :: 0 <= k < 3 ==> '-' !in [y, m, d][k] by {
      assert forall i :: 0 <= i < |y| ==> IsDigit(y[i]);
      assert forall i :: 0 <= i < |m| ==> IsDigit(m[i]);
      assert forall i :: 0 <= i < |d| ==> IsDigit(d[i]);
    }
    SplitOnJoin([y, m, d], '-');
  }

  /** A value whose first ten characters hold no '-' (and no 'T') is shown
      as it is: the date has a missing part. */
  lemma FormatDateBRMissingPart(value: string, converted: Option<string>)
    requires value != "" && 'T' !in value && '-' !in Take(value, 10)
    ensures FormatDateBR(Some(value), converted) == value
  {
    SplitOnWhole(Take(value, 10), '-');
  }

  /** `formatTimeHM`: "—" for a missing or empty value, and for an instant
      whose Brasília conversion is empty; the conversion for an instant;
      else the first two ':'-separated parts zero-padded as "HH:MM", or the
      value itself when it has no ':'. */
  function FormatTimeHM(value: Option<string>, converted: Option<string>): (r: string)
    ensures value.None? || value.value == "" ==> r == "—"
    ensures value.Some? && 'T' in value.value ==>
      r == (if converted.None? || converted.value == "" then "—" else converted.value)
    ensures value.Some? && value.value != "" && 'T' !in value.value && ':' !in value.value ==> r == value.value
  {
    if value.None? || value.value == "" then "—"
    else if 'T' in value.value then
      if converted.None? || converted.value == "" then "—" else converted.value
    else
      var parts := SplitOn(value.value, ':');
      SplitOnCount(value.value, ':');
      if |parts| >= 2 then Pad2(parts[0]) + ":" + Pad2(parts[1]) else value.value
  }

  /** A text with no separator has one part; a text with one has two or
      more. */
  lemma {:induction false} SplitOnCount(s: string, c: char)
    ensures c !in s <==> |SplitOn(s, c)| == 1
  {
    if s != [] {
      SplitOnCount(s[1..], c);
      assert c in s <==> s[0] == c || c in s[1..];
    }
  }

  /** A time "h:m" or "h:m:s…" is shown as its hours and minutes, each
      zero-padded to two characters. */
  lemma FormatTimeHMOfParts(parts: seq<string>, converted: Option<string>)
    requires |parts| >= 2
    requires forall k :: 0 <= k < |parts| ==> ':' !in parts[k] && 'T' !in parts[k]
    ensures FormatTimeHM(Some(Join(parts, ":")), converted) == Pad2(parts[0]) + ":" + Pad2(parts[1])
  {
    SplitOnJoin(parts, ':');
    JoinFree(parts, ':', 'T');
  }

  /** Joining parts free of a character other than the separator leaves the
      character out; with two or more parts the separator is in. */
  lemma {:induction false} JoinFree(parts: seq<string>, sep: char, c: char)
    requires |parts| >= 1 && c != sep
    requires forall k :: 0 <= k < |parts| ==> c !in parts[k]
    ensures c !in Join(parts, [sep])
    ensures |parts| >= 2 ==> sep in Join(parts, [sep])
  {
    if |parts| > 1 {
      JoinFree(parts[1..], sep, c);
      var j := Join(parts, [sep]);
      assert j == parts[0] + [sep] + Join(parts[1..], [sep]);
      assert j[|parts[0]|] == sep;
    }
  }

  /** The parts of a text free of a character are free of it too. */
  lemma {:induction false} SplitOnFree(s: string, c: char, t: char)
    requires t !in s
    ensures forall k :: 0 <= k < |SplitOn(s, c)| ==> t !in SplitOn(s, c)[k]
  {
    if s != [] {
      assert t !in s[1..] by {
        assert forall i :: 0 <= i < |s[1..]| ==> s[1..][i] == s[i + 1];
      }
      SplitOnFree(s[1..], c, t);
    }
  }

  /** Padding to two characters only ever adds zeros in front. */
  lemma Pad2Adds(s: string, c: char)
    requires c !in s && c != '0'
    ensures c !in Pad2(s)
    ensures Pad2(Pad2(s)) == Pad2(s)
  {
  }

  /** Showing a shown time again changes nothing. */
  lemma FormatTimeHMIdempotent(value: string, converted: Option<string>)
    requires 'T' !in value
    ensures FormatTimeHM(Some(FormatTimeHM(Some(value), converted)), converted)
      == FormatTimeHM(Some(value), converted)
  {
    if value == "" {
      assert FormatTimeHM(Some(value), converted) == "—";
      assert 'T' !in "—" && ':' !in "—";
    } else {
      var parts := SplitOn(value, ':');
      if |parts| >= 2 {
        var a, b := Pad2(parts[0]), Pad2(parts[1]);
        SplitOnFree(value, ':', 'T');
        Pad2Adds(parts[0], 'T'); Pad2Adds(parts[1], 'T');
        Pad2Adds(parts[0], ':'); Pad2Adds(parts[1], ':');
        assert a + ":" + b == Join([a, b], ":");
        FormatTimeHMOfParts([a, b], converted);
      } else {
        SplitOnCount(value, ':');
      }
    }
  }

  /** `formatDateObjBR`: "—" without a date, else "dd/mm/yyyy". */
  function FormatDateObjBR(d: Option<Ymd>): (r: string)
    ensures d.None? ==> r == "—"
  {
    if d.None? then "—" else FmtDate(d.value)
  }

  /** The day chosen in the picker is shown as the same text a slot's date
      of that day is shown as, and reads back as that day. */
  lemma FormatDateObjBRAgrees(x: Ymd)
    requires Canonical(x) && x.m >= 1 && x.d >= 1
    ensures FormatDateObjBR(Some(x)) == FormatDateBR(Some(YmdText(x)), None)
    ensures ParseBRDate(Some(FormatDateObjBR(Some(x)))) == Some(x)
  {
    FormatDateBROfDate(x, "", None);
    assert YmdText(x) + "" == YmdText(x);
    ParseBROfFmtDate(x);
  }

  // ---------------------------------------------------------------------
  // Choosing the day
  // ---------------------------------------------------------------------

  /** The native picker's event types. */
  datatype PickerEvent = Set | Dismissed | NeutralButtonPressed

  /** The screen's date state: the day whose slots are listed, the day
      picked but not yet confirmed, and which of the two dialogs is open. */
  class DateFlow {
    var selectedDate: Ymd
    var tempDate: Option<Ymd>
    var showNativePicker: bool
    var showConfirmModal: bool

    constructor(today: Ymd)
      ensures selectedDate == today && tempDate == None
      ensures !showNativePicker && !showConfirmModal
    {
      selectedDate := today;
      tempDate := None;
      showNativePicker := false;
      showConfirmModal := false;
    }

    /** The day the confirmation dialog shows. */
    function DateForConfirmModal(): (r: Ymd)
      reads this
      ensures tempDate.Some? ==> r == tempDate.value
      ensures tempDate.None? ==> r == selectedDate
    {
      if tempDate.Some? then tempDate.value else selectedDate
    }

    /** `openDatePicker`: the picker opens on the listed day. */
    method OpenDatePicker()
      modifies this
      ensures tempDate == Some(selectedDate) && showNativePicker
      ensures selectedDate == old(selectedDate) && showConfirmModal == old(showConfirmModal)
    {
      tempDate := Some(selectedDate);
      showNativePicker := true;
    }

    /** `onChangeNativePicker`: cancelling closes the picker and forgets the
      picked day; choosing a day closes it, keeps the day and opens the
      confirmation. The listed day never changes here. */
    method OnChangeNativePicker(event: PickerEvent, newDate: Option<Ymd>)
      modifies this
      ensures selectedDate == old(selectedDate)
      ensures event == Dismissed ==>
        !showNativePicker && tempDate == None && showConfirmModal == old(showConfirmModal)
      ensures event == Set && newDate.Some? ==>
        !showNativePicker && tempDate == newDate && showConfirmModal
      ensures event != Dismissed && !(event == Set && newDate.Some?) ==>
        showNativePicker == old(showNativePicker) && tempDate == old(tempDate)
        && showConfirmModal == old(showConfirmModal)
    {
      if event == Dismissed {
        showNativePicker := false;
        tempDate := None;
        return;
      }
      if event == Set && newDate.Some? {
        showNativePicker := false;
        tempDate := newDate;
        showConfirmModal := true;
      }
    }

    /** `cancelConfirm`: closes the confirmation; the listed day stays. */
    method CancelConfirm()
      modifies this
      ensures !showConfirmModal && tempDate == None
      ensures selectedDate == old(selectedDate) && showNativePicker == old(showNativePicker)
    {
      showConfirmModal := false;
      tempDate := None;
    }

    /** `confirmDate`: the picked day, when there is one, becomes the listed
      day; the confirmation closes either way. */
    method ConfirmDate()
      modifies this
      ensures old(tempDate).Some? ==> selectedDate == old(tempDate).value
      ensures old(tempDate).None? ==> selectedDate == old(selectedDate)
      ensures selectedDate == old(DateForConfirmModal())
      ensures !showConfirmModal && tempDate == None && showNativePicker == old(showNativePicker)
    {
      if tempDate.Some? {
        selectedDate := tempDate.value;
      }
      showConfirmModal := false;
      tempDate := None;
    }
  }
}
