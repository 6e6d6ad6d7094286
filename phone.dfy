/** Brazilian phone numbers as the login screen, the session provider and
    the profile tab handle them: reduce any input to at most 11 digits (area
    code and number) and display them as "(dd) ddddd-dddd". */
module Phone {
  import opened Text

  /** Drop a pasted country code 55, only when at least 12 digits remain. */
  function StripCountry(d: string): string
  {
    if StartsWith(d, "55") && |d| >= 12 then d[2..] else d
  }

  /** Drop one trunk '0' (LoginScreen's test). */
  function StripTrunk(d: string): string
  {
    if |d| > 0 && d[0] == '0' then d[1..] else d
  }

  /** Drop one trunk '0' (AuthProvider's test, with `startsWith`). */
  function StripTrunkAuth(d: string): string
  {
    if StartsWith(d, "0") then d[1..] else d
  }

  function KeepLast11(d: string): string
  {
    if |d| > 11 then d[|d| - 11..] else d
  }

  /** LoginScreen's `normalizePhoneDigits`: keep the digits, drop a pasted
      country code 55 only when at least 12 digits were typed, drop one
      trunk '0', and keep the last 11 digits. */
  function NormalizePhoneDigits(input: string): (r: string)
    ensures AllDigits(r) && |r| <= 11
  {
    KeepLast11(StripTrunk(StripCountry(OnlyDigits(input))))
  }

  /** AuthProvider's copy. */
  function NormalizePhoneDigitsAuth(input: string): string
  {
    KeepLast11(StripTrunkAuth(StripCountry(OnlyDigits(input))))
  }

  /** The two copies compute the same number, so the digits the login screen
      checks are the digits the session logs in with. */
  lemma NormalizationsAgree(input: string)
    ensures NormalizePhoneDigitsAuth(input) == NormalizePhoneDigits(input)
  {
    var d := StripCountry(OnlyDigits(input));
    assert StartsWith(d, "0") <==> |d| > 0 && d[0] == '0' by {
      if |d| > 0 {
        assert d[..1] == [d[0]];
      }
    }
  }

  /** The normalised number is what is left of the typed digits after
      dropping some leading ones: nothing is reordered or invented. */
  lemma NormalizedIsSuffix(input: string)
    ensures var d := OnlyDigits(input);
      |NormalizePhoneDigits(input)| <= |d| && NormalizePhoneDigits(input) == d[|d| - |NormalizePhoneDigits(input)|..]
  {
  }

  /** A plain 10 or 11 digit number with no leading zero is kept as it is. */
  lemma PlainNumberKept(input: string)
    requires AllDigits(input) && 10 <= |input| <= 11 && input[0] != '0'
    ensures NormalizePhoneDigits(input) == input
  {
    OnlyDigitsOfDigits(input);
  }

  /** The area-code layout shared by `maskBRPhone` and `maskPhone`. */
  function MaskDigits(d: string): string
  {
    if |d| <= 2 then d
    else if |d| <= 6 then "(" + d[..2] + ") " + d[2..]
    else if |d| <= 10 then "(" + d[..2] + ") " + d[2..6] + "-" + d[6..]
    else "(" + d[..2] + ") " + d[2..7] + "-" + d[7..11]
  }

  lemma NoDigits(s: string)
    requires s == "(" || s == ") " || s == "-"
    ensures OnlyDigits(s) == ""
  {
    OnlyDigitsOfNonDigits(s);
  }

  lemma DigitsOfPieces(a: string, b: string)
    requires AllDigits(a) && AllDigits(b)
    ensures OnlyDigits("(" + a + ") " + b) == a + b
  {
    var open := "(";
    var close := ") ";
    NoDigits(open);
    NoDigits(close);
    OnlyDigitsOfDigits(a);
    OnlyDigitsOfDigits(b);
    OnlyDigitsConcat(open, a);
    assert OnlyDigits(open + a) == a;
    OnlyDigitsConcat(open + a, close);
    assert OnlyDigits(open + a + close) == a;
    OnlyDigitsConcat(open + a + close, b);
  }

  /** The mask only inserts punctuation: reading the digits back out of a
      masked number of at most 11 digits gives the number. */
  lemma MaskKeepsDigits(d: string)
    requires AllDigits(d) && |d| <= 11
    ensures OnlyDigits(MaskDigits(d)) == d
  {
    if |d| <= 2 {
      OnlyDigitsOfDigits(d);
    } else if |d| <= 6 {
      DigitsOfPieces(d[..2], d[2..]);
      assert d[..2] + d[2..] == d;
    } else {
      var cut := if |d| <= 10 then 6 else 7;
      var head := "(" + d[..2] + ") " + d[2..cut];
      DigitsOfPieces(d[..2], d[2..cut]);
      OnlyDigitsConcat(head + "-", d[cut..]);
      OnlyDigitsConcat(head, "-");
      NoDigits("-");
      OnlyDigitsOfDigits(d[cut..]);
      assert d[cut..] == d[cut..|d|];
      assert d[..2] + d[2..cut] + d[cut..] == d;
      if |d| == 11 {
        assert d[7..11] == d[7..];
      }
    }
  }

  /** A full mobile number is shown as "(dd) ddddd-dddd". */
  lemma MaskOfFullNumber(d: string)
    requires AllDigits(d) && |d| == 11
    ensures var m := MaskDigits(d);
      |m| == 15 && m[0] == '(' && m[3] == ')' && m[4] == ' ' && m[10] == '-'
      && m[1..3] == d[..2] && m[5..10] == d[2..7] && m[11..] == d[7..]
  {
  }

  /** LoginScreen's `maskBRPhone`. */
  function MaskBRPhone(input: string): string
  {
    var n := NormalizePhoneDigits(input);
    MaskDigits(if |n| > 11 then n[..11] else n)
  }

  /** The login mask shows exactly the normalised digits. */
  lemma MaskBRPhoneShowsNormalized(input: string)
    ensures OnlyDigits(MaskBRPhone(input)) == NormalizePhoneDigits(input)
  {
    MaskKeepsDigits(NormalizePhoneDigits(input));
  }

  /** HomeScreen's `maskPhone`: the last 11 digits of the text, or of ""
      for a missing phone. */
  function MaskPhone(input: Option<string>): string
  {
    var s := OnlyDigits(if input.Some? then input.value else "");
    MaskDigits(if |s| > 11 then s[|s| - 11..] else s)
  }

  /** For a number stored in normalised form the profile tab shows what the
      login screen showed while it was typed. */
  lemma MasksAgreeOnNormalized(input: string)
    ensures MaskPhone(Some(NormalizePhoneDigits(input))) == MaskBRPhone(input)
  {
    OnlyDigitsOfDigits(NormalizePhoneDigits(input));
  }

  /** `validatePhoneLocally`: the normalised digits when there are 10 or 11
      of them. */
  function ValidatePhone(input: string): (r: Option<string>)
    ensures r.Some? <==> 10 <= |NormalizePhoneDigits(input)|
    ensures r.Some? ==> r.value == NormalizePhoneDigits(input)
  {
    var d := NormalizePhoneDigits(input);
    if |d| < 10 || |d| > 11 then None else Some(d)
  }
}
