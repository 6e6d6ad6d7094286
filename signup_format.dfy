/** The input masks of the first signup step (src/screens/SignupScreen.tsx):
    phone, CPF, CNPJ, birth date and vehicle plate. The CPF and CNPJ masks
    are chains of regular-expression replacements; each replacement is
    modelled on its own, and the chain is proved equal to the layout it
    produces. */
module SignupFormat {
  import opened Text
  /** Appending a separator and the next digits of `d` to a text that
      holds the first `k` digits of `d` gives a text holding the first `m`. */
  lemma Extend(p: string, sep: string, d: string, k: nat, m: nat)
    requires k <= m <= |d| && AllDigits(d)
    requires OnlyDigits(p) == d[..k]
    requires forall i :: 0 <= i < |sep| ==> !IsDigit(sep[i])
    ensures OnlyDigits(p + sep + d[k..m]) == d[..m]
  {
    var ps := p + sep;
    OnlyDigitsConcat(p, sep);
    OnlyDigitsOfNonDigits(sep);
    assert OnlyDigits(ps) == d[..k];
    OnlyDigitsConcat(ps, d[k..m]);
    OnlyDigitsOfDigits(d[k..m]);
    assert d[..k] + d[k..m] == d[..m];
  }

  lemma Prefix(d: string, k: nat)
    requires k <= |d| && AllDigits(d)
    ensures OnlyDigits(d[..k]) == d[..k]
  {
    OnlyDigitsOfDigits(d[..k]);
  }

  /** Cutting a text `j` characters past a fixed head. */
  lemma CutAfter(head: string, t: string, j: nat)
    requires j <= |t|
    ensures (head + t)[..|head| + j] == head + t[..j]
    ensures (head + t)[|head| + j..] == t[j..]
  {
  }

  // ---------------------------------------------------------------- the replacements

  /** `s.replace(/^(\d{k})(\d)/, "$1.$2")`. */
  function LeadInsert(s: string, k: nat): string
  {
    if DigitsAt(s, 0, k + 1) then s[..k] + "." + s[k..] else s
  }

  /** `s.replace(/^(\d{a})\.(\d{b})(\d)/, "$1.$2.$3")`. */
  function LeadGroupInsert(s: string, a: nat, b: nat): string
  {
    if DigitsAt(s, 0, a) && a < |s| && s[a] == '.' && DigitsAt(s, a + 1, b + 1)
    then s[..a + 1 + b] + "." + s[a + 1 + b..]
    else s
  }

  /** Where `/\.(\d{3})(\d)/` can match. */
  predicate DotGroupAt(s: string, i: nat)
  {
    i < |s| && s[i] == '.' && DigitsAt(s, i + 1, 4)
  }

  /** The leftmost match of `/\.(\d{3})(\d)/` from `i` on. */
  function FindDotGroup(s: string, i: nat): (r: Option<nat>)
    ensures r.Some? ==> i <= r.value && DotGroupAt(s, r.value)
    decreases |s| - i
  {
    if i >= |s| then None
    else if DotGroupAt(s, i) then Some(i)
    else FindDotGroup(s, i + 1)
  }

  lemma {:induction false} SkipDotGroups(s: string, i: nat, j: nat)
    requires i <= j <= |s| && forall k :: i <= k < j ==> !DotGroupAt(s, k)
    ensures FindDotGroup(s, i) == FindDotGroup(s, j)
    decreases j - i
  {
    if i < j {
      SkipDotGroups(s, i + 1, j);
    }
  }

  /** `s.replace(/\.(\d{3})(\d)/, ".$1" + sep + "$2")`. */
  function DotGroupInsert(s: string, sep: string): string
  {
    match FindDotGroup(s, 0)
    case None => s
    case Some(i) => s[..i + 4] + sep + s[i + 4..]
  }

  /** The leftmost match of `/(\d{4})(\d)/` from `i` on. */
  function FindRun(s: string, i: nat): (r: Option<nat>)
    ensures r.Some? ==> i <= r.value && DigitsAt(s, r.value, 5)
    decreases |s| - i
  {
    if i >= |s| then None
    else if DigitsAt(s, i, 5) then Some(i)
    else FindRun(s, i + 1)
  }

  lemma {:induction false} SkipRuns(s: string, i: nat, j: nat)
    requires i <= j <= |s| && forall k :: i <= k < j ==> !DigitsAt(s, k, 5)
    ensures FindRun(s, i) == FindRun(s, j)
    decreases j - i
  {
    if i < j {
      SkipRuns(s, i + 1, j);
    }
  }

  /** `s.replace(/(\d{4})(\d)/, "$1-$2")`. */
  function RunInsert(s: string): string
  {
    match FindRun(s, 0)
    case None => s
    case Some(i) => s[..i + 4] + "-" + s[i + 4..]
  }

  // ---------------------------------------------------------------- CPF

  /** `formatCPF`. */
  function FormatCPF(v: string): string
  {
    DotGroupInsert(LeadGroupInsert(LeadInsert(Take(OnlyDigits(v), 11), 3), 3, 3), "-")
  }

  /** The CPF layout "ddd.ddd.ddd-dd", cut short for fewer digits. */
  function CpfLayout(d: string): string
  {
    if |d| <= 3 then d
    else if |d| <= 6 then d[..3] + "." + d[3..]
    else if |d| <= 9 then d[..3] + "." + d[3..6] + "." + d[6..]
    else d[..3] + "." + d[3..6] + "." + d[6..9] + "-" + d[9..]
  }

  /** The chain of replacements produces the CPF layout. */
  lemma FormatCPFLayout(v: string)
    ensures FormatCPF(v) == CpfLayout(Take(OnlyDigits(v), 11))
  {
    var d := Take(OnlyDigits(v), 11);
    var s1 := LeadInsert(d, 3);
    var s2 := LeadGroupInsert(s1, 3, 3);
    if |d| <= 3 {
      assert s2 == d;
      SkipDotGroups(s2, 0, |s2|);
    } else if |d| <= 6 {
      assert s1 == d[..3] + "." + d[3..];
      assert s2 == s1;
      SkipDotGroups(s2, 0, |s2|);
    } else {
      assert s1 == d[..3] + "." + d[3..];
      assert s2 == d[..3] + "." + d[3..6] + "." + d[6..];
      CpfLastGroup(d);
    }
  }

  /** The last replacement of the CPF chain, once both dots are in. */
  lemma CpfLastGroup(d: string)
    requires 6 < |d| <= 11 && AllDigits(d)
    ensures DotGroupInsert(d[..3] + "." + d[3..6] + "." + d[6..], "-") == CpfLayout(d)
  {
    var s2 := d[..3] + "." + d[3..6] + "." + d[6..];
    assert s2[7] == '.';
    if |d| <= 9 {
      SkipDotGroups(s2, 0, |s2|);
    } else {
      SkipDotGroups(s2, 0, 7);
      assert DotGroupAt(s2, 7);
      assert FindDotGroup(s2, 0) == Some(7);
      assert s2[..11] + "-" + s2[11..] == d[..3] + "." + d[3..6] + "." + d[6..9] + "-" + d[9..];
    }
  }

  /** The CPF mask shows exactly the first 11 digits typed, and a complete
      CPF reads "ddd.ddd.ddd-dd". */
  lemma FormatCPFDigits(v: string)
    ensures OnlyDigits(FormatCPF(v)) == Take(OnlyDigits(v), 11)
    ensures |Take(OnlyDigits(v), 11)| == 11 ==>
      var r := FormatCPF(v); |r| == 14 && r[3] == '.' && r[7] == '.' && r[11] == '-'
  {
    FormatCPFLayout(v);
    CpfLayoutDigits(Take(OnlyDigits(v), 11));
  }

  /** The CPF layout holds the digits it was given, in order, and nothing
      else that is a digit. */
  lemma CpfLayoutDigits(d: string)
    requires AllDigits(d)
    ensures OnlyDigits(CpfLayout(d)) == d
    ensures |d| == 11 ==>
      var r := CpfLayout(d); |r| == 14 && r[3] == '.' && r[7] == '.' && r[11] == '-'
  {
    var n := |d|;
    assert d[..n] == d;
    if n <= 3 {
      Prefix(d, n);
    } else {
      Prefix(d, 3);
      if n <= 6 {
        Extend(d[..3], ".", d, 3, n);
      } else {
        Extend(d[..3], ".", d, 3, 6);
        if n <= 9 {
          Extend(d[..3] + "." + d[3..6], ".", d, 6, n);
        } else {
          Extend(d[..3] + "." + d[3..6], ".", d, 6, 9);
          Extend(d[..3] + "." + d[3..6] + "." + d[6..9], "-", d, 9, n);
        }
      }
    }
  }

  // ---------------------------------------------------------------- CNPJ

  /** `formatCNPJ`. */
  function FormatCNPJ(v: string): string
  {
    RunInsert(DotGroupInsert(LeadGroupInsert(LeadInsert(Take(OnlyDigits(v), 14), 2), 2, 3), "/"))
  }

  /** The CNPJ layout "dd.ddd.ddd/dddd-dd", cut short for fewer digits. */
  function CnpjLayout(d: string): string
  {
    if |d| <= 2 then d
    else if |d| <= 5 then d[..2] + "." + d[2..]
    else if |d| <= 8 then d[..2] + "." + d[2..5] + "." + d[5..]
    else if |d| <= 12 then d[..2] + "." + d[2..5] + "." + d[5..8] + "/" + d[8..]
    else d[..2] + "." + d[2..5] + "." + d[5..8] + "/" + d[8..12] + "-" + d[12..]
  }

  /** The first two replacements of `formatCNPJ`. */
  function CnpjDots(d: string): string
  {
    LeadGroupInsert(LeadInsert(d, 2), 2, 3)
  }

  lemma CnpjDotsLayout(d: string)
    requires AllDigits(d)
    ensures |d| <= 2 ==> CnpjDots(d) == d
    ensures 2 < |d| <= 5 ==> CnpjDots(d) == d[..2] + "." + d[2..]
    ensures 5 < |d| ==> CnpjDots(d) == d[..2] + "." + d[2..5] + "." + d[5..]
  {
    var s1 := LeadInsert(d, 2);
    if 2 < |d| {
      assert s1 == d[..2] + "." + d[2..];
      if 5 < |d| {
        assert DigitsAt(s1, 3, 4);
      }
    }
  }

  /** The third replacement of `formatCNPJ`. */
  lemma CnpjSlashLayout(d: string)
    requires AllDigits(d)
    ensures |d| <= 8 ==> DotGroupInsert(CnpjDots(d), "/") == CnpjDots(d)
    ensures 8 < |d| ==> DotGroupInsert(CnpjDots(d), "/") == d[..2] + "." + d[2..5] + "." + d[5..8] + "/" + d[8..]
  {
    CnpjDotsLayout(d);
    var s2 := CnpjDots(d);
    var j := if |d| <= 8 then |s2| else 6;
    forall k | 0 <= k < j
      ensures !DotGroupAt(s2, k)
    {
      if k == 2 && 5 < |d| {
        assert s2[6] == '.';
      }
    }
    SkipDotGroups(s2, 0, j);
    if 8 < |d| {
      assert DotGroupAt(s2, 6);
    }
  }

  /** The last replacement of `formatCNPJ`. */
  lemma CnpjHyphenLayout(d: string)
    requires AllDigits(d)
    ensures RunInsert(DotGroupInsert(CnpjDots(d), "/")) == CnpjLayout(d)
  {
    CnpjDotsLayout(d);
    CnpjSlashLayout(d);
    var s3 := DotGroupInsert(CnpjDots(d), "/");
    if |d| <= 2 {
      SkipRuns(s3, 0, |s3|);
    } else {
      var j := if |d| <= 12 then |s3| else 11;
      forall i | 0 <= i < j
        ensures !DigitsAt(s3, i, 5)
      {
        if i + 5 <= |s3| {
          if i <= 2 {
            assert !IsDigit(s3[2]);
          } else if i <= 6 {
            assert !IsDigit(s3[6]);
          } else {
            assert !IsDigit(s3[10]);
          }
        }
      }
      SkipRuns(s3, 0, j);
      if 12 < |d| {
        assert DigitsAt(s3, 11, 5);
        var head := d[..2] + "." + d[2..5] + "." + d[5..8] + "/";
        assert s3 == head + d[8..];
        CutAfter(head, d[8..], 4);
        assert d[8..][..4] == d[8..12] && d[8..][4..] == d[12..];
      }
    }
  }

  /** The chain of replacements produces the CNPJ layout. */
  lemma FormatCNPJLayout(v: string)
    ensures FormatCNPJ(v) == CnpjLayout(Take(OnlyDigits(v), 14))
  {
    CnpjHyphenLayout(Take(OnlyDigits(v), 14));
  }

  /** The CNPJ mask shows exactly the first 14 digits typed, and a complete
      CNPJ reads "dd.ddd.ddd/dddd-dd". */
  lemma FormatCNPJDigits(v: string)
    ensures OnlyDigits(FormatCNPJ(v)) == Take(OnlyDigits(v), 14)
    ensures |Take(OnlyDigits(v), 14)| == 14 ==>
      var r := FormatCNPJ(v); |r| == 18 && r[2] == '.' && r[6] == '.' && r[10] == '/' && r[15] == '-'
  {
    FormatCNPJLayout(v);
    CnpjLayoutDigits(Take(OnlyDigits(v), 14));
  }

  /** The CNPJ layout holds the digits it was given, in order, and nothing
      else that is a digit. */
  lemma CnpjLayoutDigits(d: string)
    requires AllDigits(d)
    ensures OnlyDigits(CnpjLayout(d)) == d
    ensures |d| == 14 ==>
      var r := CnpjLayout(d); |r| == 18 && r[2] == '.' && r[6] == '.' && r[10] == '/' && r[15] == '-'
  {
    var n := |d|;
    assert d[..n] == d;
    if n <= 2 {
      Prefix(d, n);
    } else {
      Prefix(d, 2);
      if n <= 5 {
        Extend(d[..2], ".", d, 2, n);
      } else {
        Extend(d[..2], ".", d, 2, 5);
        if n <= 8 {
          Extend(d[..2] + "." + d[2..5], ".", d, 5, n);
        } else {
          Extend(d[..2] + "." + d[2..5], ".", d, 5, 8);
          if n <= 12 {
            Extend(d[..2] + "." + d[2..5] + "." + d[5..8], "/", d, 8, n);
          } else {
            Extend(d[..2] + "." + d[2..5] + "." + d[5..8], "/", d, 8, 12);
            Extend(d[..2] + "." + d[2..5] + "." + d[5..8] + "/" + d[8..12], "-", d, 12, n);
          }
        }
      }
    }
  }

  // ---------------------------------------------------------------- date, plate, phone

  /** `formatDateBR` of the signup form: "dd/mm/aaaa" as the digits come. */
  function FormatDateBR(v: string): string
  {
    var d := Take(OnlyDigits(v), 8);
    if |d| <= 2 then d
    else if |d| <= 4 then d[..2] + "/" + d[2..]
    else d[..2] + "/" + d[2..4] + "/" + d[4..]
  }

  /** The date mask shows the first 8 digits typed, and its text has the 10
      characters the form asks for exactly when all 8 are there. */
  lemma FormatDateBRProperties(v: string)
    ensures OnlyDigits(FormatDateBR(v)) == Take(OnlyDigits(v), 8)
    ensures |FormatDateBR(v)| == 10 <==> |Take(OnlyDigits(v), 8)| == 8
    ensures |FormatDateBR(v)| == 10 ==> FormatDateBR(v)[2] == '/' && FormatDateBR(v)[5] == '/'
  {
    var d := Take(OnlyDigits(v), 8);
    var n := |d|;
    assert d[..n] == d;
    if n <= 2 {
      Prefix(d, n);
    } else {
      Prefix(d, 2);
      if n <= 4 {
        Extend(d[..2], "/", d, 2, n);
      } else {
        Extend(d[..2], "/", d, 2, 4);
        Extend(d[..2] + "/" + d[2..4], "/", d, 4, n);
      }
    }
  }

  /** `v.replace(/[^a-zA-Z0-9]/g, "")`. */
  function Alnums(s: string): (r: string)
    ensures forall i :: 0 <= i < |r| ==> IsAlnum(r[i])
    ensures |r| <= |s|
  {
    if s == [] then [] else (if IsAlnum(s[0]) then [s[0]] else []) + Alnums(s[1..])
  }

  /** The letters and digits of a plate, upper case, at most 7. */
  function PlateChars(v: string): (r: string)
    ensures |r| <= 7
    ensures forall i :: 0 <= i < |r| ==> IsAlnum(r[i]) && !('a' <= r[i] <= 'z')
  {
    var a := Alnums(v);
    var up := Upper(a);
    assert forall i :: 0 <= i < |up| ==> IsAlnum(up[i]) && !('a' <= up[i] <= 'z');
    Take(up, 7)
  }

  /** `formatPlate`: letters and digits only, upper case, at most 7, with a
      hyphen after the third when there are more. */
  function FormatPlate(v: string): (r: string)
  {
    var up := PlateChars(v);
    if |up| <= 3 then up else up[..3] + "-" + up[3..]
  }

  /** The plate mask shows the plate's characters, upper case, with a hyphen
      at the fourth position and nowhere else. */
  lemma FormatPlateProperties(v: string)
    ensures var up := PlateChars(v); var r := FormatPlate(v);
      |r| <= 8
      && (|up| <= 3 ==> r == up)
      && (|up| > 3 ==> r[3] == '-' && r[..3] + r[4..] == up)
      && forall i :: 0 <= i < |r| && i != 3 ==> IsAlnum(r[i]) && !('a' <= r[i] <= 'z')
  {
    var up := PlateChars(v);
    if |up| > 3 {
      var r := up[..3] + "-" + up[3..];
      assert r[..3] + r[4..] == up;
    }
  }

  /** `formatPhoneBR` as written: an opening parenthesis even before the
      first digit. */
  function FormatPhoneBRAsWritten(v: string): string
  {
    PhoneLayout(Take(OnlyDigits(v), 11))
  }

  /** The phone layout "(dd) ddddd-dddd", cut short for fewer digits. */
  function PhoneLayout(d: string): string
  {
    if |d| <= 2 then "(" + d
    else if |d| <= 6 then "(" + d[..2] + ") " + d[2..]
    else "(" + d[..2] + ") " + d[2..7] + "-" + d[7..]
  }

  /** Clearing the phone field leaves "(", which holds no digit yet passes
      the form's "filled in" test. */
  lemma ClearedPhoneAsWrittenIsNotEmpty()
    ensures FormatPhoneBRAsWritten("") == "(" && OnlyDigits(FormatPhoneBRAsWritten("")) == ""
  {
    OnlyDigitsOfNonDigits("(");
  }

  /** The phone mask as written shows exactly the first 11 digits typed, and
      is never empty: with no digit it is "(". */
  lemma FormatPhoneBRAsWrittenDigits(v: string)
    ensures OnlyDigits(FormatPhoneBRAsWritten(v)) == Take(OnlyDigits(v), 11)
    ensures OnlyDigits(v) == "" <==> FormatPhoneBRAsWritten(v) == "("
  {
    FormatPhoneBRDigits(v);
    if OnlyDigits(v) == "" {
      ClearedPhoneAsWrittenIsNotEmpty();
      assert Take(OnlyDigits(v), 11) == "";
    } else {
      var d := Take(OnlyDigits(v), 11);
      assert |d| > 0;
      assert FormatPhoneBRAsWritten(v)[0] == '(' && |FormatPhoneBRAsWritten(v)| > 1;
    }
  }

  /** `formatPhoneBR` with an empty field left empty. */
  function FormatPhoneBR(v: string): string
  {
    var d := Take(OnlyDigits(v), 11);
    if |d| == 0 then "" else PhoneLayout(d)
  }

  /** The phone mask shows exactly the first 11 digits typed, is empty
      exactly when no digit was typed, and agrees with the code as written
      whenever there is a digit. */
  lemma FormatPhoneBRDigits(v: string)
    ensures OnlyDigits(FormatPhoneBR(v)) == Take(OnlyDigits(v), 11)
    ensures FormatPhoneBR(v) == "" <==> OnlyDigits(v) == ""
    ensures OnlyDigits(v) != "" ==> FormatPhoneBR(v) == FormatPhoneBRAsWritten(v)
  {
    var d := Take(OnlyDigits(v), 11);
    if 0 < |d| {
      PhoneLayoutDigits(d);
    }
  }

  /** The phone layout holds the digits it was given, in order. */
  lemma PhoneLayoutDigits(d: string)
    requires 0 < |d| && AllDigits(d)
    ensures OnlyDigits(PhoneLayout(d)) == d
  {
    var n := |d|;
    assert d[..n] == d;
    Prefix(d, 0);
    assert d[..0] == "";
    if n <= 2 {
      Extend("", "(", d, 0, n);
      assert "" + "(" + d[0..n] == "(" + d;
    } else {
      Extend("", "(", d, 0, 2);
      assert "" + "(" + d[0..2] == "(" + d[..2];
      if n <= 6 {
        Extend("(" + d[..2], ") ", d, 2, n);
      } else {
        Extend("(" + d[..2], ") ", d, 2, 7);
        Extend("(" + d[..2] + ") " + d[2..7], "-", d, 7, n);
      }
    }
  }

  /** `onlyDigits(t).slice(0, n)`, the agency (6) and account (12) fields. */
  function DigitsField(t: string, n: nat): (r: string)
    ensures AllDigits(r) && |r| <= n
    ensures r == Take(OnlyDigits(t), n)
  {
    Take(OnlyDigits(t), n)
  }
}
