/** The per-delivery stage machine shared by the home list and the delivery
    details screen: status normalisation, status to button stage, the next
    stage rule, and the two boolean readings of `has_retorno`. */
module Stages {
  import opened Text
  import opened Json

  /** The action the hold-to-confirm button offers next. */
  datatype Stage = Coletar | Entregar | Retornar | Finalizar

  // ---------------------------------------------------------------- status text

  /** `normStatus`: trimmed, lower-cased; empty and the waiting synonyms
      become "novo"; everything else is kept (both screens' lookup tables map
      their known words to themselves). */
  function NormStatus(v: Value): (r: string)
    ensures r != ""
  {
    var t := if Nullish(v) then "" else Word(v);
    if t == "" || t == "await" || t == "waiting" || t == "pendente" then "novo" else t
  }

  /** A normalised status is its own trimmed, lower-cased form and never one
      of the waiting synonyms. */
  lemma NormStatusIsNormal(v: Value)
    ensures Trim(NormStatus(v)) == NormStatus(v)
    ensures Lower(NormStatus(v)) == NormStatus(v)
  {
    var t := if Nullish(v) then "" else Word(v);
    if t == "" || t == "await" || t == "waiting" || t == "pendente" {
      PlainLiteral("novo");
    } else {
      WordIsNormal(v);
    }
  }

  /** Normalising an already normalised status changes nothing, so the home
      screen normalising a second time inside `statusToStage` is harmless. */
  lemma NormStatusIdempotent(v: Value)
    ensures NormStatus(VStr(NormStatus(v))) == NormStatus(v)
  {
    NormStatusIsNormal(v);
  }

  /** HomeScreen's `statusToStage`: finished or cancelled statuses fall
      through to the first stage. */
  function StatusToStageHome(status: Value, hasRetorno: bool): (r: Stage)
    ensures r == Retornar ==> hasRetorno && NormStatus(status) == "entregando"
    ensures r != Coletar <==> NormStatus(status) in {"coletando", "entregando", "retornando"}
  {
    var s := NormStatus(status);
    if s == "coletando" then Entregar
    else if s == "entregando" then (if hasRetorno then Retornar else Finalizar)
    else if s == "retornando" then Finalizar
    else Coletar
  }

  /** DeliveryDetailsScreen's `statusToStage`: finished or cancelled
      statuses show the last stage. */
  function StatusToStageDetails(status: Value, hasRetorno: bool): (r: Stage)
    ensures r == Retornar ==> hasRetorno && NormStatus(status) == "entregando"
    ensures r == Coletar <==> NormStatus(status) !in {"coletando", "entregando", "retornando", "finalizado", "cancelado"}
  {
    var s := NormStatus(status);
    if s == "coletando" then Entregar
    else if s == "entregando" then (if hasRetorno then Retornar else Finalizar)
    else if s == "retornando" then Finalizar
    else if s == "finalizado" || s == "cancelado" then Finalizar
    else Coletar
  }

  /** The two copies agree on every status except finalizado and cancelado,
      where the home screen shows Coletar and the details screen Finalizar. */
  lemma StageCopiesDisagreeOnlyWhenClosed(status: Value, hasRetorno: bool)
    ensures StatusToStageHome(status, hasRetorno) != StatusToStageDetails(status, hasRetorno)
      <==> NormStatus(status) in {"finalizado", "cancelado"}
    ensures NormStatus(status) in {"finalizado", "cancelado"} ==>
      StatusToStageHome(status, hasRetorno) == Coletar && StatusToStageDetails(status, hasRetorno) == Finalizar
  {
  }

  // ---------------------------------------------------------------- transitions

  /** `nextStage`: collect, deliver, return only when the delivery has a
      return leg, finalize; finalize stays put. */
  function NextStage(s: Stage, hasRetorno: bool): (r: Stage)
    ensures r == s <==> s == Finalizar
    ensures r == Retornar <==> s == Entregar && hasRetorno
    ensures r != Coletar
  {
    match s
    case Coletar => Entregar
    case Entregar => if hasRetorno then Retornar else Finalizar
    case Retornar => Finalizar
    case Finalizar => Finalizar
  }

  /** How many holds are still needed to reach Finalizar. */
  function StepsLeft(s: Stage, hasRetorno: bool): nat
  {
    match s
    case Coletar => if hasRetorno then 3 else 2
    case Entregar => if hasRetorno then 2 else 1
    case Retornar => 1
    case Finalizar => 0
  }

  /** Every hold before the last gets one step closer to Finalizar, which is
      the only fixed point. */
  lemma NextStageProgresses(s: Stage, hasRetorno: bool)
    ensures s != Finalizar ==> StepsLeft(NextStage(s, hasRetorno), hasRetorno) == StepsLeft(s, hasRetorno) - 1
    ensures NextStage(s, hasRetorno) == s <==> s == Finalizar
  {
  }

  /** The status the hold handler sends for a stage that is not final. */
  function AdvanceStatus(s: Stage): string
  {
    match s
    case Coletar => "Coletando"
    case Entregar => "Entregando"
    case Retornar => "Retornando"
    case Finalizar => "Finalizado"
  }

  /** Sending the advance status and reading it back from the backend gives
      the same stage as advancing locally, on both screens. */
  lemma AdvanceAgreesWithNextStage(s: Stage, hasRetorno: bool)
    requires s != Finalizar
    ensures StatusToStageHome(VStr(AdvanceStatus(s)), hasRetorno) == NextStage(s, hasRetorno)
    ensures StatusToStageDetails(VStr(AdvanceStatus(s)), hasRetorno) == NextStage(s, hasRetorno)
  {
    var raw := AdvanceStatus(s);
    TrimOfTrimmed(raw);
    match s
    case Coletar => assert Lower(raw) == "coletando";
    case Entregar => assert Lower(raw) == "entregando";
    case Retornar => assert Lower(raw) == "retornando";
  }

  /** `labelFromStage`. */
  function LabelFromStage(s: Stage): (r: string)
    ensures s == Finalizar <==> r == "Finalizar entrega"
  {
    match s
    case Coletar => "Coletar"
    case Entregar => "Entregar"
    case Retornar => "Retornar"
    case Finalizar => "Finalizar entrega"
  }

  lemma LabelsDistinct(s1: Stage, s2: Stage)
    requires s1 != s2
    ensures LabelFromStage(s1) != LabelFromStage(s2)
  {
  }

  // ---------------------------------------------------------------- booleans

  const STRICT_TRUE: set<string> := {"1", "true", "sim", "yes", "y"}
  const TRUE_WORDS: set<string> := {"1", "true", "t", "yes", "y", "sim", "s"}
  const FALSE_WORDS: set<string> := {"0", "false", "f", "no", "n", "nao", "não"}

  /** HomeScreen's `coerceBoolStrict`: booleans as they are, nullish false,
      otherwise only 1/true/sim/yes/y. */
  function CoerceBoolStrict(v: Value): (r: bool)
    ensures v.VBool? ==> r == v.b
    ensures r ==> !Nullish(v)
  {
    match v
    case VBool(b) => b
    case VUndef => false
    case VNull => false
    case _ => Word(v) in STRICT_TRUE
  }

  /** A decimal numeral `Number(s)` accepts: optional sign, digits with an
      optional fraction, at least one digit. */
  predicate IsUnsignedDecimal(s: string)
  {
    var parts := SplitOn(s, '.');
    (|parts| == 1 && |parts[0]| > 0 && AllDigits(parts[0]))
    || (|parts| == 2 && |parts[0]| + |parts[1]| > 0 && AllDigits(parts[0]) && AllDigits(parts[1]))
  }

  /** Some digit of the numeral is not '0'. */
  predicate HasNonZeroDigit(s: string)
  {
    s != [] && ('1' <= s[0] <= '9' || HasNonZeroDigit(s[1..]))
  }

  /** `Number(s)` on a trimmed string, as "not a number" (`None`) or whether
      the number is non-zero. The empty string is 0. */
  function NumberNonZero(s: string): Option<bool>
  {
    if s == "" then Some(false)
    else
      var body := if s[0] == '+' || s[0] == '-' then s[1..] else s;
      if !IsUnsignedDecimal(body) then None
      else Some(HasNonZeroDigit(body))
  }

  /** DeliveryDetailsScreen's `toBool`: booleans as they are, nullish false,
      then the yes/no word lists, then any other numeral by being non-zero. */
  function ToBool(v: Value): (r: bool)
    ensures v.VBool? ==> r == v.b
    ensures r ==> !Nullish(v)
  {
    match v
    case VBool(b) => b
    case VUndef => false
    case VNull => false
    case _ =>
      var s := Word(v);
      if s in TRUE_WORDS then true
      else if s in FALSE_WORDS then false
      else NumberNonZero(s) == Some(true)
  }

  /** Whatever the home screen reads as "has a return leg", the details
      screen reads the same way. */
  lemma StrictImpliesToBool(v: Value)
    ensures CoerceBoolStrict(v) ==> ToBool(v)
  {
  }

  /** The converse fails: "s" (for sim) is a return leg on the details
      screen but not on the home list, so the two screens can show different
      stages for one delivery. */
  lemma ToBoolWiderThanStrict()
    ensures ToBool(VStr("s")) && !CoerceBoolStrict(VStr("s"))
    ensures ToBool(VStr("2")) && !CoerceBoolStrict(VStr("2"))
  {
    TrimOfTrimmed("s");
    assert Lower("s") == "s";
    TrimOfTrimmed("2");
    assert Lower("2") == "2";
    assert "2"[0] == '2' && "2"[1..] == "";
    assert SplitOn("", '.') == [""];
    assert ['2'] + "" == "2";
    assert SplitOn("2", '.') == [['2'] + ""] + [""][1..];
    assert SplitOn("2", '.') == ["2"];
    assert Word(VStr("2")) == "2";
    assert "2" !in TRUE_WORDS && "2" !in FALSE_WORDS;
    assert IsUnsignedDecimal("2");
    assert '1' <= "2"[0] <= '9' && "2"[0] != '+' && "2"[0] != '-';
    assert HasNonZeroDigit("2");
    assert NumberNonZero("2") == Some(true);
    assert Word(VStr("s")) == "s";
    assert "s" in TRUE_WORDS && "s" !in STRICT_TRUE;
  }
}
