/** The first signup step (src/screens/SignupScreen.tsx): the form fields,
    the handlers that mask what is typed, the check run before moving on,
    and the partial registration handed to the second step. */
module SignupForm {
  import opened Text
  import opened SignupFormat

  datatype PayMethod = Pix | Banco

  /** The form state. `modal`, `pixType`, `pixBank` and `bankName` come from
      option pickers and are null until one is chosen. */
  datatype Form = Form(
    nome: string, celular: string, email: string, endereco: string,
    modal: Option<string>, placa: string, nascimento: string,
    cpf: string, cnpj: string,
    payMethod: Option<PayMethod>,
    pixType: Option<string>, pixKey: string, pixBank: Option<string>,
    bankName: Option<string>, agencia: string, conta: string)

  const EMPTY_FORM := Form("", "", "", "", None, "", "", "", "", None, None, "", None, None, "", "")

  /** A picker value JavaScript treats as truthy: set and not "". */
  predicate Chosen(o: Option<string>)
  {
    o.Some? && o.value != ""
  }

  datatype Alert = Alert(title: string, message: string)

  const REQUIRED_ALERT := Alert("Campos obrigatórios", "Preencha todos os campos com *.")
  const PAY_ALERT := Alert("Receber Pagamento", "Escolha PIX ou Banco.")
  const PIX_ALERT := Alert("PIX", "Informe o tipo e a chave PIX.")
  const BANK_ALERT := Alert("Banco", "Informe banco, agência e conta.")
  const DATE_ALERT := Alert("Data de nascimento", "Use o formato dd/mm/aaaa.")

  predicate RequiredFilled(f: Form)
  {
    f.nome != "" && f.celular != "" && f.email != "" && f.endereco != ""
    && Chosen(f.modal) && f.placa != "" && f.nascimento != "" && f.cpf != ""
  }

  predicate PixComplete(f: Form)
  {
    Chosen(f.pixType) && f.pixKey != ""
  }

  predicate BankComplete(f: Form)
  {
    Chosen(f.bankName) && f.agencia != "" && f.conta != ""
  }

  /** `validate`: the alert of the first check that fails, or `None` when the
      form may move on. */
  function Validate(f: Form): (r: Option<Alert>)
    ensures r.None? <==> (RequiredFilled(f) && f.payMethod.Some?
      && (f.payMethod == Some(Pix) ==> PixComplete(f))
      && (f.payMethod == Some(Banco) ==> BankComplete(f))
      && |f.nascimento| == 10)
    ensures r == Some(REQUIRED_ALERT) <==> !RequiredFilled(f)
    ensures r == Some(PAY_ALERT) <==> RequiredFilled(f) && f.payMethod.None?
    ensures r == Some(PIX_ALERT) <==> RequiredFilled(f) && f.payMethod == Some(Pix) && !PixComplete(f)
    ensures r == Some(BANK_ALERT) <==> RequiredFilled(f) && f.payMethod == Some(Banco) && !BankComplete(f)
    ensures r == Some(DATE_ALERT) ==> |f.nascimento| != 10
  {
    if !RequiredFilled(f) then Some(REQUIRED_ALERT)
    else if f.payMethod.None? then Some(PAY_ALERT)
    else if f.payMethod == Some(Pix) && !PixComplete(f) then Some(PIX_ALERT)
    else if f.payMethod == Some(Banco) && !BankComplete(f) then Some(BANK_ALERT)
    else if |f.nascimento| != 10 then Some(DATE_ALERT)
    else None
  }

  /** A form that passes has its birth date typed in full: when the field
      holds the mask of what was typed, 8 digits were typed. */
  lemma ValidBirthDateHasEightDigits(f: Form, typed: string)
    requires f.nascimento == FormatDateBR(typed)
    requires Validate(f).None?
    ensures |Take(OnlyDigits(typed), 8)| == 8
    ensures OnlyDigits(f.nascimento) == Take(OnlyDigits(typed), 8)
  {
    FormatDateBRProperties(typed);
  }

  /** Choosing a new PIX key type clears the key, so a PIX form is refused
      until a key of the new type is typed. */
  lemma NewPixTypeNeedsKey(f: Form, t: Option<string>)
    requires RequiredFilled(f) && f.payMethod == Some(Pix)
    ensures Validate(f.(pixType := t, pixKey := "")) == Some(PIX_ALERT)
  {
    var g := f.(pixType := t, pixKey := "");
    assert RequiredFilled(g) && !PixComplete(g);
  }

  /** `handlePixKeyChange`: the key is masked as the chosen type's
      document. */
  function PixKeyInput(pixType: Option<string>, text: string): (r: string)
    ensures pixType == Some("cpf") ==>
      r == CpfLayout(Take(OnlyDigits(text), 11)) && OnlyDigits(r) == Take(OnlyDigits(text), 11)
    ensures pixType == Some("cnpj") ==>
      r == CnpjLayout(Take(OnlyDigits(text), 14)) && OnlyDigits(r) == Take(OnlyDigits(text), 14)
    ensures pixType == Some("celular") ==>
      r == PhoneLayout(Take(OnlyDigits(text), 11)) && OnlyDigits(r) == Take(OnlyDigits(text), 11)
    ensures !(pixType == Some("cpf") || pixType == Some("cnpj") || pixType == Some("celular")) ==> r == text
  {
    if pixType == Some("cpf") then FormatCPFDigits(text); FormatCPFLayout(text); FormatCPF(text)
    else if pixType == Some("cnpj") then FormatCNPJDigits(text); FormatCNPJLayout(text); FormatCNPJ(text)
    else if pixType == Some("celular") then FormatPhoneBRAsWrittenDigits(text); FormatPhoneBRAsWritten(text)
    else text
  }

  /** Finding: with the phone mask as written, clearing the phone field
      leaves "(" in it, and a form with every other field filled in is no
      longer refused for a missing field. */
  lemma ClearedPhonePassesAsWritten(f: Form)
    requires RequiredFilled(f)
    ensures Validate(f.(celular := FormatPhoneBRAsWritten(""))) != Some(REQUIRED_ALERT)
  {
    ClearedPhoneAsWrittenIsNotEmpty();
    assert RequiredFilled(f.(celular := FormatPhoneBRAsWritten("")));
  }

  /** With the corrected mask a phone field with no digit counts as empty. */
  lemma ClearedPhoneIsRequired(f: Form, typed: string)
    requires OnlyDigits(typed) == ""
    ensures Validate(f.(celular := FormatPhoneBR(typed))) == Some(REQUIRED_ALERT)
  {
    FormatPhoneBRDigits(typed);
  }

  /** The partial registration handed to the second step. */
  datatype Payload = Payload(
    nome: string, celular: string, email: string, endereco: string,
    modal: string, placa: string, nascimento: string, cpf: string,
    cnpj: Option<string>, payMethod: PayMethod,
    pixType: Option<string>, pixKey: Option<string>, pixBank: Option<string>,
    bankName: Option<string>, agencia: Option<string>, conta: Option<string>)

  /** `cadastroParcial`, built only from a form that passed `validate`. */
  function CadastroParcial(f: Form): (p: Payload)
    requires Validate(f).None?
    ensures p.payMethod == f.payMethod.value && p.modal == f.modal.value
    ensures p.nome == Trim(f.nome) && p.celular == Trim(f.celular) && p.cpf == Trim(f.cpf)
    ensures p.cnpj.None? <==> f.cnpj == ""
    ensures p.cnpj.Some? ==> p.cnpj.value == Trim(f.cnpj)
    ensures p.payMethod == Pix <==> p.pixKey.Some?
    ensures p.payMethod == Pix ==> p.pixType == f.pixType && p.pixKey == Some(f.pixKey) && p.pixBank == f.pixBank
    ensures p.payMethod != Pix ==> p.pixType.None? && p.pixBank.None?
    ensures p.payMethod == Banco <==> p.agencia.Some?
    ensures p.payMethod == Banco ==> p.bankName == f.bankName && p.agencia == Some(f.agencia) && p.conta == Some(f.conta)
    ensures p.payMethod != Banco ==> p.bankName.None? && p.conta.None?
  {
    var m := f.payMethod.value;
    Payload(Trim(f.nome), Trim(f.celular), Trim(f.email), Trim(f.endereco),
      f.modal.value, Trim(f.placa), Trim(f.nascimento), Trim(f.cpf),
      if f.cnpj != "" then Some(Trim(f.cnpj)) else None,
      m,
      if m == Pix then f.pixType else None,
      if m == Pix then Some(f.pixKey) else None,
      if m == Pix then f.pixBank else None,
      if m == Banco then f.bankName else None,
      if m == Banco then Some(f.agencia) else None,
      if m == Banco then Some(f.conta) else None)
  }

  /** A payload carries the details of exactly one way of being paid, and
      they are filled in. */
  lemma PayloadHasOneMethod(f: Form)
    requires Validate(f).None?
    ensures var p := CadastroParcial(f);
      (p.pixKey.Some? <==> p.agencia.None?)
      && (p.pixKey.Some? ==> p.pixKey.value != "" && Chosen(p.pixType))
      && (p.agencia.Some? ==> p.agencia.value != "" && p.conta.Some? && p.conta.value != "" && Chosen(p.bankName))
  {
    var p := CadastroParcial(f);
    if f.payMethod == Some(Pix) {
      assert PixComplete(f);
    } else {
      assert BankComplete(f);
    }
  }

  class Screen {
    var form: Form
    var showPayModal: bool
    var alerts: seq<Alert>
    /** The partial registrations the screen moved on with. */
    var navigated: seq<Payload>

    constructor ()
      ensures form == EMPTY_FORM && !showPayModal && alerts == [] && navigated == []
    {
      form := EMPTY_FORM;
      showPayModal := false;
      alerts := [];
      navigated := [];
    }

    /** The phone field's handler. */
    method OnChangeCelular(t: string)
      modifies this
      ensures form == old(form).(celular := FormatPhoneBRAsWritten(t))
      ensures OnlyDigits(form.celular) == Take(OnlyDigits(t), 11)
      ensures unchanged(this`alerts) && unchanged(this`navigated) && showPayModal == old(showPayModal)
    {
      FormatPhoneBRAsWrittenDigits(t);
      form := form.(celular := FormatPhoneBRAsWritten(t));
    }

    method OnChangePlaca(t: string)
      modifies this
      ensures form == old(form).(placa := FormatPlate(t))
      ensures unchanged(this`alerts) && unchanged(this`navigated) && showPayModal == old(showPayModal)
    {
      form := form.(placa := FormatPlate(t));
    }

    method OnChangeNascimento(t: string)
      modifies this
      ensures form == old(form).(nascimento := FormatDateBR(t))
      ensures |form.nascimento| == 10 <==> |Take(OnlyDigits(t), 8)| == 8
      ensures unchanged(this`alerts) && unchanged(this`navigated) && showPayModal == old(showPayModal)
    {
      FormatDateBRProperties(t);
      form := form.(nascimento := FormatDateBR(t));
    }

    method OnChangeCpf(t: string)
      modifies this
      ensures form == old(form).(cpf := FormatCPF(t))
      ensures OnlyDigits(form.cpf) == Take(OnlyDigits(t), 11)
      ensures unchanged(this`alerts) && unchanged(this`navigated) && showPayModal == old(showPayModal)
    {
      FormatCPFDigits(t);
      form := form.(cpf := FormatCPF(t));
    }

    method OnChangeCnpj(t: string)
      modifies this
      ensures form == old(form).(cnpj := FormatCNPJ(t))
      ensures OnlyDigits(form.cnpj) == Take(OnlyDigits(t), 14)
      ensures unchanged(this`alerts) && unchanged(this`navigated) && showPayModal == old(showPayModal)
    {
      FormatCNPJDigits(t);
      form := form.(cnpj := FormatCNPJ(t));
    }

    /** Choosing PIX or Banco in the payment modal closes it. */
    method ChoosePayMethod(m: PayMethod)
      modifies this
      ensures form == old(form).(payMethod := Some(m)) && !showPayModal
      ensures unchanged(this`alerts) && unchanged(this`navigated)
    {
      form := form.(payMethod := Some(m));
      showPayModal := false;
    }

    /** Choosing a PIX key type clears the key typed so far. */
    method ChoosePixType(t: Option<string>)
      modifies this
      ensures form == old(form).(pixType := t, pixKey := "")
      ensures unchanged(this`alerts) && unchanged(this`navigated) && showPayModal == old(showPayModal)
    {
      form := form.(pixType := t, pixKey := "");
    }

    /** `handlePixKeyChange`. */
    method OnChangePixKey(text: string)
      modifies this
      ensures form == old(form).(pixKey := PixKeyInput(old(form).pixType, text))
      ensures old(form).pixType == Some("celular") ==> OnlyDigits(form.pixKey) == Take(OnlyDigits(text), 11)
      ensures old(form).pixType == Some("cpf") ==> OnlyDigits(form.pixKey) == Take(OnlyDigits(text), 11)
      ensures old(form).pixType == Some("cnpj") ==> OnlyDigits(form.pixKey) == Take(OnlyDigits(text), 14)
      ensures unchanged(this`alerts) && unchanged(this`navigated) && showPayModal == old(showPayModal)
    {
      form := form.(pixKey := PixKeyInput(form.pixType, text));
    }

    /** The agency field keeps at most 6 digits. */
    method OnChangeAgencia(t: string)
      modifies this
      ensures form == old(form).(agencia := DigitsField(t, 6))
      ensures AllDigits(form.agencia) && |form.agencia| <= 6
      ensures unchanged(this`alerts) && unchanged(this`navigated) && showPayModal == old(showPayModal)
    {
      form := form.(agencia := DigitsField(t, 6));
    }

    /** The account field keeps at most 12 digits. */
    method OnChangeConta(t: string)
      modifies this
      ensures form == old(form).(conta := DigitsField(t, 12))
      ensures AllDigits(form.conta) && |form.conta| <= 12
      ensures unchanged(this`alerts) && unchanged(this`navigated) && showPayModal == old(showPayModal)
    {
      form := form.(conta := DigitsField(t, 12));
    }

    /** `onProsseguir`: a refused form raises its alert and stays; an
        accepted one moves on with its partial registration. */
    method Prosseguir() returns (moved: bool)
      modifies this
      ensures moved <==> Validate(old(form)).None?
      ensures form == old(form) && showPayModal == old(showPayModal)
      ensures !moved ==> alerts == old(alerts) + [Validate(old(form)).value] && navigated == old(navigated)
      ensures moved ==> alerts == old(alerts) && navigated == old(navigated) + [CadastroParcial(old(form))]
    {
      var problem := Validate(form);
      if problem.Some? {
        alerts := alerts + [problem.value];
        return false;
      }
      navigated := navigated + [CadastroParcial(form)];
      moved := true;
    }
  }
}
