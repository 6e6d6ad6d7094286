/** The login screen (src/screens/LoginScreen.tsx): the phone is checked
    against the backend first, and only an approved courier moves on to the
    password step. */
module Login {
  import opened Text
  import opened Json
  import opened Phone
  import Auth

  // ---------------------------------------------------------------- check response

  const STATUS_LIST: seq<string> := ["aprovado", "pendente", "desativado", "rejeitado"]

  /** `String(raw.status ?? raw.situacao ?? raw.estado ?? raw.aprovacao ??
      "").toLowerCase()`. */
  function StatusRaw(raw: Record): string
  {
    var v := Coalesce(raw, ["status", "situacao", "estado", "aprovacao"]);
    if v == VNull then "" else Lower(ToStr(v))
  }

  /** `list.find(s => text.includes(s))`. */
  function FindContained(list: seq<string>, text: string): (r: Option<string>)
    ensures r.Some? ==> r.value in list && Contains(text, r.value)
    ensures r.None? <==> forall i :: 0 <= i < |list| ==> !Contains(text, list[i])
  {
    if list == [] then None
    else if Contains(text, list[0]) then Some(list[0])
    else
      var r := FindContained(list[1..], text);
      assert forall i :: 1 <= i < |list| ==> list[1..][i - 1] == list[i];
      r
  }

  /** The word found is the first one in list order the text contains. */
  lemma {:induction false} FindContainedFirst(list: seq<string>, text: string, i: nat)
    requires i < |list| && Contains(text, list[i])
    ensures FindContained(list, text).Some?
    ensures forall j :: 0 <= j < i && FindContained(list, text).value == list[i] ==> list[j] != list[i] || Contains(text, list[j])
    ensures (forall j :: 0 <= j < i ==> !Contains(text, list[j])) ==> FindContained(list, text) == Some(list[i])
  {
    if i > 0 && !Contains(text, list[0]) {
      FindContainedFirst(list[1..], text, i - 1);
      assert forall j :: 1 <= j < |list| ==> list[1..][j - 1] == list[j];
    }
  }

  /** What the check returns: whether the courier exists, the normalised
      status (`None` for null), the id and the name. */
  datatype CheckResult = CheckResult(exists_: bool, status: Option<string>, id: Value, name: Value)

  /** `normalizeCheckResponse`. */
  function NormalizeCheckResponse(raw: Record): (r: CheckResult)
    ensures r.status.None? <==> StatusRaw(raw) == ""
    ensures StatusRaw(raw) != "" ==> r.exists_
    ensures Field(raw, "exists") == VBool(true) || Field(raw, "found") == VBool(true) ==> r.exists_
    ensures Truthy(Field(raw, "id")) || Truthy(Field(raw, "motoboy_id")) ==> r.exists_
  {
    var statusRaw := StatusRaw(raw);
    var status := StatusOf(statusRaw);
    var exists_ := Field(raw, "exists") == VBool(true) || Field(raw, "found") == VBool(true)
      || Truthy(Field(raw, "id")) || Truthy(Field(raw, "motoboy_id")) || statusRaw != "";
    CheckResult(exists_, status, Coalesce(raw, ["id", "motoboy_id"]), Coalesce(raw, ["nome", "name", "motoboy_nome"]))
  }

  /** `STATUS_LIST.find(s => statusRaw.includes(s)) ?? (statusRaw || null)`. */
  function StatusOf(statusRaw: string): (r: Option<string>)
    ensures r.None? <==> statusRaw == ""
  {
    var found := FindContained(STATUS_LIST, statusRaw);
    assert forall i :: 0 <= i < |STATUS_LIST| ==> |STATUS_LIST[i]| > 0;
    if found.Some? then found else if statusRaw != "" then Some(statusRaw) else None
  }

  /** The status is the first of aprovado, pendente, desativado, rejeitado
      the raw status contains, and otherwise the raw status itself, so any
      raw status mentioning "aprovado" counts as approved. */
  lemma StatusIsFirstContained(raw: Record)
    ensures var r := NormalizeCheckResponse(raw);
      (r.status.Some? && r.status.value in STATUS_LIST <==> exists i :: 0 <= i < |STATUS_LIST| && Contains(StatusRaw(raw), STATUS_LIST[i]))
      && (r.status == Some("aprovado") <==> Contains(StatusRaw(raw), "aprovado") || StatusRaw(raw) == "aprovado")
      && ((forall i :: 0 <= i < |STATUS_LIST| ==> !Contains(StatusRaw(raw), STATUS_LIST[i])) && StatusRaw(raw) != "" ==> r.status == Some(StatusRaw(raw)))
  {
    StatusOfFirstContained(StatusRaw(raw));
  }

  lemma StatusOfFirstContained(t: string)
    ensures var r := StatusOf(t);
      (r.Some? && r.value in STATUS_LIST <==> exists i :: 0 <= i < |STATUS_LIST| && Contains(t, STATUS_LIST[i]))
      && (r == Some("aprovado") <==> Contains(t, "aprovado") || t == "aprovado")
      && ((forall i :: 0 <= i < |STATUS_LIST| ==> !Contains(t, STATUS_LIST[i])) && t != "" ==> r == Some(t))
  {
    StatusOfListed(t);
    StatusOfApproved(t);
  }

  /** A listed status comes from the list search, never from the raw text. */
  lemma StatusOfListed(t: string)
    ensures StatusOf(t).Some? && StatusOf(t).value in STATUS_LIST <==> FindContained(STATUS_LIST, t).Some?
  {
    if t in STATUS_LIST {
      var i :| 0 <= i < |STATUS_LIST| && STATUS_LIST[i] == t;
      assert t[0..|t|] == t;
      ContainsAt(t, t, 0);
    }
  }

  lemma StatusOfApproved(t: string)
    ensures StatusOf(t) == Some("aprovado") <==> Contains(t, "aprovado") || t == "aprovado"
  {
    assert STATUS_LIST[0] == "aprovado";
    if t == "aprovado" {
      assert t[0..|t|] == t;
      ContainsAt(t, "aprovado", 0);
    }
    if Contains(t, "aprovado") {
      FindContainedFirst(STATUS_LIST, t, 0);
    }
  }

  // ---------------------------------------------------------------- route order

  const CANDIDATES: seq<string> := [
    "/api/motoboy/login/check-phone",
    "/motoboy/login/check-phone",
    "/api/motoboys/check-phone",
    "/motoboys/check-phone",
    "/api/motoboy_cadastro/check-phone",
    "/motoboy_cadastro/check-phone"]

  datatype Route = Get(path: string) | Post(path: string)

  function GetsOf(paths: seq<string>): (r: seq<Route>)
    ensures |r| == |paths| && forall i :: 0 <= i < |paths| ==> r[i] == Get(paths[i])
  {
    if paths == [] then [] else [Get(paths[0])] + GetsOf(paths[1..])
  }

  function PostsOf(paths: seq<string>): (r: seq<Route>)
    ensures |r| == |paths| && forall i :: 0 <= i < |paths| ==> r[i] == Post(paths[i])
  {
    if paths == [] then [] else [Post(paths[0])] + PostsOf(paths[1..])
  }

  /** Every route `checkPhoneStatus` may try, in the order it tries them:
      all GETs, then all POSTs. */
  function Routes(): (r: seq<Route>)
    ensures |r| == 2 * |CANDIDATES|
    ensures forall i :: 0 <= i < |CANDIDATES| ==> r[i] == Get(CANDIDATES[i]) && r[i + |CANDIDATES|] == Post(CANDIDATES[i])
  {
    GetsOf(CANDIDATES) + PostsOf(CANDIDATES)
  }

  /** The first route whose response has a body, if any. */
  function FirstAnswer(answers: seq<Option<Record>>): (k: Option<nat>)
    ensures k.Some? ==> k.value < |answers| && answers[k.value].Some? && forall j :: 0 <= j < k.value ==> answers[j].None?
    ensures k.None? ==> forall j :: 0 <= j < |answers| ==> answers[j].None?
  {
    if answers == [] then None
    else if answers[0].Some? then Some(0)
    else
      var k := FirstAnswer(answers[1..]);
      assert forall j :: 1 <= j < |answers| ==> answers[1..][j - 1] == answers[j];
      if k.Some? then Some(k.value + 1) else None
  }

  /** The loops of `checkPhoneStatus`: call the routes in order until one
      answers with a body. */
  method TryRoutes(routes: seq<Route>, answers: seq<Option<Record>>) returns (k: Option<nat>, tried: seq<Route>)
    requires |answers| == |routes|
    ensures k == FirstAnswer(answers)
    ensures k.None? ==> tried == routes
    ensures k.Some? ==> tried == routes[..k.value + 1]
  {
    tried := [];
    var i := 0;
    while i < |routes|
      invariant 0 <= i <= |routes|
      invariant tried == routes[..i]
      invariant forall j :: 0 <= j < i ==> answers[j].None?
    {
      tried := tried + [routes[i]];
      assert tried == routes[..i + 1];
      if answers[i].Some? {
        FirstAnswerAt(answers, i);
        return Some(i), tried;
      }
      i := i + 1;
    }
    assert routes[..i] == routes;
    k := None;
  }

  /** The routes called before the first answer with a body: all of them
      when none answers. */
  function TriedRoutes(answers: seq<Option<Record>>): seq<Route>
    requires |answers| == |Routes()|
  {
    var k := FirstAnswer(answers);
    if k.None? then Routes() else Routes()[..k.value + 1]
  }

  /** The normalised first body, if any route answered with one. */
  function CheckOutcome(answers: seq<Option<Record>>): Option<CheckResult>
  {
    var k := FirstAnswer(answers);
    if k.None? then None else Some(NormalizeCheckResponse(answers[k.value].value))
  }

  /** The check fails exactly when no route answered with a body; otherwise
      it is the normalised body of a route that answered, with every route
      before it silent. */
  lemma CheckOutcomeIsFirstBody(answers: seq<Option<Record>>)
    ensures CheckOutcome(answers).None? <==> forall j :: 0 <= j < |answers| ==> answers[j].None?
    ensures CheckOutcome(answers).Some? ==>
      exists k :: (0 <= k < |answers| && answers[k].Some?
        && (forall j :: 0 <= j < k ==> answers[j].None?)
        && CheckOutcome(answers).value == NormalizeCheckResponse(answers[k].value))
  {
    var k := FirstAnswer(answers);
    if k.Some? {
      assert answers[k.value].Some? && CheckOutcome(answers).value == NormalizeCheckResponse(answers[k.value].value);
    }
  }

  /** `checkPhoneStatus`: `answers[i]` is what route `Routes()[i]` returned
      (`None` when it threw or had no body). The result is the normalised
      first body, or `None` when the function throws; `tried` lists the
      routes called. */
  method CheckPhoneStatus(answers: seq<Option<Record>>) returns (r: Option<CheckResult>, tried: seq<Route>)
    requires |answers| == |Routes()|
    ensures r == CheckOutcome(answers)
    ensures tried == TriedRoutes(answers)
  {
    var k;
    k, tried := TryRoutes(Routes(), answers);
    if k.None? {
      r := None;
    } else {
      r := Some(NormalizeCheckResponse(answers[k.value].value));
    }
  }

  lemma FirstAnswerAt(answers: seq<Option<Record>>, i: nat)
    requires i < |answers| && answers[i].Some? && forall j :: 0 <= j < i ==> answers[j].None?
    ensures FirstAnswer(answers) == Some(i)
  {
  }

  // ---------------------------------------------------------------- steps

  datatype Step = PhoneStep | PasswordStep

  datatype Alert = Alert(title: string, message: string)

  /** What the phone check leads to: the password step with the courier's
      name, or an alert. */
  datatype Decision = Advance(name: Value) | Refuse(alert: Alert)

  /** `handleCheckPhone` after a check that answered. */
  function Decide(res: CheckResult): (d: Decision)
    ensures d.Advance? <==> res.exists_ && res.status.Some? && Lower(res.status.value) == "aprovado"
    ensures d.Advance? ==> d.name == OrElse(res.name, VNull)
  {
    var status := if res.status.Some? then Lower(res.status.value) else "";
    if !res.exists_ then Refuse(Alert("Número não cadastrado", "Verifique o celular informado ou realize seu cadastro."))
    else if status != "aprovado" then
      Refuse(Alert("Acesso indisponível",
        if status == "pendente" then "Seu cadastro está PENDENTE de aprovação."
        else if status == "desativado" then "Seu cadastro está DESATIVADO."
        else if status == "rejeitado" then "Seu cadastro foi REJEITADO."
        else "Seu cadastro não está liberado (status: " + (if res.status.Some? then res.status.value else "desconhecido") + ")."))
    else Advance(OrElse(res.name, VNull))
  }

  /** The password step is reached only by a courier the backend reports as
      existing and approved; a raw "aprovado" status always gets there. */
  lemma ApprovedAdvances(raw: Record)
    requires StatusRaw(raw) == "aprovado"
    ensures Decide(NormalizeCheckResponse(raw)).Advance?
  {
    StatusIsFirstContained(raw);
    assert Lower("aprovado") == "aprovado";
  }

  class Screen {
    var step: Step
    var phoneInput: string
    var phoneMasked: string
    var phoneDigits: string
    var phoneError: Option<string>
    var motoboyName: Value
    var senha: string
    var alerts: seq<Alert>
    var checks: seq<Route>

    constructor ()
      ensures step == PhoneStep && phoneInput == "" && phoneMasked == "" && phoneDigits == ""
      ensures phoneError == None && motoboyName == VNull && senha == "" && alerts == [] && checks == []
    {
      step := PhoneStep;
      phoneInput := "";
      phoneMasked := "";
      phoneDigits := "";
      phoneError := None;
      motoboyName := VNull;
      senha := "";
      alerts := [];
      checks := [];
    }

    /** The phone field's `onChangeText`: editing the phone during the
        password step goes back to the phone step and clears the name and
        the password. */
    method OnChangePhone(t: string)
      modifies this
      ensures phoneInput == t && phoneMasked == MaskBRPhone(t) && phoneDigits == NormalizePhoneDigits(t) && phoneError == None
      ensures step == PhoneStep
      ensures old(step) == PasswordStep ==> motoboyName == VNull && senha == ""
      ensures old(step) == PhoneStep ==> motoboyName == old(motoboyName) && senha == old(senha)
      ensures alerts == old(alerts) && checks == old(checks)
    {
      phoneInput := t;
      phoneMasked := MaskBRPhone(t);
      phoneError := None;
      phoneDigits := NormalizePhoneDigits(t);
      if step == PasswordStep {
        step := PhoneStep;
        motoboyName := VNull;
        senha := "";
      }
    }

    /** The password field's `onChangeText`. */
    method OnChangePassword(t: string)
      modifies this
      ensures senha == t && step == old(step) && phoneDigits == old(phoneDigits)
    {
      senha := t;
    }

    /** `validatePhoneLocally`. */
    method ValidateLocally() returns (ok: bool)
      modifies this
      ensures ok == ValidatePhone(phoneInput).Some?
      ensures ok ==> phoneError == None && phoneDigits == NormalizePhoneDigits(phoneInput)
      ensures !ok ==> phoneError == Some("Digite um celular válido com DDD") && phoneDigits == old(phoneDigits)
      ensures step == old(step) && motoboyName == old(motoboyName) && alerts == old(alerts) && checks == old(checks)
      ensures phoneInput == old(phoneInput) && senha == old(senha)
    {
      var d := NormalizePhoneDigits(phoneInput);
      if |d| < 10 || |d| > 11 {
        phoneError := Some("Digite um celular válido com DDD");
        return false;
      }
      phoneError := None;
      phoneDigits := d;
      return true;
    }

    /** `handleCheckPhone`. */
    method HandleCheckPhone(answers: seq<Option<Record>>)
      requires |answers| == |Routes()|
      modifies this
      ensures ValidatePhone(old(phoneInput)).None? ==> step == old(step) && checks == old(checks)
      ensures step == PasswordStep ==> (old(step) == PasswordStep ||
        (ValidatePhone(old(phoneInput)).Some? && CheckOutcome(answers).Some?
         && Decide(CheckOutcome(answers).value).Advance?))
      ensures ValidatePhone(old(phoneInput)).Some? && CheckOutcome(answers).Some? ==>
        var d := Decide(CheckOutcome(answers).value);
        (d.Advance? ==> step == PasswordStep && motoboyName == d.name && alerts == old(alerts))
        && (d.Refuse? ==> step == old(step) && alerts == old(alerts) + [d.alert])
      ensures ValidatePhone(old(phoneInput)).Some? && CheckOutcome(answers).None? ==>
        step == old(step) && alerts == old(alerts) + [Alert("Falha ao verificar", "Não foi possível verificar o número agora.")]
    {
      var ok := ValidateLocally();
      if !ok {
        return;
      }
      CheckAndRespond(answers);
    }

    /** The part of `handleCheckPhone` after the local validation passed:
        call the routes, then act on the outcome. */
    method CheckAndRespond(answers: seq<Option<Record>>)
      requires |answers| == |Routes()|
      modifies this
      ensures checks == old(checks) + TriedRoutes(answers)
      ensures CheckOutcome(answers).None? ==>
        step == old(step) && alerts == old(alerts) + [Alert("Falha ao verificar", "Não foi possível verificar o número agora.")]
      ensures CheckOutcome(answers).Some? ==>
        var d := Decide(CheckOutcome(answers).value);
        (d.Advance? ==> step == PasswordStep && motoboyName == d.name && alerts == old(alerts))
        && (d.Refuse? ==> step == old(step) && alerts == old(alerts) + [d.alert])
    {
      var res, tried := CheckPhoneStatus(answers);
      checks := checks + tried;
      Respond(res);
    }

    /** What `handleCheckPhone` does with the check's outcome: an alert when
        no route answered, else the decision's alert or the password step. */
    method Respond(res: Option<CheckResult>)
      modifies this
      ensures checks == old(checks)
      ensures res.None? ==>
        step == old(step) && alerts == old(alerts) + [Alert("Falha ao verificar", "Não foi possível verificar o número agora.")]
      ensures res.Some? ==>
        var d := Decide(res.value);
        (d.Advance? ==> step == PasswordStep && motoboyName == d.name && alerts == old(alerts))
        && (d.Refuse? ==> step == old(step) && alerts == old(alerts) + [d.alert])
    {
      if res.None? {
        alerts := alerts + [Alert("Falha ao verificar", "Não foi possível verificar o número agora.")];
        return;
      }
      var d := Decide(res.value);
      match d
      case Refuse(a) =>
        alerts := alerts + [a];
      case Advance(name) =>
        motoboyName := name;
        step := PasswordStep;
    }

    /** `onSubmitSenha`: log in with the checked digits and the password. */
    method SubmitPassword(session: Auth.Session, reply: Auth.LoginReply)
      modifies this, session
      ensures ValidatePhone(old(phoneInput)).None? ==> session.token == old(session.token) && session.requests == old(session.requests)
      ensures ValidatePhone(old(phoneInput)).Some? ==>
        var r := Auth.LoginOutcome(NormalizePhoneDigits(old(phoneInput)), reply);
        (r.LoggedIn? ==> session.token == Some(r.token) && session.user == Some(r.user) && alerts == old(alerts))
        && (r.Failed? ==> session.token == old(session.token) && alerts == old(alerts) + [Alert("Falha no login", LoginFailureText(r.error))])
    {
      var ok := ValidateLocally();
      if !ok {
        return;
      }
      var r := session.Login(phoneDigits, senha, reply);
      if r.Failed? {
        alerts := alerts + [Alert("Falha no login", LoginFailureText(r.error))];
      }
    }
  }

  /** The message of the failed-login alert,
      `e?.response?.data?.error || e?.message || "Tente novamente"`: `login`'s
      own errors carry no response and show their own message. */
  function LoginFailureText(e: Auth.LoginError): string
  {
    match e
    case InvalidPhone => "Telefone inválido"
    case InvalidAnswer => "Resposta de login inválida"
    case RequestFailed(f) =>
      if Truthy(f.backendError) then ToStr(f.backendError)
      else if f.message != "" then f.message
      else "Tente novamente"
  }

  /** After a failed request the backend's own error text wins, then the
      exception's message; the generic "Tente novamente" shows only when
      both are empty. */
  lemma RequestFailureTextCases(phoneInput: string, f: Auth.RequestFailure)
    requires NormalizePhoneDigits(phoneInput) != ""
    ensures var r := Auth.LoginOutcome(phoneInput, Auth.Threw(f));
      r.Failed?
      && (f.backendError.VStr? && f.backendError.s != "" ==> LoginFailureText(r.error) == f.backendError.s)
      && (!Truthy(f.backendError) ==> LoginFailureText(r.error) == (if f.message != "" then f.message else "Tente novamente"))
      && (!Truthy(f.backendError) && f.message == "" ==> LoginFailureText(r.error) == "Tente novamente")
  {
  }
}
