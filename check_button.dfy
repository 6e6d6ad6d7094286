/** The check-in/check-out button (src/components/CheckButton.tsx): the
    backend calls' result mapping, the presence state the button keeps in
    step with the backend by polling, the long press that toggles it, and
    the alert suppression after the courier's own check-out. */
module CheckButton {
  import opened Text
  import opened Json

  // ---------------------------------------------------------------- backend calls

  /** `getCheckState` over its routes: each answer is the response body, or
      `None` for a request that threw. The first body whose `checkedIn` is a
      boolean decides; otherwise the courier counts as checked out. */
  function CheckStateSpec(answers: seq<Option<Record>>): (b: bool)
    ensures b ==> exists i :: 0 <= i < |answers| && answers[i].Some? && Field(answers[i].value, "checkedIn") == VBool(true)
    ensures (forall i :: 0 <= i < |answers| ==> answers[i].None? || !Field(answers[i].value, "checkedIn").VBool?) ==> !b
  {
    if answers == [] then false
    else if answers[0].Some? && Field(answers[0].value, "checkedIn").VBool? then Field(answers[0].value, "checkedIn").b
    else
      var b := CheckStateSpec(answers[1..]);
      assert forall i :: 1 <= i < |answers| ==> answers[1..][i - 1] == answers[i];
      b
  }

  method GetCheckState(answers: seq<Option<Record>>) returns (b: bool)
    ensures b == CheckStateSpec(answers)
  {
    var i := 0;
    while i < |answers|
      invariant 0 <= i <= |answers|
      invariant CheckStateSpec(answers) == CheckStateSpec(answers[i..])
    {
      assert answers[i..][1..] == answers[i + 1..];
      var a := answers[i];
      if a.Some? && Field(a.value, "checkedIn").VBool? {
        return Field(a.value, "checkedIn").b;
      }
      i := i + 1;
    }
    return false;
  }

  /** One POST attempt: the request threw (with the server's `error` field
      and the exception's message), or it answered with a status and body. */
  datatype Attempt = Threw(serverError: Value, errorMessage: Value) | Answered(status: int, body: Record)

  /** What `doCheckin`/`doCheckout` return, and how many routes they tried. */
  datatype Outcome = Outcome(ok: bool, message: string, tried: nat)

  /** `a || b` on texts. */
  function OrText(v: Value, fallback: string): string
  {
    if Truthy(v) then ToStr(v) else fallback
  }

  predicate Success(status: int)
  {
    200 <= status < 300
  }

  /** The routes in order: a 2xx answer succeeds with the server's message
      or the default; a throw fails at once with the server's error, the
      exception's message or the default; any other answer moves on. */
  function DoCheckSpec(attempts: seq<Attempt>, okText: string, failText: string): Outcome
    decreases |attempts|
  {
    if attempts == [] then Outcome(false, failText, 0)
    else match attempts[0]
      case Threw(e, m) => Outcome(false, OrText(e, OrText(m, failText)), 1)
      case Answered(st, body) =>
        if Success(st) then Outcome(true, OrText(Field(body, "message"), okText), 1)
        else
          var r := DoCheckSpec(attempts[1..], okText, failText);
          r.(tried := r.tried + 1)
  }

  /** The loop over the routes. */
  method DoCheck(attempts: seq<Attempt>, okText: string, failText: string) returns (r: Outcome)
    ensures r == DoCheckSpec(attempts, okText, failText)
  {
    var i := 0;
    while i < |attempts|
      invariant 0 <= i <= |attempts|
      invariant forall k :: 0 <= k < i ==> attempts[k].Answered? && !Success(attempts[k].status)
      invariant var rest := DoCheckSpec(attempts[i..], okText, failText);
        DoCheckSpec(attempts, okText, failText) == rest.(tried := rest.tried + i)
    {
      assert attempts[i..][1..] == attempts[i + 1..];
      match attempts[i]
      case Threw(e, m) =>
        return Outcome(false, OrText(e, OrText(m, failText)), i + 1);
      case Answered(st, body) =>
        if Success(st) {
          return Outcome(true, OrText(Field(body, "message"), okText), i + 1);
        }
      i := i + 1;
    }
    return Outcome(false, failText, i);
  }

  /** Route `i` answers 2xx and every route before it answered otherwise. */
  predicate FirstSuccessAt(attempts: seq<Attempt>, i: int)
  {
    0 <= i < |attempts| && attempts[i].Answered? && Success(attempts[i].status)
    && forall k :: 0 <= k < i ==> attempts[k].Answered? && !Success(attempts[k].status)
  }

  /** The call succeeds exactly when some route answers 2xx before any route
      throws; it stops at the first throw or success, so an exception on the
      first route never reaches the second. */
  lemma {:induction false} DoCheckOkIff(attempts: seq<Attempt>, okText: string, failText: string)
    ensures var r := DoCheckSpec(attempts, okText, failText);
      r.ok <==> exists i :: FirstSuccessAt(attempts, i)
    ensures var r := DoCheckSpec(attempts, okText, failText);
      r.tried <= |attempts| && (r.tried < |attempts| ==> r.tried > 0 && (attempts[r.tried - 1].Threw? || Success(attempts[r.tried - 1].status)))
    ensures |attempts| > 0 && attempts[0].Threw? ==> !DoCheckSpec(attempts, okText, failText).ok && DoCheckSpec(attempts, okText, failText).tried == 1
    decreases |attempts|
  {
    if attempts != [] {
      var rest := attempts[1..];
      DoCheckOkIff(rest, okText, failText);
      var r := DoCheckSpec(attempts, okText, failText);
      if attempts[0].Answered? && !Success(attempts[0].status) {
        var rr := DoCheckSpec(rest, okText, failText);
        assert r == rr.(tried := rr.tried + 1);
        if rr.ok {
          var i :| FirstSuccessAt(rest, i);
          assert attempts[i + 1] == rest[i];
          assert forall k :: 1 <= k < i + 1 ==> attempts[k] == rest[k - 1];
          assert FirstSuccessAt(attempts, i + 1);
        }
        if exists i :: FirstSuccessAt(attempts, i) {
          var i :| FirstSuccessAt(attempts, i);
          assert i > 0;
          assert rest[i - 1] == attempts[i];
          assert forall k :: 0 <= k < i - 1 ==> rest[k] == attempts[k + 1];
          assert FirstSuccessAt(rest, i - 1);
        }
        assert r.tried == rr.tried + 1;
        if rr.tried < |rest| {
          assert rr.tried > 0 && (rest[rr.tried - 1].Threw? || Success(rest[rr.tried - 1].status));
          assert attempts[r.tried - 1] == rest[rr.tried - 1];
        }
      } else if attempts[0].Answered? {
        assert FirstSuccessAt(attempts, 0);
      }
    }
  }

  // ---------------------------------------------------------------- presence

  /** The poll period: every 15 s while checked in, every 30 s otherwise. */
  function PollInterval(checkedIn: bool): (ms: int)
    ensures checkedIn <==> ms == 15000
    ensures ms == 15000 || ms == 30000
  {
    if checkedIn then 15000 else 30000
  }

  datatype Alert = Alert(title: string, message: string)

  const AUTO_CHECKOUT: Alert := Alert("Check-out automático",
    "Seu turno foi encerrado automaticamente. O valor do turno fixo foi lançado no seu relatório.")
  const HOLD_LONGER: Alert := Alert("Segure por 2 segundos", "Para confirmar, mantenha pressionado por 2 segundos.")
  const INVALID_COURIER: Alert := Alert("Erro", "Motoboy inválido.")

  /** The button's state: the shown presence, the last known backend
      presence, the long-press and suppress flags, the alerts shown and how
      many times the parent was told to reload. */
  datatype Presence = Presence(checkedIn: bool, prev: bool, longOk: bool, suppress: bool, alerts: seq<Alert>, reloads: nat)

  /** `!motoboyId`. */
  predicate NoCourier(courier: Option<int>)
  {
    courier.None? || courier.value == 0
  }

  /** `refreshState` with the state the backend reported. */
  function RefreshSpec(p: Presence, courier: Option<int>, st: bool): Presence
  {
    if NoCourier(courier) || st == p.prev then p
    else p.(checkedIn := st, prev := st, reloads := p.reloads + 1)
  }

  /** One poll tick with the state the backend reported: a change is
      adopted, and a change from checked in to checked out that the courier
      did not cause is announced. */
  function PollSpec(p: Presence, courier: Option<int>, st: bool): Presence
  {
    if NoCourier(courier) || st == p.prev then p
    else
      var announce := p.prev && !st && !p.suppress;
      p.(checkedIn := st, prev := st, suppress := false,
         alerts := p.alerts + (if announce then [AUTO_CHECKOUT] else []),
         reloads := p.reloads + 1)
  }

  /** `onLongPress` with the outcome of the call it makes. */
  function LongPressSpec(p: Presence, courier: Option<int>, r: Outcome): Presence
  {
    if NoCourier(courier) then p.(alerts := p.alerts + [INVALID_COURIER])
    else if !p.checkedIn then
      if !r.ok then p.(longOk := true, alerts := p.alerts + [Alert("Check-in não permitido", r.message)], reloads := p.reloads + 1)
      else p.(longOk := true, checkedIn := true, prev := true, alerts := p.alerts + [Alert("Tudo certo!", r.message)], reloads := p.reloads + 1)
    else
      if !r.ok then p.(longOk := true, alerts := p.alerts + [Alert("Check-out não permitido", r.message)], reloads := p.reloads + 1)
      else p.(longOk := true, suppress := true, checkedIn := false, prev := false, alerts := p.alerts + [Alert("Tudo certo!", r.message)], reloads := p.reloads + 1)
  }

  /** The timeout two seconds after a long press. */
  function EndSuppressSpec(p: Presence): Presence
  {
    p.(suppress := false)
  }

  /** `onPressOut`. */
  function PressOutSpec(p: Presence): Presence
  {
    p.(longOk := false, alerts := p.alerts + (if p.longOk then [] else [HOLD_LONGER]))
  }

  /** The shown state always matches the last backend state the button
      knows of. */
  predicate InStep(p: Presence)
  {
    p.checkedIn == p.prev
  }

  lemma TransitionsKeepInStep(p: Presence, courier: Option<int>, st: bool, r: Outcome)
    requires InStep(p)
    ensures InStep(RefreshSpec(p, courier, st)) && InStep(PollSpec(p, courier, st))
    ensures InStep(LongPressSpec(p, courier, r)) && InStep(EndSuppressSpec(p)) && InStep(PressOutSpec(p))
  {
  }

  /** A poll tick announces an automatic check-out exactly when the backend
      went from checked in to checked out without a check-out of the
      courier's own being suppressed; any detected change clears the
      suppression. */
  lemma PollAlertIff(p: Presence, courier: Option<int>, st: bool)
    ensures var q := PollSpec(p, courier, st);
      (|q.alerts| > |p.alerts| <==> !NoCourier(courier) && p.prev && !st && !p.suppress)
      && (|q.alerts| > |p.alerts| ==> q.alerts == p.alerts + [AUTO_CHECKOUT])
      && (!NoCourier(courier) && st != p.prev ==> !q.suppress && q.checkedIn == st)
      && (NoCourier(courier) || st == p.prev ==> q == p)
  {
  }

  /** A check-out the courier made is never announced as automatic by the
      poll ticks that follow it. */
  lemma OwnCheckoutNotAnnounced(p: Presence, courier: Option<int>, r: Outcome, st: bool)
    requires InStep(p) && p.checkedIn && r.ok && !NoCourier(courier)
    ensures var q := LongPressSpec(p, courier, r);
      !q.checkedIn && q.suppress
      && PollSpec(q, courier, st).alerts == q.alerts
      && PollSpec(EndSuppressSpec(q), courier, st).alerts == q.alerts
  {
  }

  /** A long press toggles the presence exactly when the call succeeds. */
  lemma LongPressToggles(p: Presence, courier: Option<int>, r: Outcome)
    requires !NoCourier(courier)
    ensures var q := LongPressSpec(p, courier, r);
      (r.ok ==> q.checkedIn == !p.checkedIn && q.prev == q.checkedIn)
      && (!r.ok ==> q.checkedIn == p.checkedIn && q.prev == p.prev)
      && q.longOk && |q.alerts| == |p.alerts| + 1
  {
  }

  /** Releasing warns exactly when the long press did not complete, and
      always resets the flag. */
  lemma PressOutWarnsIff(p: Presence)
    ensures var q := PressOutSpec(p);
      !q.longOk && (q.alerts == p.alerts + [HOLD_LONGER] <==> !p.longOk) && (p.longOk ==> q.alerts == p.alerts)
  {
  }

  // ---------------------------------------------------------------- the component

  class Button {
    const courier: Option<int>
    var checkedIn: bool
    var prev: bool
    var longOk: bool
    var suppress: bool
    var alerts: seq<Alert>
    var reloads: nat

    function Current(): Presence
      reads this
    {
      Presence(checkedIn, prev, longOk, suppress, alerts, reloads)
    }

    constructor (motoboyId: Option<int>)
      ensures courier == motoboyId
      ensures Current() == Presence(false, false, false, false, [], 0)
    {
      courier := motoboyId;
      checkedIn := false;
      prev := false;
      longOk := false;
      suppress := false;
      alerts := [];
      reloads := 0;
    }

    method RefreshState(answers: seq<Option<Record>>)
      modifies this
      ensures Current() == RefreshSpec(old(Current()), courier, CheckStateSpec(answers))
    {
      if courier.None? || courier.value == 0 {
        return;
      }
      var st := GetCheckState(answers);
      if st != prev {
        checkedIn := st;
        prev := st;
        reloads := reloads + 1;
      }
    }

    method PollTick(answers: seq<Option<Record>>)
      modifies this
      ensures Current() == PollSpec(old(Current()), courier, CheckStateSpec(answers))
    {
      if courier.None? || courier.value == 0 {
        return;
      }
      var st := GetCheckState(answers);
      var was := prev;
      if st != was {
        checkedIn := st;
        prev := st;
        if was && !st && !suppress {
          alerts := alerts + [AUTO_CHECKOUT];
        }
        suppress := false;
        reloads := reloads + 1;
      }
    }

    method OnLongPress(attempts: seq<Attempt>)
      modifies this
      ensures var r := if old(checkedIn) then DoCheckSpec(attempts, "Check-out realizado.", "Falha no check-out.")
          else DoCheckSpec(attempts, "Check-in realizado.", "Falha no check-in.");
        Current() == LongPressSpec(old(Current()), courier, r)
    {
      if courier.None? || courier.value == 0 {
        alerts := alerts + [INVALID_COURIER];
        return;
      }
      longOk := true;
      if !checkedIn {
        var r := DoCheck(attempts, "Check-in realizado.", "Falha no check-in.");
        if !r.ok {
          alerts := alerts + [Alert("Check-in não permitido", r.message)];
        } else {
          checkedIn := true;
          prev := true;
          alerts := alerts + [Alert("Tudo certo!", r.message)];
        }
      } else {
        var r := DoCheck(attempts, "Check-out realizado.", "Falha no check-out.");
        if !r.ok {
          alerts := alerts + [Alert("Check-out não permitido", r.message)];
        } else {
          suppress := true;
          checkedIn := false;
          prev := false;
          alerts := alerts + [Alert("Tudo certo!", r.message)];
        }
      }
      reloads := reloads + 1;
    }

    method EndSuppress()
      modifies this
      ensures Current() == EndSuppressSpec(old(Current()))
    {
      suppress := false;
    }

    method OnPressOut()
      modifies this
      ensures Current() == PressOutSpec(old(Current()))
    {
      if !longOk {
        alerts := alerts + [HOLD_LONGER];
      }
      longOk := false;
    }
  }
}
