/** The offer desk of the home screen (src/screens/HomeScreen.tsx): the push
    intake with its 150 ms duplicate window, the one offer on screen and the
    queue behind it, the countdown, and the accept and reject buttons. */
module HomeOffers {
  import opened Text
  import opened Json
  import opened Offers
  import opened Stages
  import opened AcceptedDeliveries
  import HomeBoard

  /** The tabs of the home screen. */
  datatype Tab = Status | Entregas | Opcoes | Perfil

  /** An offer as the push handler builds it. `expiry` is `expira_em` after
      `Date.parse`; the display fields stay raw values. */
  datatype Offer = Offer(
    entregaId: int,
    numero: Value,
    clienteNome: Value,
    coletaEndereco: Value,
    entregaEndereco: Value,
    valorTotalMotoboy: Value,
    expiry: Expiry,
    hasRetorno: Value,
    corridaCode: Value,
    numeroPublico: Value,
    codigoCorrida: Value,
    idPublico: Value)

  /** What a handler sees of the world: the clock, the logged-in courier,
      the records the two "still yours" guards fetched (`pushAnswer` for the
      one in `handlePushData`, `openAnswer` for the one in `abrirOferta`,
      which asks again later), and `Date.parse`. */
  datatype Env = Env(now: int, courier: Option<Courier>, pushAnswer: Option<Record>, openAnswer: Option<Record>,
                     parse: string -> Option<int>)

  /** The backend calls the two buttons make. */
  datatype Request = AcceptOffer(entregaId: int) | RejectOffer(entregaId: int)

  /** `!motoboyId`. */
  predicate NoUser(courier: Option<Courier>)
  {
    courier.None? || courier.value.id == 0
  }

  function Key(o: Offer): string
  {
    OfferKey(o.entregaId, o.expiry)
  }

  // ---------------------------------------------------------------- duplicate window

  /** `handledOffersRef.get(key) ?? 0`. */
  function LastSeen(handled: map<string, int>, key: string): int
  {
    if key in handled then handled[key] else 0
  }

  /** `alreadyHandledKey` answers true. */
  predicate Duplicate(handled: map<string, int>, key: string, now: int)
  {
    now - LastSeen(handled, key) < SEEN_WINDOW_MS
  }

  /** The map after `alreadyHandledKey(key)` at `now`. */
  function Seen(handled: map<string, int>, key: string, now: int): map<string, int>
  {
    if Duplicate(handled, key, now) then handled else handled[key := now]
  }

  /** Of two events for one key less than 150 ms apart only the first
      passes; events 150 ms or more apart both pass; other keys are not
      affected. */
  lemma DuplicateWindow(handled: map<string, int>, key: string, other: string, t1: int, t2: int)
    requires !Duplicate(handled, key, t1) && t1 <= t2
    ensures Duplicate(Seen(handled, key, t1), key, t2) <==> t2 - t1 < SEEN_WINDOW_MS
    ensures other != key ==> LastSeen(Seen(handled, key, t1), other) == LastSeen(handled, other)
  {
  }

  /** `clearAllKeysFor(id)` as a function: every key with the prefix "<id>:"
      removed, the rest with their time stamps. */
  function KeysCleared(handled: map<string, int>, id: int): (r: map<string, int>)
    ensures forall k :: k in r ==> k in handled && r[k] == handled[k]
  {
    map k | k in handled && !StartsWith(k, IdPrefix(id)) :: handled[k]
  }

  /** Clearing an id forgets exactly that delivery's offer keys: a key built
      for another delivery survives with its time stamp, whatever its
      expiry. */
  lemma ClearKeysExactlyForId(handled: map<string, int>, id: int, id2: int, e: Expiry)
    ensures OfferKey(id2, e) in KeysCleared(handled, id) <==> OfferKey(id2, e) in handled && id2 != id
  {
    KeyHasIdPrefixIff(id, id2, e);
  }

  // ---------------------------------------------------------------- the desk as a value

  /** Everything the offer handlers change. `countdown` is the offer whose
      one-second interval is running. The handlers are closures over one
      render of the screen, so each sees the offer on screen as it was when
      that render ran: `closeSees` is the offer the `fecharOferta` called by
      the running countdown sees on screen. */
  datatype DeskState = DeskState(
    handled: map<string, int>,
    current: Option<Offer>,
    queue: seq<Offer>,
    seconds: Option<int>,
    countdown: Option<Offer>,
    closeSees: Option<Offer>,
    alarmOn: bool,
    activeTab: Tab,
    alerts: seq<string>,
    requests: seq<Request>)

  /** What the handlers keep true: the offer on screen has an expiry and its
      countdown is the one running, and the seconds shown are never
      negative. */
  predicate DeskInv(s: DeskState)
  {
    (s.current.Some? ==> s.current.value.expiry != NoExpiry && s.countdown == s.current)
    && (s.seconds.Some? ==> s.seconds.value >= 0)
  }

  /** `abrirOferta`'s first step: an offer without expiry gets one 15 s from
      now. */
  function Stamped(o: Offer, now: int): (r: Offer)
    ensures r.expiry != NoExpiry
  {
    if o.expiry.NoExpiry? then o.(expiry := At(now + ASSIGN_TTL_MS)) else o
  }

  /** The same assignment is already on screen or already queued. */
  predicate KeyTaken(current: Option<Offer>, queue: seq<Offer>, k: string)
  {
    (current.Some? && Key(current.value) == k) || exists i :: 0 <= i < |queue| && Key(queue[i]) == k
  }

  /** `fecharOferta` up to the point where it may open the next offer, for a
      `fecharOferta` whose render showed `seen`: the keys it frees are those
      of `seen`, whatever is on screen now. */
  function CloseCoreSpec(s: DeskState, seen: Option<Offer>): (r: DeskState)
    ensures r.current.None? && r.countdown.None? && !r.alarmOn
    ensures r.queue == s.queue && r.requests == s.requests && r.alerts == s.alerts
    ensures seen.None? ==> r.handled == s.handled
  {
    var s1 := s.(countdown := None, alarmOn := false);
    var s2 := if seen.Some? && seen.value.entregaId != 0
      then s1.(handled := KeysCleared(s.handled, seen.value.entregaId)) else s1;
    s2.(current := None, seconds := None)
  }

  /** `abrirOferta(o)` for an `abrirOferta` whose render showed `seen`: the
      "already on screen" test compares with `seen`. The countdown's first
      tick runs at once; when it already reads 0 the offer is closed again,
      and the interval and the alarm are started all the same. */
  function OpenSpec(s: DeskState, o: Offer, env: Env, seen: Option<Offer>): (r: DeskState)
    ensures r.queue == s.queue && r.requests == s.requests && r.alerts == s.alerts
    ensures NoUser(env.courier) ==> r == s
  {
    var o1 := Stamped(o, env.now);
    if KeyTaken(seen, s.queue, Key(o1)) || NoUser(env.courier) then s
    else if !StillYours(env.openAnswer, env.courier.value, env.parse, env.now) then s.(activeTab := Entregas)
    else ShowSpec(s, o1, env.now, seen)
  }

  /** The last part of `abrirOferta`: show the stamped offer, run the first
      tick, start the countdown and the alarm. The tick closes through the
      `fecharOferta` of the same render, which sees `seen`. */
  function ShowSpec(s: DeskState, o1: Offer, now: int, seen: Option<Offer>): (r: DeskState)
    ensures r.countdown == Some(o1) && r.closeSees == seen && r.alarmOn
    ensures r.queue == s.queue && r.requests == s.requests && r.alerts == s.alerts
    ensures SecsLeft(o1.expiry, now) != Some(0) ==>
      r.current == Some(o1) && r.seconds == SecsLeft(o1.expiry, now) && r.handled == s.handled
    ensures SecsLeft(o1.expiry, now) == Some(0) ==> r.current.None? && r.seconds.None?
  {
    var left := SecsLeft(o1.expiry, now);
    var s1 := s.(current := Some(o1), seconds := left, closeSees := seen);
    var s2 := if left == Some(0) then CloseCoreSpec(s1, seen) else s1;
    s2.(countdown := Some(o1), alarmOn := true)
  }

  /** `fecharOferta(abrirProxima)` for a render that showed `seen`; the next
      offer is opened by the `abrirOferta` of that same render. */
  function CloseSpec(s: DeskState, openNext: bool, env: Env, seen: Option<Offer>): (r: DeskState)
    ensures r.requests == s.requests && r.alerts == s.alerts
    ensures !openNext || |s.queue| == 0 ==> r.current.None? && r.queue == s.queue && !r.alarmOn
    ensures openNext && |s.queue| > 0 ==> r.queue == s.queue[1..]
  {
    var s1 := CloseCoreSpec(s, seen);
    if openNext && |s1.queue| > 0 then OpenSpec(s1.(queue := s1.queue[1..]), s1.queue[0], env, seen) else s1
  }

  /** One run of the countdown interval. */
  function TickSpec(s: DeskState, now: int): (r: DeskState)
    ensures r.queue == s.queue && r.requests == s.requests && r.alerts == s.alerts && r.activeTab == s.activeTab
    ensures s.countdown.Some? && SecsLeft(s.countdown.value.expiry, now) != Some(0) ==>
      r == s.(seconds := SecsLeft(s.countdown.value.expiry, now))
  {
    if s.countdown.None? then s
    else
      var left := SecsLeft(s.countdown.value.expiry, now);
      var s1 := s.(seconds := left);
      if left == Some(0) then CloseCoreSpec(s1, s.closeSees) else s1
  }

  /** `enfileirarOuAbrir(o)`, run by the latest render. */
  function EnqueueOrOpenSpec(s: DeskState, o: Offer, env: Env): (r: DeskState)
    ensures r.requests == s.requests && r.alerts == s.alerts
    ensures s.current.Some? ==> r == s.(queue := s.queue + [o])
  {
    if s.current.None? then OpenSpec(s, o, env, s.current) else s.(queue := s.queue + [o])
  }

  /** The public number the accept button records:
      corrida_code ?? numero_publico ?? codigo_corrida ?? id_publico ?? numero ?? id. */
  function AcceptedNumber(o: Offer): (r: Value)
    ensures !Nullish(r)
  {
    OrElse(o.corridaCode, OrElse(o.numeroPublico, OrElse(o.codigoCorrida,
      OrElse(o.idPublico, OrElse(o.numero, VNum(o.entregaId))))))
  }

  /** The desk side of `aceitarOferta` (`ok` is the backend's answer, which a
      missing courier turns into a refusal before any request). */
  function AcceptSpec(s: DeskState, env: Env, ok: bool): (r: DeskState)
    ensures s.current.None? ==> r == s
    ensures s.current.Some? ==> !r.alarmOn || r.current != s.current
    ensures r.requests == s.requests
      || (s.current.Some? && !NoUser(env.courier) && r.requests == s.requests + [AcceptOffer(s.current.value.entregaId)])
    ensures s.current.Some? && s.current.value.entregaId == 0 ==> r.alerts == s.alerts + ["Erro"] && r.current == s.current
  {
    if s.current.None? then s
    else
      var id := s.current.value.entregaId;
      var s1 := s.(alarmOn := false);
      if id == 0 then s1.(alerts := s1.alerts + ["Erro"])
      else
        var s2 := if NoUser(env.courier) then s1 else s1.(requests := s1.requests + [AcceptOffer(id)]);
        if NoUser(env.courier) || !ok then s2.(alerts := s2.alerts + ["TEMPO EXPIRADO"])
        else CloseSpec(s2.(handled := KeysCleared(s2.handled, id)), true, env, s.current).(activeTab := Entregas)
  }

  /** `rejeitarOferta`. */
  function RejectSpec(s: DeskState, env: Env, ok: bool): (r: DeskState)
    ensures s.current.None? ==> r == s
    ensures r.requests == s.requests
      || (s.current.Some? && !NoUser(env.courier) && r.requests == s.requests + [RejectOffer(s.current.value.entregaId)])
    ensures s.current.Some? && s.current.value.entregaId == 0 ==> r.alerts == s.alerts + ["Erro"] && r.current == s.current
    ensures r.activeTab == s.activeTab || r.activeTab == Entregas
  {
    if s.current.None? then s
    else
      var id := s.current.value.entregaId;
      var s1 := s.(alarmOn := false);
      if id == 0 then s1.(alerts := s1.alerts + ["Erro"])
      else
        var s2 := if NoUser(env.courier) then s1 else s1.(requests := s1.requests + [RejectOffer(id)]);
        if NoUser(env.courier) || !ok then s2.(alerts := s2.alerts + ["TEMPO EXPIRADO"])
        else CloseSpec(s2.(handled := KeysCleared(s2.handled, id)), true, env, s.current)
  }

  // ---------------------------------------------------------------- push intake

  const CODE_KEYS: seq<string> := ["corrida_code", "numero_publico", "codigo_corrida", "id_publico"]

  /** A push that announces an offer. */
  predicate IsOfferPush(data: Record)
  {
    Field(data, "type") == VStr("new_delivery") || Field(data, "type") == VStr("oferta_corrida")
    || Field(data, "tipo") == VStr("oferta")
  }

  /** `Number(data.entrega_id ?? data.id ?? 0)`. */
  function PushId(data: Record): Option<int>
  {
    NumberOf(OrElse(Field(data, "entrega_id"), OrElse(Field(data, "id"), VNum(0))))
  }

  /** The public number a push carries itself. */
  function PushNumber(data: Record): Value
  {
    OrElse(Coalesce(data, CODE_KEYS), Coalesce(data, ["numero", "codigo", "pedido_numero"]))
  }

  /** The public number, looked up in `lookup` (the delivery record fetched
      by id, `None` when the fetch failed) only when the push has none. */
  function OfferNumber(data: Record, id: int, lookup: Option<Record>): (r: Value)
    ensures !Nullish(r)
    ensures Truthy(PushNumber(data)) ==> r == PushNumber(data)
    ensures !Truthy(PushNumber(data)) && lookup.None? ==> r == VNum(id)
  {
    var n := PushNumber(data);
    if Truthy(n) then n
    else match lookup
      case None => VNum(id)
      case Some(f) =>
        var code := OrElse(Coalesce(f, CODE_KEYS), Coalesce(data, CODE_KEYS));
        OrElse(code, OrElse(Coalesce(f, ["numero", "pedido_numero"]), VNum(id)))
  }

  /** The offer `handlePushData` builds. */
  function IntakeOffer(data: Record, id: int, lookup: Option<Record>, parse: string -> Option<int>): (o: Offer)
    ensures o.entregaId == id && !Nullish(o.numero) && o.hasRetorno == VUndef
    ensures Truthy(PushNumber(data)) ==> o.numero == PushNumber(data)
    ensures !Nullish(Field(data, "cliente_nome")) ==> o.clienteNome == Field(data, "cliente_nome")
  {
    var n := PushNumber(data);
    var code := if Truthy(n) || lookup.None? then Coalesce(data, CODE_KEYS)
                else OrElse(Coalesce(lookup.value, CODE_KEYS), Coalesce(data, CODE_KEYS));
    Offer(
      id,
      OfferNumber(data, id, lookup),
      OrElse(Field(data, "cliente_nome"), OrElse(Field(data, "cliente"), VNull)),
      OrElse(Field(data, "coleta_endereco"), OrElse(Field(data, "coleta"), VNull)),
      OrElse(Field(data, "entrega_endereco"), OrElse(Field(data, "entrega"), VNull)),
      OrElse(Field(data, "valor_total_motoboy"), OrElse(Field(data, "comissao"), VNull)),
      ExpiryOf(OrElse(Field(data, "expira_em"), VNull), parse),
      VUndef,
      code,
      OrElse(Field(data, "numero_publico"), VNull),
      OrElse(Field(data, "codigo_corrida"), VNull),
      OrElse(Field(data, "id_publico"), VNull))
  }

  /** `handlePushData(data)`. */
  function PushSpec(s: DeskState, data: Record, env: Env, lookup: Option<Record>): (r: DeskState)
    ensures !IsOfferPush(data) ==> r == s
    ensures r.requests == s.requests && r.alerts == s.alerts
    ensures |s.queue| <= |r.queue| <= |s.queue| + 1
  {
    if !IsOfferPush(data) then s
    else
      var idv := PushId(data);
      if idv.None? || idv.value == 0 then s
      else
        var o := IntakeOffer(data, idv.value, lookup, env.parse);
        if Duplicate(s.handled, Key(o), env.now) then s
        else
          var s1 := s.(handled := s.handled[Key(o) := env.now]);
          if NoUser(env.courier) then s1
          else if !StillYours(env.pushAnswer, env.courier.value, env.parse, env.now) then s1.(activeTab := Entregas)
          else EnqueueOrOpenSpec(s1, o, env)
  }

  // ---------------------------------------------------------------- properties

  /** An assignment that the opening render shows, or that is already
      queued, is never opened twice. */
  lemma OpenIgnoresTakenKey(s: DeskState, o: Offer, env: Env, seen: Option<Offer>)
    requires KeyTaken(seen, s.queue, Key(Stamped(o, env.now)))
    ensures OpenSpec(s, o, env, seen) == s
  {
  }

  /** An offer reaches the screen only with a courier and a passing guard, and
      it is the pushed offer with its expiry filled in. */
  lemma OpenShowsOnlyGuardedOffers(s: DeskState, o: Offer, env: Env, seen: Option<Offer>)
    ensures var r := OpenSpec(s, o, env, seen);
      r.current != s.current ==>
        !NoUser(env.courier) && StillYours(env.openAnswer, env.courier.value, env.parse, env.now)
        && (r.current.None? || r.current == Some(Stamped(o, env.now)))
    ensures OpenSpec(s, o, env, seen).queue == s.queue
  {
  }

  /** Opening never touches the queue, and a guard that fails sends the
      courier to the deliveries tab without showing anything. */
  lemma OpenRefusedGoesToDeliveries(s: DeskState, o: Offer, env: Env, seen: Option<Offer>)
    requires !KeyTaken(seen, s.queue, Key(Stamped(o, env.now))) && !NoUser(env.courier)
    requires !StillYours(env.openAnswer, env.courier.value, env.parse, env.now)
    ensures OpenSpec(s, o, env, seen) == s.(activeTab := Entregas)
  {
  }

  lemma TtlLeavesFifteenSeconds(now: int)
    ensures SecsLeft(At(now + ASSIGN_TTL_MS), now) == Some(15)
  {
  }

  /** A push without expiry that passes the guard is shown with a deadline
      exactly 15 s out, counting down from 15. */
  lemma OpenWithoutExpiryGetsTtl(s: DeskState, o: Offer, env: Env, seen: Option<Offer>)
    requires o.expiry == NoExpiry
    requires !KeyTaken(seen, s.queue, Key(Stamped(o, env.now))) && !NoUser(env.courier)
    requires StillYours(env.openAnswer, env.courier.value, env.parse, env.now)
    ensures OpenSpec(s, o, env, seen).current == Some(o.(expiry := At(env.now + ASSIGN_TTL_MS)))
    ensures OpenSpec(s, o, env, seen).seconds == Some(15)
  {
    TtlLeavesFifteenSeconds(env.now);
  }

  /** When the countdown reaches 0 the offer is closed without opening the
      next one: the queue stays as it was. */
  lemma ExpiryDoesNotAdvanceQueue(s: DeskState, now: int)
    requires s.countdown.Some? && SecsLeft(s.countdown.value.expiry, now) == Some(0)
    ensures TickSpec(s, now).current.None? && TickSpec(s, now).seconds.None?
    ensures TickSpec(s, now).queue == s.queue
    ensures TickSpec(s, now).countdown.None? && !TickSpec(s, now).alarmOn
  {
  }

  /** An offer opened on an empty screen is closed, when it expires, by a
      `fecharOferta` that saw no offer: its keys are not freed. */
  lemma FreshOfferExpiryKeepsKeys(s: DeskState, o: Offer, env: Env, later: int)
    requires s.current.None?
    requires var r := EnqueueOrOpenSpec(s, o, env);
      r.current.Some? && SecsLeft(r.current.value.expiry, later) == Some(0)
    ensures var r := EnqueueOrOpenSpec(s, o, env);
      TickSpec(r, later).current.None? && TickSpec(r, later).handled == r.handled
  {
    var r := EnqueueOrOpenSpec(s, o, env);
    assert r.closeSees.None? && r.countdown == r.current;
  }

  /** The offer opened from the queue after a close counts down towards a
      `fecharOferta` that sees the closed offer: when it expires, the keys
      freed are the closed delivery's, not its own. */
  lemma ChainedOfferExpiryFreesClosedKeys(s: DeskState, env: Env, later: int)
    requires s.current.Some?
    requires var r := CloseSpec(s, true, env, s.current);
      r.current.Some? && SecsLeft(r.current.value.expiry, later) == Some(0)
    ensures var r := CloseSpec(s, true, env, s.current);
      r.closeSees == s.current
      && TickSpec(r, later).current.None?
      && (s.current.value.entregaId != 0 ==>
            TickSpec(r, later).handled == KeysCleared(r.handled, s.current.value.entregaId))
      && (s.current.value.entregaId == 0 ==> TickSpec(r, later).handled == r.handled)
  {
    var r := CloseSpec(s, true, env, s.current);
    var s1 := CloseCoreSpec(s, s.current);
    assert r == OpenSpec(s1.(queue := s1.queue[1..]), s1.queue[0], env, s.current);
    assert r.countdown == r.current;
  }

  /** The `abrirOferta` that a close calls still sees the closed offer on
      screen, so a queued copy of that same assignment is taken from the
      queue and dropped. */
  lemma ChainedOpenDropsCopyOfClosed(s: DeskState, env: Env)
    requires s.current.Some? && |s.queue| > 0
    requires Key(Stamped(s.queue[0], env.now)) == Key(s.current.value)
    ensures var r := CloseSpec(s, true, env, s.current);
      r.current.None? && r.queue == s.queue[1..] && r.countdown.None? && !r.alarmOn
  {
    var s1 := CloseCoreSpec(s, s.current);
    OpenIgnoresTakenKey(s1.(queue := s1.queue[1..]), s1.queue[0], env, s.current);
  }

  /** Closing forgets the keys of the offer the closing render showed; with
      `openNext` it takes the queue head and tries to open it, without it
      the queue is kept. */
  lemma CloseProperties(s: DeskState, env: Env, seen: Option<Offer>)
    requires seen.Some? && seen.value.entregaId != 0
    ensures CloseSpec(s, false, env, seen).handled == KeysCleared(s.handled, seen.value.entregaId)
    ensures CloseSpec(s, false, env, seen).current.None? && CloseSpec(s, false, env, seen).queue == s.queue
    ensures |s.queue| > 0 ==> CloseSpec(s, true, env, seen).queue == s.queue[1..]
    ensures |s.queue| == 0 ==> CloseSpec(s, true, env, seen) == CloseSpec(s, false, env, seen)
  {
  }

  /** While an offer is on screen, a new one goes to the tail of the queue
      without a key check and the screen does not change. */
  lemma EnqueueWhileBusy(s: DeskState, o: Offer, env: Env)
    requires s.current.Some?
    ensures EnqueueOrOpenSpec(s, o, env).queue == s.queue + [o]
    ensures EnqueueOrOpenSpec(s, o, env).current == s.current
    ensures EnqueueOrOpenSpec(s, o, env).handled == s.handled
  {
  }

  /** A refused accept or reject leaves the offer on screen and the queue as
      they were, with the alert shown. */
  lemma FailedAnswerKeepsOffer(s: DeskState, env: Env)
    requires s.current.Some? && s.current.value.entregaId != 0
    ensures AcceptSpec(s, env, false).current == s.current && AcceptSpec(s, env, false).queue == s.queue
    ensures RejectSpec(s, env, false).current == s.current && RejectSpec(s, env, false).queue == s.queue
    ensures AcceptSpec(s, env, false).alerts == s.alerts + ["TEMPO EXPIRADO"]
    ensures AcceptSpec(s, env, false).handled == s.handled
  {
  }

  /** A successful accept or reject takes the next offer from the queue, and
      the accepted or rejected delivery's keys are gone unless the next
      offer is shown or queued. */
  lemma AnswerAdvancesQueue(s: DeskState, env: Env)
    requires s.current.Some? && s.current.value.entregaId != 0 && !NoUser(env.courier)
    ensures |s.queue| > 0 ==> AcceptSpec(s, env, true).queue == s.queue[1..]
    ensures |s.queue| > 0 ==> RejectSpec(s, env, true).queue == s.queue[1..]
    ensures |s.queue| == 0 ==> AcceptSpec(s, env, true).current.None? && RejectSpec(s, env, true).current.None?
    ensures AcceptSpec(s, env, true).activeTab == Entregas
    ensures AcceptSpec(s, env, true).requests == s.requests + [AcceptOffer(s.current.value.entregaId)]
  {
    var id := s.current.value.entregaId;
    var a := s.(alarmOn := false, requests := s.requests + [AcceptOffer(id)]);
    CloseNextOffer(a.(handled := KeysCleared(a.handled, id)), env, s.current);
    var r := s.(alarmOn := false, requests := s.requests + [RejectOffer(id)]);
    CloseNextOffer(r.(handled := KeysCleared(r.handled, id)), env, s.current);
  }

  /** `fecharOferta(true)` opens the head of the queue (or shows nothing when
      the queue is empty) and sends no request. */
  lemma CloseNextOffer(s: DeskState, env: Env, seen: Option<Offer>)
    ensures |s.queue| > 0 ==> CloseSpec(s, true, env, seen).queue == s.queue[1..]
    ensures |s.queue| == 0 ==> CloseSpec(s, true, env, seen).current.None?
    ensures CloseSpec(s, true, env, seen).requests == s.requests
  {
    var s1 := CloseCoreSpec(s, seen);
    assert s1.queue == s.queue && s1.requests == s.requests;
    if |s1.queue| > 0 {
      OpenShowsOnlyGuardedOffers(s1.(queue := s1.queue[1..]), s1.queue[0], env, seen);
    }
  }

  /** A push that repeats a key within 150 ms changes nothing. */
  lemma DuplicatePushIgnored(s: DeskState, data: Record, env: Env, lookup: Option<Record>)
    requires IsOfferPush(data) && PushId(data).Some? && PushId(data).value != 0
    requires Duplicate(s.handled, Key(IntakeOffer(data, PushId(data).value, lookup, env.parse)), env.now)
    ensures PushSpec(s, data, env, lookup) == s
  {
  }

  /** The push handler and `abrirOferta` each ask the backend: an offer the
      first answer still gives to the courier and the second no longer does
      is recorded as seen, not shown, and sends the courier to the
      deliveries tab. */
  lemma PushPassesOpenRefuses(s: DeskState, data: Record, env: Env, lookup: Option<Record>)
    requires IsOfferPush(data) && PushId(data).Some? && PushId(data).value != 0
    requires s.current.None? && !NoUser(env.courier)
    requires var o := IntakeOffer(data, PushId(data).value, lookup, env.parse);
      !Duplicate(s.handled, Key(o), env.now) && !KeyTaken(None, s.queue, Key(Stamped(o, env.now)))
    requires StillYours(env.pushAnswer, env.courier.value, env.parse, env.now)
    requires !StillYours(env.openAnswer, env.courier.value, env.parse, env.now)
    ensures var o := IntakeOffer(data, PushId(data).value, lookup, env.parse);
      PushSpec(s, data, env, lookup) == s.(handled := s.handled[Key(o) := env.now], activeTab := Entregas)
  {
    var o := IntakeOffer(data, PushId(data).value, lookup, env.parse);
    var s1 := s.(handled := s.handled[Key(o) := env.now]);
    OpenRefusedGoesToDeliveries(s1, o, env, None);
  }

  lemma CloseCoreInv(s: DeskState, seen: Option<Offer>)
    requires DeskInv(s)
    ensures DeskInv(CloseCoreSpec(s, seen))
  {
  }

  lemma {:induction false} OpenInv(s: DeskState, o: Offer, env: Env, seen: Option<Offer>)
    requires DeskInv(s)
    ensures DeskInv(OpenSpec(s, o, env, seen))
  {
    var o1 := Stamped(o, env.now);
    if !(KeyTaken(seen, s.queue, Key(o1)) || NoUser(env.courier))
      && StillYours(env.openAnswer, env.courier.value, env.parse, env.now) {
      var left := SecsLeft(o1.expiry, env.now);
      var s1 := s.(current := Some(o1), seconds := left, closeSees := seen);
      if left == Some(0) {
        CloseCoreInv(s1.(countdown := Some(o1)), seen);
      }
    }
  }

  lemma TickInv(s: DeskState, now: int)
    requires DeskInv(s)
    ensures DeskInv(TickSpec(s, now))
  {
    if s.countdown.Some? {
      CloseCoreInv(s.(seconds := SecsLeft(s.countdown.value.expiry, now)), s.closeSees);
    }
  }

  lemma CloseInv(s: DeskState, openNext: bool, env: Env, seen: Option<Offer>)
    requires DeskInv(s)
    ensures DeskInv(CloseSpec(s, openNext, env, seen))
  {
    CloseCoreInv(s, seen);
    var s1 := CloseCoreSpec(s, seen);
    if |s1.queue| > 0 {
      OpenInv(s1.(queue := s1.queue[1..]), s1.queue[0], env, seen);
    }
  }

  lemma EnqueueOrOpenInv(s: DeskState, o: Offer, env: Env)
    requires DeskInv(s)
    ensures DeskInv(EnqueueOrOpenSpec(s, o, env))
  {
    OpenInv(s, o, env, s.current);
  }

  lemma AcceptInv(s: DeskState, env: Env, ok: bool)
    requires DeskInv(s)
    ensures DeskInv(AcceptSpec(s, env, ok))
  {
    if s.current.Some? {
      var id := s.current.value.entregaId;
      var s2 := if NoUser(env.courier) then s.(alarmOn := false) else s.(alarmOn := false, requests := s.requests + [AcceptOffer(id)]);
      CloseInv(s2.(handled := KeysCleared(s2.handled, id)), true, env, s.current);
    }
  }

  lemma RejectInv(s: DeskState, env: Env, ok: bool)
    requires DeskInv(s)
    ensures DeskInv(RejectSpec(s, env, ok))
  {
    if s.current.Some? {
      var id := s.current.value.entregaId;
      var s2 := if NoUser(env.courier) then s.(alarmOn := false) else s.(alarmOn := false, requests := s.requests + [RejectOffer(id)]);
      CloseInv(s2.(handled := KeysCleared(s2.handled, id)), true, env, s.current);
    }
  }

  lemma PushInv(s: DeskState, data: Record, env: Env, lookup: Option<Record>)
    requires DeskInv(s)
    ensures DeskInv(PushSpec(s, data, env, lookup))
  {
    if IsOfferPush(data) && PushId(data).Some? && PushId(data).value != 0 {
      var po := IntakeOffer(data, PushId(data).value, lookup, env.parse);
      var s1 := s.(handled := s.handled[Key(po) := env.now]);
      assert DeskInv(s1) && DeskInv(s1.(activeTab := Entregas));
      if !Duplicate(s.handled, Key(po), env.now) && !NoUser(env.courier)
        && StillYours(env.pushAnswer, env.courier.value, env.parse, env.now) {
        EnqueueOrOpenInv(s1, po, env);
      }
    }
  }

  // ---------------------------------------------------------------- the provisional entry

  /** The entry `aceitarOferta` adds right after the backend confirms. It
      carries `has_retorno: false` until the follow-up fetch corrects it. */
  function Provisional(o: Offer): (d: Delivery)
    ensures d.entregaId == o.entregaId && d.numero == AcceptedNumber(o)
    ensures d.hasRetorno == VBool(false)
    ensures !Nullish(o.clienteNome) ==> d.clienteNome == o.clienteNome
  {
    Delivery(o.entregaId, AcceptedNumber(o), OrElse(o.clienteNome, VNull), OrElse(o.coletaEndereco, VNull),
      OrElse(o.entregaEndereco, VNull), OrElse(o.valorTotalMotoboy, VNull), VBool(false))
  }

  /** The sync effect that runs once the provisional entry is on the board
      copies its `has_retorno: false` over the flag the accept had just set:
      until the follow-up fetch answers, a return leg known from the offer
      reads as absent. */
  lemma ProvisionalResetsFlag(m: map<int, bool>, list: seq<Delivery>, o: Offer, immediateHas: bool)
    requires !HasId(list, o.entregaId)
    ensures HomeBoard.Synced(m[o.entregaId := immediateHas], WithAdded(list, Provisional(o)))[o.entregaId] == false
  {
    var d := Provisional(o);
    assert WithAdded(list, d) == [d] + list;
    assert ([d] + list)[1..] == list;
    HomeBoard.SyncedDefinedFirstWins(m[o.entregaId := immediateHas], [d] + list);
  }

  /** The public number of the delivery record fetched after an accept. */
  function FreshNumber(f: Record, id: int): (r: Value)
    ensures !Nullish(r)
  {
    OrElse(Coalesce(f, CODE_KEYS + ["numero"]), VNum(id))
  }

  /** The board after the fetched record is merged into the accepted entry. */
  function Hydrated(list: seq<Delivery>, id: int, f: Record): (r: seq<Delivery>)
    ensures |r| == |list|
    ensures forall i :: 0 <= i < |list| && list[i].entregaId != id ==> r[i] == list[i]
    ensures forall i :: 0 <= i < |list| && list[i].entregaId == id ==>
      r[i].entregaId == id && r[i].numero == FreshNumber(f, id)
      && r[i].hasRetorno == Field(f, "has_retorno")
      && r[i].clienteNome == list[i].clienteNome
  {
    seq(|list|, i requires 0 <= i < |list| =>
      if list[i].entregaId == id
      then list[i].(numero := FreshNumber(f, id),
                    valorTotalMotoboy := OrElse(Field(f, "valor_total_motoboy"), list[i].valorTotalMotoboy),
                    hasRetorno := Field(f, "has_retorno"))
      else list[i])
  }

  // ---------------------------------------------------------------- the desk

  class Desk {
    var handled: map<string, int>
    var current: Option<Offer>
    var queue: seq<Offer>
    var seconds: Option<int>
    var countdown: Option<Offer>
    var closeSees: Option<Offer>
    var alarmOn: bool
    var activeTab: Tab
    var alerts: seq<string>
    var requests: seq<Request>

    function State(): DeskState
      reads this
    {
      DeskState(handled, current, queue, seconds, countdown, closeSees, alarmOn, activeTab, alerts, requests)
    }

    constructor ()
      ensures State() == DeskState(map[], None, [], None, None, None, false, Status, [], [])
      ensures DeskInv(State())
    {
      handled := map[];
      current := None;
      queue := [];
      seconds := None;
      countdown := None;
      closeSees := None;
      alarmOn := false;
      activeTab := Status;
      alerts := [];
      requests := [];
    }

    /** `alreadyHandledKey(key)`. */
    method AlreadyHandled(key: string, now: int) returns (dup: bool)
      modifies this
      ensures dup == Duplicate(old(handled), key, now)
      ensures State() == old(State()).(handled := Seen(old(handled), key, now))
    {
      var last := if key in handled then handled[key] else 0;
      if now - last < SEEN_WINDOW_MS {
        return true;
      }
      handled := handled[key := now];
      return false;
    }

    /** `clearAllKeysFor(id)`: walk a snapshot of the keys, deleting those
        with the id's prefix. */
    method ClearAllKeysFor(id: int)
      modifies this
      ensures State() == old(State()).(handled := KeysCleared(old(handled), id))
    {
      var prefix := IdPrefix(id);
      var ks := handled.Keys;
      while ks != {}
        invariant ks <= old(handled).Keys
        invariant handled == map k | k in old(handled) && (k in ks || !StartsWith(k, prefix)) :: old(handled)[k]
        invariant State() == old(State()).(handled := handled)
        decreases ks
      {
        var k :| k in ks;
        if StartsWith(k, prefix) {
          handled := handled - {k};
        }
        ks := ks - {k};
      }
    }

    /** `fecharOferta` before the queue step, for a render that showed
        `seen`. */
    method CloseCore(seen: Option<Offer>)
      modifies this
      ensures State() == CloseCoreSpec(old(State()), seen)
    {
      countdown := None;
      alarmOn := false;
      if seen.Some? && seen.value.entregaId != 0 {
        ClearAllKeysFor(seen.value.entregaId);
      }
      current := None;
      seconds := None;
    }

    /** `abrirOferta(o)`, as created by a render that showed `seen`. */
    method Open(o: Offer, env: Env, seen: Option<Offer>)
      modifies this
      ensures State() == OpenSpec(old(State()), o, env, seen)
    {
      var o1 := o;
      if o.expiry.NoExpiry? {
        o1 := o.(expiry := At(env.now + ASSIGN_TTL_MS));
      }
      assert o1 == Stamped(o, env.now);
      var k := Key(o1);
      if seen.Some? && Key(seen.value) == k {
        assert KeyTaken(seen, queue, k);
        return;
      }
      if exists i :: 0 <= i < |queue| && Key(queue[i]) == k {
        assert KeyTaken(seen, queue, k);
        return;
      }
      assert !KeyTaken(seen, queue, k);
      if NoUser(env.courier) {
        return;
      }
      if !StillYours(env.openAnswer, env.courier.value, env.parse, env.now) {
        activeTab := Entregas;
        return;
      }
      Show(o1, env.now, seen);
    }

    /** The offer goes on screen with its countdown and alarm; the countdown
        closes through the `fecharOferta` of the render that showed
        `seen`. */
    method Show(o1: Offer, now: int, seen: Option<Offer>)
      modifies this
      ensures State() == ShowSpec(old(State()), o1, now, seen)
    {
      current := Some(o1);
      var left := SecsLeft(o1.expiry, now);
      seconds := left;
      closeSees := seen;
      if left == Some(0) {
        CloseCore(seen);
      }
      countdown := Some(o1);
      alarmOn := true;
    }

    /** `fecharOferta(abrirProxima)`, as created by a render that showed
        `seen`. */
    method Close(openNext: bool, env: Env, seen: Option<Offer>)
      modifies this
      ensures State() == CloseSpec(old(State()), openNext, env, seen)
    {
      CloseCore(seen);
      if openNext && |queue| > 0 {
        var next := queue[0];
        queue := queue[1..];
        Open(next, env, seen);
      }
    }

    /** One run of the countdown interval at time `now`. */
    method Tick(now: int)
      modifies this
      ensures State() == TickSpec(old(State()), now)
    {
      if countdown.None? {
        return;
      }
      var left := SecsLeft(countdown.value.expiry, now);
      seconds := left;
      if left == Some(0) {
        CloseCore(closeSees);
      }
    }

    /** `enfileirarOuAbrir(o)`. */
    method EnqueueOrOpen(o: Offer, env: Env)
      modifies this
      ensures State() == EnqueueOrOpenSpec(old(State()), o, env)
    {
      if current.None? {
        Open(o, env, current);
      } else {
        queue := queue + [o];
      }
    }

    /** `handlePushData(data)`; `lookup` is the record fetched by id when the
        push carries no public number. */
    method HandlePush(data: Record, env: Env, lookup: Option<Record>)
      modifies this
      ensures State() == PushSpec(old(State()), data, env, lookup)
    {
      if !IsOfferPush(data) {
        return;
      }
      var idv := PushId(data);
      if idv.None? || idv.value == 0 {
        return;
      }
      var o := IntakeOffer(data, idv.value, lookup, env.parse);
      var dup := AlreadyHandled(Key(o), env.now);
      if dup {
        return;
      }
      if NoUser(env.courier) {
        return;
      }
      if !StillYours(env.pushAnswer, env.courier.value, env.parse, env.now) {
        activeTab := Entregas;
        return;
      }
      EnqueueOrOpen(o, env);
    }

    /** The store and has-return writes of a confirmed accept: the flag read
        from the offer, the provisional entry, and, when the follow-up fetch
        answered, the fetched flag and the hydrated entry. */
    method RecordAccepted(o: Offer, immediateHas: bool, fetched: Option<Record>, board: HomeBoard.Board, store: Store)
      requires store.Valid()
      modifies board, store
      ensures store.Valid() && store.listeners == old(store.listeners)
      ensures board.stageById == old(board.stageById) && board.longPressOk == old(board.longPressOk)
      ensures fetched.None? ==>
        store.list == WithAdded(old(store.list), Provisional(o))
        && board.hasRetornoById == old(board.hasRetornoById)[o.entregaId := immediateHas]
      ensures fetched.Some? ==>
        store.list == Hydrated(WithAdded(old(store.list), Provisional(o)), o.entregaId, fetched.value)
        && board.hasRetornoById == old(board.hasRetornoById)[o.entregaId := CoerceBoolStrict(Field(fetched.value, "has_retorno"))]
    {
      var id := o.entregaId;
      board.hasRetornoById := board.hasRetornoById[id := immediateHas];
      store.Add(Provisional(o));
      if fetched.Some? {
        board.hasRetornoById := board.hasRetornoById[id := CoerceBoolStrict(Field(fetched.value, "has_retorno"))];
        var list := store.Get();
        store.SetAll(Hydrated(list, id, fetched.value));
      }
    }

    /** `aceitarOferta`. `ok` is the backend's answer, `immediateHas` the
        has-return reading of the offer itself, `fetched` the record fetched
        after the accept (`None` when the fetch failed). */
    method Accept(env: Env, ok: bool, immediateHas: bool, fetched: Option<Record>, board: HomeBoard.Board, store: Store)
      requires store.Valid()
      modifies this, board, store
      ensures State() == AcceptSpec(old(State()), env, ok)
      ensures store.Valid() && store.listeners == old(store.listeners)
      ensures board.stageById == old(board.stageById) && board.longPressOk == old(board.longPressOk)
      ensures old(current).None? || old(current).value.entregaId == 0 || NoUser(env.courier) || !ok ==>
        store.list == old(store.list) && store.delivered == old(store.delivered)
        && board.hasRetornoById == old(board.hasRetornoById)
      ensures old(current).Some? && old(current).value.entregaId != 0 && !NoUser(env.courier) && ok ==>
        var o := old(current).value;
        (fetched.None? ==>
          store.list == WithAdded(old(store.list), Provisional(o))
          && board.hasRetornoById == old(board.hasRetornoById)[o.entregaId := immediateHas])
        && (fetched.Some? ==>
          store.list == Hydrated(WithAdded(old(store.list), Provisional(o)), o.entregaId, fetched.value)
          && board.hasRetornoById == old(board.hasRetornoById)[o.entregaId := CoerceBoolStrict(Field(fetched.value, "has_retorno"))])
    {
      if current.None? {
        return;
      }
      alarmOn := false;
      var o := current.value;
      var id := o.entregaId;
      if id == 0 {
        alerts := alerts + ["Erro"];
        return;
      }
      if !NoUser(env.courier) {
        requests := requests + [AcceptOffer(id)];
      }
      if NoUser(env.courier) || !ok {
        alerts := alerts + ["TEMPO EXPIRADO"];
        return;
      }
      RecordAccepted(o, immediateHas, fetched, board, store);
      ClearAllKeysFor(id);
      Close(true, env, Some(o));
      activeTab := Entregas;
    }

    /** `rejeitarOferta`. */
    method Reject(env: Env, ok: bool)
      modifies this
      ensures State() == RejectSpec(old(State()), env, ok)
    {
      if current.None? {
        return;
      }
      alarmOn := false;
      var o := current.value;
      var id := o.entregaId;
      if id == 0 {
        alerts := alerts + ["Erro"];
        return;
      }
      if !NoUser(env.courier) {
        requests := requests + [RejectOffer(id)];
      }
      if NoUser(env.courier) || !ok {
        alerts := alerts + ["TEMPO EXPIRADO"];
        return;
      }
      ClearAllKeysFor(id);
      Close(true, env, Some(o));
    }
  }
}
