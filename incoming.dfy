/** The full-screen offer (src/screens/IncomingDelivery.tsx): a 15 second
    countdown, a guard that closes the screen when the offer is no longer the
    courier's, and accept/reject buttons of which at most one ever reaches
    the backend. */
module Incoming {
  import opened Json
  import opened AcceptedDeliveries

  /** The countdown's first value. */
  const START_SECONDS: int := 15

  /** What `stopTimer` leaves in the countdown: a value the expiry effect
      never matches. */
  const STOPPED: int := -1

  /** The answers sent to the backend. */
  datatype Post = AcceptPost(entregaId: int, motoboyId: int) | RejectPost(entregaId: int, motoboyId: int)

  /** Where the screen navigates. */
  datatype Nav = Back | ToHome

  /** The screen's state: the countdown, the responded and busy flags, and
      what it has sent and where it has navigated so far. */
  datatype State = State(seconds: int, responded: bool, busy: bool, posts: seq<Post>, navs: seq<Nav>)

  function Initial(): State
  {
    State(START_SECONDS, false, false, [], [])
  }

  /** The entry `onAccept` adds to the accepted list: the number shown is
      the ride code only, and every missing field is stored as null. */
  function AcceptedEntry(id: int, offer: Record): (d: Delivery)
    ensures d.entregaId == id
    ensures Nullish(Field(offer, "codigo_corrida")) <==> d.numero == VNull
    ensures !Nullish(Field(offer, "codigo_corrida")) ==> d.numero == Field(offer, "codigo_corrida")
  {
    Delivery(id,
      OrElse(Field(offer, "codigo_corrida"), VNull),
      OrElse(Field(offer, "cliente_nome"), VNull),
      OrElse(Field(offer, "coleta_endereco"), VNull),
      OrElse(Field(offer, "entrega_endereco"), VNull),
      OrElse(Field(offer, "valor_total_motoboy"), VNull),
      VUndef)
  }

  // ---------------------------------------------------------------- transitions

  /** Whether a button press is let through. */
  predicate MayRespond(s: State)
  {
    !s.busy && !s.responded
  }

  /** `onAccept`; `ok` is whether the accept request succeeded. */
  function AcceptSpec(s: State, id: int, uid: int, ok: bool): State
  {
    if !MayRespond(s) then s
    else State(STOPPED, true, false, s.posts + [AcceptPost(id, uid)], s.navs + [if ok then ToHome else Back])
  }

  /** `onReject`: the request's outcome is ignored and the screen closes. */
  function RejectSpec(s: State, id: int, uid: int): State
  {
    if !MayRespond(s) then s
    else State(STOPPED, true, false, s.posts + [RejectPost(id, uid)], s.navs + [Back])
  }

  /** The expiry effect: at zero, a reject unless someone answered. */
  function ExpireSpec(s: State, id: int, uid: int): State
  {
    if s.seconds == 0 && !s.responded then RejectSpec(s, id, uid) else s
  }

  /** The mount-time guard: the screen closes when the offer is no longer
      the courier's or the check failed. */
  function GuardSpec(s: State, stillYours: bool): State
  {
    if stillYours then s else s.(navs := s.navs + [Back])
  }

  /** One second of the countdown while it runs. */
  function TickSpec(s: State): State
  {
    if s.seconds > 0 then s.(seconds := s.seconds - 1) else s
  }

  // ---------------------------------------------------------------- runs

  datatype Event = Accept(ok: bool) | Reject | Expire | Guard(stillYours: bool) | Tick

  function Step(s: State, e: Event, id: int, uid: int): State
  {
    match e
    case Accept(ok) => AcceptSpec(s, id, uid, ok)
    case Reject => RejectSpec(s, id, uid)
    case Expire => ExpireSpec(s, id, uid)
    case Guard(y) => GuardSpec(s, y)
    case Tick => TickSpec(s)
  }

  function Run(s: State, es: seq<Event>, id: int, uid: int): State
    decreases |es|
  {
    if es == [] then s else Run(Step(s, es[0], id, uid), es[1..], id, uid)
  }

  /** What every reachable state satisfies: nothing is busy between
      handlers, at most one answer was sent and only once responded, and a
      responded screen's countdown is stopped. */
  predicate Inv(s: State)
  {
    !s.busy
    && (s.responded <==> |s.posts| == 1)
    && |s.posts| <= 1
    && (s.responded ==> s.seconds == STOPPED)
    && (!s.responded ==> 0 <= s.seconds <= START_SECONDS)
  }

  lemma {:induction false} RunKeepsInv(s: State, es: seq<Event>, id: int, uid: int)
    requires Inv(s)
    ensures Inv(Run(s, es, id, uid))
    ensures |Run(s, es, id, uid).posts| >= |s.posts|
    ensures Run(s, es, id, uid).posts[..|s.posts|] == s.posts
    decreases |es|
  {
    if es != [] {
      var t := Step(s, es[0], id, uid);
      assert Inv(t) && t.posts[..|s.posts|] == s.posts;
      RunKeepsInv(t, es[1..], id, uid);
    }
  }

  /** However the buttons, the guard, the countdown and the expiry effect
      interleave, at most one answer reaches the backend, and once one has,
      the countdown stays stopped. */
  lemma AtMostOneAnswer(es: seq<Event>, id: int, uid: int)
    ensures |Run(Initial(), es, id, uid).posts| <= 1
    ensures Run(Initial(), es, id, uid).responded ==> Run(Initial(), es, id, uid).seconds == STOPPED
  {
    RunKeepsInv(Initial(), es, id, uid);
  }

  /** The expiry effect sends a reject exactly when the countdown is at zero
      and nobody answered; a stopped countdown never expires. */
  lemma ExpiryOnlyWithoutAnswer(s: State, id: int, uid: int)
    requires Inv(s)
    ensures ExpireSpec(s, id, uid) != s <==> s.seconds == 0 && !s.responded
    ensures ExpireSpec(s, id, uid) != s ==> ExpireSpec(s, id, uid).posts == s.posts + [RejectPost(id, uid)]
    ensures s.responded ==> ExpireSpec(s, id, uid) == s
  {
  }

  /** A second press after an answer changes nothing. */
  lemma SecondPressIgnored(s: State, id: int, uid: int, ok: bool)
    requires s.responded
    ensures AcceptSpec(s, id, uid, ok) == s && RejectSpec(s, id, uid) == s
  {
  }

  // ---------------------------------------------------------------- finding

  /** As written, nothing starts the countdown's interval, so a screen
      nobody touches keeps its first value and the expiry effect never
      fires: left alone, the screen never rejects the offer. */
  lemma {:induction false} ExpiryNeverFiresAsWritten(s: State, es: seq<Event>, id: int, uid: int)
    requires !s.responded && s.seconds == START_SECONDS
    requires forall k :: 0 <= k < |es| ==> es[k].Expire? || es[k].Guard?
    ensures Run(s, es, id, uid).posts == s.posts
    ensures !Run(s, es, id, uid).responded
    decreases |es|
  {
    if es != [] {
      var t := Step(s, es[0], id, uid);
      assert t.posts == s.posts && !t.responded && t.seconds == START_SECONDS;
      assert forall k :: 0 <= k < |es[1..]| ==> es[1..][k] == es[k + 1];
      ExpiryNeverFiresAsWritten(t, es[1..], id, uid);
    }
  }

  function Ticks(n: nat): (es: seq<Event>)
    ensures |es| == n && forall i :: 0 <= i < n ==> es[i] == Tick
  {
    if n == 0 then [] else [Tick] + Ticks(n - 1)
  }

  lemma {:induction false} TicksCountDown(s: State, n: nat, id: int, uid: int)
    requires !s.responded && n <= s.seconds
    ensures Run(s, Ticks(n), id, uid) == s.(seconds := s.seconds - n)
    decreases n
  {
    if n > 0 {
      assert Ticks(n)[1..] == Ticks(n - 1);
      TicksCountDown(TickSpec(s), n - 1, id, uid);
    }
  }

  /** With the countdown ticking once a second, a screen nobody answers
      rejects the offer when it reaches zero. */
  lemma ExpiryFiresWithCountdown(id: int, uid: int)
    ensures Run(Initial(), Ticks(START_SECONDS) + [Expire], id, uid).posts == [RejectPost(id, uid)]
  {
    TicksCountDown(Initial(), START_SECONDS, id, uid);
    RunAppend(Initial(), Ticks(START_SECONDS), [Expire], id, uid);
  }

  lemma {:induction false} RunAppend(s: State, a: seq<Event>, b: seq<Event>, id: int, uid: int)
    ensures Run(s, a + b, id, uid) == Run(Run(s, a, id, uid), b, id, uid)
    decreases |a|
  {
    if a == [] {
      assert a + b == b;
    } else {
      assert (a + b)[0] == a[0];
      assert (a + b)[1..] == a[1..] + b;
      RunAppend(Step(s, a[0], id, uid), a[1..], b, id, uid);
    }
  }

  // ---------------------------------------------------------------- the screen

  class Screen {
    const entregaId: int
    const offer: Record
    const motoboyId: int
    var seconds: int
    var responded: bool
    var busy: bool
    var posts: seq<Post>
    var navs: seq<Nav>

    function Current(): State
      reads this
    {
      State(seconds, responded, busy, posts, navs)
    }

    constructor (id: int, offer0: Record, uid: int)
      ensures Current() == Initial()
      ensures entregaId == id && offer == offer0 && motoboyId == uid
    {
      entregaId := id;
      offer := offer0;
      motoboyId := uid;
      seconds := START_SECONDS;
      responded := false;
      busy := false;
      posts := [];
      navs := [];
    }

    /** `stopTimer`. */
    method StopTimer()
      modifies this
      ensures Current() == old(Current()).(seconds := STOPPED)
    {
      seconds := STOPPED;
    }

    /** The mount effect running `checkOfferStillYours`. */
    method CheckStillYours(stillYours: bool)
      modifies this
      ensures Current() == GuardSpec(old(Current()), stillYours)
    {
      if !stillYours {
        navs := navs + [Back];
      }
    }

    /** One second of the countdown interval the screen declares. */
    method Tick()
      modifies this
      ensures Current() == TickSpec(old(Current()))
    {
      if seconds > 0 {
        seconds := seconds - 1;
      }
    }

    /** `onAccept`; a successful accept adds the delivery to the store. */
    method OnAccept(ok: bool, store: Store)
      requires store.Valid()
      modifies this, store
      ensures store.Valid()
      ensures Current() == AcceptSpec(old(Current()), entregaId, motoboyId, ok)
      ensures MayRespond(old(Current())) && ok ==> store.list == WithAdded(old(store.list), AcceptedEntry(entregaId, offer))
      ensures !(MayRespond(old(Current())) && ok) ==> store.list == old(store.list) && store.delivered == old(store.delivered)
    {
      if busy || responded {
        return;
      }
      responded := true;
      StopTimer();
      busy := true;
      posts := posts + [AcceptPost(entregaId, motoboyId)];
      if ok {
        store.Add(AcceptedEntry(entregaId, offer));
        navs := navs + [ToHome];
      } else {
        navs := navs + [Back];
      }
      busy := false;
    }

    /** `onReject(fromExpire)`: both kinds close the screen the same way. */
    method OnReject()
      modifies this
      ensures Current() == RejectSpec(old(Current()), entregaId, motoboyId)
    {
      if busy || responded {
        return;
      }
      responded := true;
      StopTimer();
      busy := true;
      posts := posts + [RejectPost(entregaId, motoboyId)];
      navs := navs + [Back];
      busy := false;
    }

    /** The effect watching the countdown. */
    method OnSecondsChanged()
      modifies this
      ensures Current() == ExpireSpec(old(Current()), entregaId, motoboyId)
    {
      if seconds == 0 && !responded {
        OnReject();
      }
    }
  }
}
