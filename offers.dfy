/** Offer identity, countdown and the "still assigned to me" guard
    (src/utils/offerGuards.ts and its copy in src/screens/HomeScreen.tsx). */
module Offers {
  import opened Text
  import opened Json

  /** Local assignment TTL used when a push carries no expiry (15 s). */
  const ASSIGN_TTL_MS: int := 15000

  /** Two events for the same offer key closer than this are one event. */
  const SEEN_WINDOW_MS: int := 150

  /** A date-valued field after `Date.parse`: absent or empty, present but
      unparsable (NaN), or an instant in epoch milliseconds. */
  datatype Expiry = NoExpiry | Unparsable | At(ms: int)

  /** `Date.parse` itself is not modelled: the caller passes its verdict on a
      string, `None` standing for NaN. */
  function ExpiryOf(v: Value, parse: string -> Option<int>): (e: Expiry)
    ensures !Truthy(v) ==> e == NoExpiry
  {
    if !Truthy(v) then NoExpiry
    else match parse(ToStr(v))
      case None => Unparsable
      case Some(t) => At(t)
  }

  // ---------------------------------------------------------------- countdown

  /** `secsLeft` / `secsLeftFromISO`: whole seconds until the expiry, never
      negative; null when there is no usable expiry. */
  function SecsLeft(e: Expiry, now: int): (r: Option<int>)
    ensures r.None? <==> !e.At?
    ensures r.Some? ==> r.value >= 0
    ensures e.At? && e.ms <= now ==> r == Some(0)
    ensures e.At? && e.ms >= now ==> r.Some? && r.value * 1000 <= e.ms - now < r.value * 1000 + 1000
  {
    match e
    case At(t) =>
      var diff := (t - now) / 1000;
      Some(if diff < 0 then 0 else diff)
    case _ => None
  }

  lemma DivMonotone(a: int, b: int)
    requires a <= b
    ensures a / 1000 <= b / 1000
  {
    var q, r := a / 1000, b / 1000;
    assert q * 1000 <= a;
    assert b < r * 1000 + 1000;
  }

  /** The countdown never goes up as time passes. */
  lemma SecsLeftNonIncreasing(e: Expiry, now1: int, now2: int)
    requires now1 <= now2
    ensures SecsLeft(e, now1).Some? <==> SecsLeft(e, now2).Some?
    ensures SecsLeft(e, now2).Some? ==> SecsLeft(e, now2).value <= SecsLeft(e, now1).value
  {
    if e.At? {
      DivMonotone(e.ms - now2, e.ms - now1);
    }
  }

  /** A parsed deadline still leaves a positive count exactly while at least a
      full second remains. */
  lemma SecsLeftPositiveIff(t: int, now: int)
    ensures SecsLeft(At(t), now).value > 0 <==> t - now >= 1000
  {
    if t - now >= 1000 {
      DivMonotone(1000, t - now);
    }
  }

  // ---------------------------------------------------------------- identity key

  /** The expiry part of an offer key: `String(Date.parse(e) || 0)`, or "noexp". */
  function Stamp(e: Expiry): string
  {
    match e
    case NoExpiry => "noexp"
    case Unparsable => "0"
    case At(ms) => IntToString(ms)
  }

  /** `offerKey`: "<id>:<stamp>". */
  function OfferKey(id: int, e: Expiry): (k: string)
    ensures StartsWith(k, IdPrefix(id))
  {
    var k := IntToString(id) + ":" + Stamp(e);
    assert k[..|IdPrefix(id)|] == IdPrefix(id);
    k
  }

  /** The prefix `clearAllKeysFor(id)` looks for. */
  function IdPrefix(id: int): string
  {
    IntToString(id) + ":"
  }

  /** A key starts with "<id>:" exactly when it was built for that id: decimal
      renderings never contain ':', so the first ':' ends the id. */
  lemma {:induction false} KeyHasIdPrefixIff(id: int, id2: int, e: Expiry)
    ensures StartsWith(OfferKey(id2, e), IdPrefix(id)) <==> id == id2
  {
    var a, b := IntToString(id), IntToString(id2);
    var k := OfferKey(id2, e);
    assert k == b + ":" + Stamp(e);
    assert k[|b|] == ':';
    if StartsWith(k, IdPrefix(id)) {
      assert k[..|a| + 1] == a + ":";
      assert k[|a|] == ':';
      assert forall i :: 0 <= i < |b| ==> k[i] == b[i];
      assert forall i :: 0 <= i < |a| ==> k[i] == a[i];
      assert |a| == |b|;
      assert a == k[..|a|] == b;
      IntToStringInjective(id, id2);
    }
  }

  /** Different deliveries never share a key, whatever their expiries. */
  lemma DistinctIdsDistinctKeys(id1: int, e1: Expiry, id2: int, e2: Expiry)
    requires id1 != id2
    ensures OfferKey(id1, e1) != OfferKey(id2, e2)
  {
    KeyHasIdPrefixIff(id1, id1, e1);
    KeyHasIdPrefixIff(id1, id2, e2);
  }

  /** For one delivery the key tells expiries apart by their stamp only: an
      unparsable expiry and an expiry at epoch 0 share the key "<id>:0". */
  lemma SameIdKeyIff(id: int, e1: Expiry, e2: Expiry)
    ensures OfferKey(id, e1) == OfferKey(id, e2) <==> Stamp(e1) == Stamp(e2)
  {
    var p := IdPrefix(id);
    if OfferKey(id, e1) == OfferKey(id, e2) {
      assert OfferKey(id, e1)[|p|..] == Stamp(e1);
      assert OfferKey(id, e2)[|p|..] == Stamp(e2);
    }
  }

  // ---------------------------------------------------------------- assignment guard

  /** The courier as the guard sees it: id and optional display name. */
  datatype Courier = Courier(id: int, nome: Option<string>)

  const NAME_KEYS: seq<string> := ["atribuido_motoboy", "motoboy_nome", "motoboy", "assigned_to_name"]
  const ID_KEYS: seq<string> := ["motoboy_id", "assigned_to_id", "atribuido_motoboy_id"]
  const STATUS_KEYS: seq<string> := ["status", "state"]
  const DEADLINE_KEYS: seq<string> := ["assign_deadline_at", "expira_em", "deadline"]

  /** `(data.status ?? data.state ?? "").toString()`. */
  function StatusText(rec: Record): string
  {
    var v := Coalesce(rec, STATUS_KEYS);
    if Nullish(v) then "" else ToStr(v)
  }

  /** `/^(novo|pendente|await|waiting)$/i`. */
  predicate IsNovo(status: string)
  {
    Lower(status) in {"novo", "pendente", "await", "waiting"}
  }

  /** `typeof atribId === "number" && atribId === motoboy.id`. */
  predicate IdOk(rec: Record, courierId: int)
  {
    Coalesce(rec, ID_KEYS) == VNum(courierId)
  }

  /** The name check, which the source only consults when the id did not match. */
  predicate NameOk(rec: Record, c: Courier)
  {
    var atrib := Coalesce(rec, NAME_KEYS);
    !IdOk(rec, c.id)
    && Truthy(atrib)
    && c.nome.Some? && c.nome.value != ""
    && atrib.VStr?
    && Lower(Trim(atrib.s)) == Lower(Trim(c.nome.value))
  }

  /** `dentroDoTTL`: no usable deadline counts as inside the TTL. */
  predicate WithinTtl(rec: Record, parse: string -> Option<int>, now: int)
  {
    var e := ExpiryOf(Coalesce(rec, DEADLINE_KEYS), parse);
    if e.NoExpiry? then true
    else
      var left := SecsLeft(e, now);
      if left.None? then true else left.value > 0
  }

  /** `checkOfferStillYours`: `data` is the record the first answering route
      returned, `None` when neither route answered or the request threw. */
  predicate StillYours(data: Option<Record>, c: Courier, parse: string -> Option<int>, now: int)
    ensures StillYours(data, c, parse, now) ==>
      data.Some? && IsNovo(StatusText(data.value)) && WithinTtl(data.value, parse, now)
  {
    match data
    case None => false
    case Some(rec) =>
      IsNovo(StatusText(rec)) && (IdOk(rec, c.id) || NameOk(rec, c)) && WithinTtl(rec, parse, now)
  }

  /** A name match as a reader would state it: a non-empty string on both
      sides, equal after trimming and lower-casing. */
  predicate SameName(atrib: Value, nome: Option<string>)
  {
    atrib.VStr? && atrib.s != "" && nome.Some? && nome.value != ""
    && Lower(Trim(atrib.s)) == Lower(Trim(nome.value))
  }

  /** The name is only a fallback, so "id or name" is just "id, or else the
      same name". */
  lemma IdOrNameIff(rec: Record, c: Courier)
    ensures IdOk(rec, c.id) || NameOk(rec, c) <==>
      Coalesce(rec, ID_KEYS) == VNum(c.id) || SameName(Coalesce(rec, NAME_KEYS), c.nome)
  {
  }

  /** Inside the TTL exactly when a parsed deadline is at least a second away. */
  lemma WithinTtlIff(rec: Record, parse: string -> Option<int>, now: int)
    ensures WithinTtl(rec, parse, now) <==>
      (var e := ExpiryOf(Coalesce(rec, DEADLINE_KEYS), parse); e.At? ==> e.ms - now >= 1000)
  {
    var e := ExpiryOf(Coalesce(rec, DEADLINE_KEYS), parse);
    if e.At? {
      SecsLeftPositiveIff(e.ms, now);
    }
  }

  /** The guard as a reader would state it: a record came back, its status is
      novo/pendente/await/waiting in any letter case, the courier is named by
      id (a number equal to theirs) or else by the same non-empty name, and a
      parsed deadline is at least a second away. */
  lemma StillYoursIff(data: Option<Record>, c: Courier, parse: string -> Option<int>, now: int)
    ensures StillYours(data, c, parse, now) <==>
      data.Some?
      && Lower(StatusText(data.value)) in {"novo", "pendente", "await", "waiting"}
      && (Coalesce(data.value, ID_KEYS) == VNum(c.id) || SameName(Coalesce(data.value, NAME_KEYS), c.nome))
      && (var e := ExpiryOf(Coalesce(data.value, DEADLINE_KEYS), parse); e.At? ==> e.ms - now >= 1000)
  {
    if data.Some? {
      IdOrNameIff(data.value, c);
      WithinTtlIff(data.value, parse, now);
    }
  }

  /** Nothing from the backend means the offer is not taken as ours. */
  lemma NoRecordNotYours(c: Courier, parse: string -> Option<int>, now: int)
    ensures !StillYours(None, c, parse, now)
  {
  }

  /** A record past its deadline is refused even when status and id match. */
  lemma ExpiredDeadlineRefused(rec: Record, c: Courier, parse: string -> Option<int>, now: int)
    requires ExpiryOf(Coalesce(rec, DEADLINE_KEYS), parse).At?
    requires ExpiryOf(Coalesce(rec, DEADLINE_KEYS), parse).ms <= now
    ensures !StillYours(Some(rec), c, parse, now)
  {
  }
}
