/** The proof-of-delivery drafts kept per delivery id
    (src/states/deliveryDrafts.ts), together with the lock flags the delivery
    details screen stores in the same entries. */
module DeliveryDrafts {
  import opened Text
  import opened Listeners

  /** One draft. The three locks are the extra fields the details screen
      writes into the store; `None` is a field never written. */
  datatype Draft = Draft(
    photos: seq<string>,
    description: string,
    receiverName: string,
    updatedAt: int,
    receiverLocked: Option<bool>,
    photoLocked: Option<bool>,
    signatureLocked: Option<bool>)

  /** The argument of `setDraft`: a field is given (`Some`) or left out. */
  datatype Patch = Patch(
    photos: Option<seq<string>>,
    description: Option<string>,
    receiverName: Option<string>,
    receiverLocked: Option<bool>,
    photoLocked: Option<bool>,
    signatureLocked: Option<bool>)

  /** What `setDraft` starts from for an id that has no draft. */
  const EMPTY: Draft := Draft([], "", "", 0, None, None, None)

  const NO_CHANGE: Patch := Patch(None, None, None, None, None, None)

  function Pick<T>(given: Option<T>, old_: T): T
  {
    if given.Some? then given.value else old_
  }

  function PickOpt<T>(given: Option<T>, old_: Option<T>): Option<T>
  {
    if given.Some? then given else old_
  }

  /** `{ ...prev, ...next, updatedAt: now }`. */
  function Merge(prev: Draft, next: Patch, now: int): Draft
  {
    Draft(
      Pick(next.photos, prev.photos),
      Pick(next.description, prev.description),
      Pick(next.receiverName, prev.receiverName),
      now,
      PickOpt(next.receiverLocked, prev.receiverLocked),
      PickOpt(next.photoLocked, prev.photoLocked),
      PickOpt(next.signatureLocked, prev.signatureLocked))
  }

  /** Two patches in a row, the later one winning field by field. */
  function Then(a: Patch, b: Patch): Patch
  {
    Patch(
      PickOpt(b.photos, a.photos),
      PickOpt(b.description, a.description),
      PickOpt(b.receiverName, a.receiverName),
      PickOpt(b.receiverLocked, a.receiverLocked),
      PickOpt(b.photoLocked, a.photoLocked),
      PickOpt(b.signatureLocked, a.signatureLocked))
  }

  /** Two writes to one draft are one write of the combined patch, stamped
      with the later time. */
  lemma MergeCompose(prev: Draft, a: Patch, b: Patch, t1: int, t2: int)
    ensures Merge(Merge(prev, a, t1), b, t2) == Merge(prev, Then(a, b), t2)
  {
  }

  /** Repeating a write changes only the time stamp. */
  lemma MergeIdempotent(prev: Draft, p: Patch, t1: int, t2: int)
    ensures Merge(Merge(prev, p, t1), p, t2) == Merge(prev, p, t2)
  {
    MergeCompose(prev, p, p, t1, t2);
  }

  /** A write that gives no field only refreshes the time stamp. */
  lemma MergeNoChange(prev: Draft, now: int)
    ensures Merge(prev, NO_CHANGE, now) == prev.(updatedAt := now)
  {
  }

  /** The draft a write starts from. */
  function Base(drafts: map<int, Draft>, id: int): Draft
  {
    if id in drafts then drafts[id] else EMPTY
  }

  /** What a listener is passed: the id and the new draft, or nothing when
      the draft was cleared. */
  datatype Change = Change(id: int, draft: Option<Draft>)

  class Store {
    var drafts: map<int, Draft>
    var listeners: seq<ListenerId>
    var delivered: seq<Notice<Change>>

    ghost predicate Valid()
      reads this
    {
      NoDup(listeners)
    }

    constructor ()
      ensures Valid() && drafts == map[] && listeners == [] && delivered == []
    {
      drafts := map[];
      listeners := [];
      delivered := [];
    }

    /** `getDraft`. */
    method Get(id: int) returns (d: Option<Draft>)
      ensures d.Some? <==> id in drafts
      ensures d.Some? ==> d.value == drafts[id]
    {
      d := if id in drafts then Some(drafts[id]) else None;
    }

    /** `getAllDrafts`. */
    method GetAll() returns (m: map<int, Draft>)
      ensures m == drafts
    {
      m := drafts;
    }

    /** `setDraft(id, next)` at time `now`. */
    method Set(id: int, next: Patch, now: int)
      requires Valid()
      modifies this
      ensures Valid() && listeners == old(listeners)
      ensures drafts == old(drafts)[id := Merge(Base(old(drafts), id), next, now)]
      ensures delivered == old(delivered) + Broadcast(listeners, Change(id, Some(drafts[id])))
    {
      var merged := Merge(Base(drafts, id), next, now);
      drafts := drafts[id := merged];
      var out := Emit(listeners, Change(id, Some(merged)));
      delivered := delivered + out;
    }

    /** `clearDraft(id)`. */
    method Clear(id: int)
      requires Valid()
      modifies this
      ensures Valid() && listeners == old(listeners)
      ensures drafts == old(drafts) - {id}
      ensures delivered == old(delivered) + Broadcast(listeners, Change(id, None))
    {
      drafts := drafts - {id};
      var out := Emit(listeners, Change(id, None));
      delivered := delivered + out;
    }

    /** `subscribeDrafts(fn)`. */
    method Subscribe(l: ListenerId)
      requires Valid()
      modifies this
      ensures Valid() && drafts == old(drafts) && delivered == old(delivered)
      ensures listeners == Added(old(listeners), l)
    {
      listeners := Added(listeners, l);
    }

    /** Calling the function `subscribeDrafts` returned. */
    method Unsubscribe(l: ListenerId)
      requires Valid()
      modifies this
      ensures Valid() && drafts == old(drafts) && delivered == old(delivered)
      ensures listeners == Without(old(listeners), l)
      ensures l !in listeners
    {
      listeners := Without(listeners, l);
    }
  }

  /** A write to an unknown id starts from empty photos, description and
      receiver name. */
  lemma FreshDraftDefaults(drafts: map<int, Draft>, id: int, next: Patch, now: int)
    requires id !in drafts
    ensures next.photos.None? ==> Merge(Base(drafts, id), next, now).photos == []
    ensures next.description.None? ==> Merge(Base(drafts, id), next, now).description == ""
    ensures next.receiverName.None? ==> Merge(Base(drafts, id), next, now).receiverName == ""
    ensures Merge(Base(drafts, id), next, now).updatedAt == now
  {
  }

  /** Writing or clearing one id leaves every other id's draft as it was. */
  lemma OtherIdsUntouched(drafts: map<int, Draft>, id: int, other: int, d: Draft)
    requires other != id
    ensures other in drafts[id := d] <==> other in drafts
    ensures other in drafts ==> drafts[id := d][other] == drafts[other]
    ensures other in drafts - {id} <==> other in drafts
  {
  }
}
