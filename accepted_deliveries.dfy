/** The observable list of deliveries the courier has accepted
    (src/states/acceptedDeliveries.ts): newest first, one entry per delivery
    id when it is grown by `addAcceptedDelivery`, replaced wholesale by
    `setAcceptedDeliveries`. */
module AcceptedDeliveries {
  import opened Json
  import opened Listeners

  /** An accepted delivery as the store keeps it. Display fields stay raw
      values because the screens store whatever the backend sent. */
  datatype Delivery = Delivery(
    entregaId: int,
    numero: Value,
    clienteNome: Value,
    coletaEndereco: Value,
    entregaEndereco: Value,
    valorTotalMotoboy: Value,
    hasRetorno: Value)

  predicate HasId(list: seq<Delivery>, id: int)
  {
    exists i :: 0 <= i < |list| && list[i].entregaId == id
  }

  predicate UniqueIds(list: seq<Delivery>)
  {
    forall i, j :: 0 <= i < j < |list| ==> list[i].entregaId != list[j].entregaId
  }

  /** The list after `addAcceptedDelivery(d)`. */
  function WithAdded(list: seq<Delivery>, d: Delivery): seq<Delivery>
  {
    if HasId(list, d.entregaId) then list else [d] + list
  }

  /** Adding never loses an entry, always leaves the id present, and keeps a
      list free of duplicate ids free of them. */
  lemma WithAddedProperties(list: seq<Delivery>, d: Delivery)
    ensures HasId(WithAdded(list, d), d.entregaId)
    ensures forall x :: x in list ==> x in WithAdded(list, d)
    ensures UniqueIds(list) ==> UniqueIds(WithAdded(list, d))
    ensures |WithAdded(list, d)| <= |list| + 1
  {
    if !HasId(list, d.entregaId) {
      assert WithAdded(list, d)[0] == d;
    }
  }

  /** Adding the same delivery twice is adding it once. */
  lemma WithAddedIdempotent(list: seq<Delivery>, d: Delivery)
    ensures WithAdded(WithAdded(list, d), d) == WithAdded(list, d)
  {
    WithAddedProperties(list, d);
  }

  /** The list with one delivery taken out, as the finalize handler does. */
  function WithoutId(list: seq<Delivery>, id: int): (r: seq<Delivery>)
    ensures !HasId(r, id)
    ensures forall x :: x in r <==> x in list && x.entregaId != id
    ensures UniqueIds(list) ==> UniqueIds(r)
  {
    if list == [] then []
    else if list[0].entregaId == id then WithoutId(list[1..], id)
    else
      var rest := WithoutId(list[1..], id);
      assert UniqueIds(list) ==> UniqueIds(list[1..]) && !HasId(list[1..], list[0].entregaId);
      [list[0]] + rest
  }

  /** The module-level store: the current list, the listener set, and every
      notice a listener has been sent so far. */
  class Store {
    var list: seq<Delivery>
    var listeners: seq<ListenerId>
    var delivered: seq<Notice<seq<Delivery>>>

    ghost predicate Valid()
      reads this
    {
      NoDup(listeners)
    }

    constructor ()
      ensures Valid() && list == [] && listeners == [] && delivered == []
    {
      list := [];
      listeners := [];
      delivered := [];
    }

    /** `addAcceptedDelivery`: prepend and notify, unless the id is known. */
    method Add(d: Delivery)
      requires Valid()
      modifies this
      ensures Valid() && listeners == old(listeners)
      ensures list == WithAdded(old(list), d)
      ensures HasId(old(list), d.entregaId) ==> delivered == old(delivered)
      ensures !HasId(old(list), d.entregaId) ==> list == [d] + old(list)
      ensures !HasId(old(list), d.entregaId) ==> delivered == old(delivered) + Broadcast(listeners, list)
    {
      if !HasId(list, d.entregaId) {
        list := [d] + list;
        var out := Emit(listeners, list);
        delivered := delivered + out;
      }
    }

    /** `setAcceptedDeliveries`: replace the list (no uniqueness check) and
      notify. */
    method SetAll(l: seq<Delivery>)
      requires Valid()
      modifies this
      ensures Valid() && listeners == old(listeners)
      ensures list == l
      ensures delivered == old(delivered) + Broadcast(listeners, l)
    {
      list := l;
      var out := Emit(listeners, list);
      delivered := delivered + out;
    }

    /** `getAcceptedDeliveries`. */
    method Get() returns (l: seq<Delivery>)
      ensures l == list
    {
      l := list;
    }

    /** `subscribeAccepted(fn)`. */
    method Subscribe(l: ListenerId)
      requires Valid()
      modifies this
      ensures Valid() && list == old(list) && delivered == old(delivered)
      ensures listeners == Added(old(listeners), l)
    {
      listeners := Added(listeners, l);
    }

    /** Calling the function `subscribeAccepted` returned. */
    method Unsubscribe(l: ListenerId)
      requires Valid()
      modifies this
      ensures Valid() && list == old(list) && delivered == old(delivered)
      ensures listeners == Without(old(listeners), l)
      ensures l !in listeners
    {
      listeners := Without(listeners, l);
    }
  }
}
