/** The accepted-deliveries board of the home screen
    (src/screens/HomeScreen.tsx): one hold-to-confirm stage per delivery, the
    has-return map, the status poller that drops finished deliveries, and the
    hold handlers that advance or finalize a delivery. */
module HomeBoard {
  import opened Text
  import opened Json
  import opened Stages
  import opened AcceptedDeliveries

  // ---------------------------------------------------------------- listing diff

  /** One row of the status listing, after the fetch normalised it. */
  datatype StatusRow = StatusRow(entregaId: int, status: string)

  /** `new Map(list.map(x => [x.entrega_id, normStatus(x.status)]))`: the
      normalised status per id, a later row overriding an earlier one. */
  function StatusById(rows: seq<StatusRow>): (m: map<int, string>)
    ensures forall i :: 0 <= i < |rows| ==> rows[i].entregaId in m
  {
    if rows == [] then map[]
    else
      var init := rows[..|rows| - 1];
      var last := rows[|rows| - 1];
      assert forall i :: 0 <= i < |init| ==> init[i] == rows[i];
      StatusById(init)[last.entregaId := NormStatus(VStr(last.status))]
  }

  /** Every id in the map comes from a row, and the row that decides an id
      is the last one carrying it. */
  lemma {:induction false} StatusByIdLastWins(rows: seq<StatusRow>, i: int)
    requires 0 <= i < |rows|
    requires forall j :: i < j < |rows| ==> rows[j].entregaId != rows[i].entregaId
    ensures StatusById(rows)[rows[i].entregaId] == NormStatus(VStr(rows[i].status))
  {
    if i < |rows| - 1 {
      var init := rows[..|rows| - 1];
      assert init[i] == rows[i];
      assert forall j :: i < j < |init| ==> init[j] == rows[j];
      StatusByIdLastWins(init, i);
    }
  }

  lemma {:induction false} StatusByIdOnlyListed(rows: seq<StatusRow>, id: int)
    requires forall i :: 0 <= i < |rows| ==> rows[i].entregaId != id
    ensures id !in StatusById(rows)
  {
    if rows != [] {
      var init := rows[..|rows| - 1];
      assert forall i :: 0 <= i < |init| ==> init[i] == rows[i];
      StatusByIdOnlyListed(init, id);
    }
  }

  /** The statuses that take a delivery off the board. */
  predicate Closed(norm: string)
  {
    norm == "finalizado" || norm == "cancelado" || norm == "novo"
  }

  /** A delivery stays when the listing has it with a status that is not
      closed; a delivery the listing lacks counts as concluded. */
  predicate Keeps(byId: map<int, string>, e: Delivery)
  {
    e.entregaId in byId && !Closed(byId[e.entregaId])
  }

  /** The deliveries that stay, in their original order. */
  function KeepSpec(list: seq<Delivery>, byId: map<int, string>): seq<Delivery>
  {
    if list == [] then []
    else
      KeepSpec(list[..|list| - 1], byId)
      + (if Keeps(byId, list[|list| - 1]) then [list[|list| - 1]] else [])
  }

  /** The keep-building loop of `applyBackendStatusDiffs`. */
  method KeepActive(list: seq<Delivery>, byId: map<int, string>) returns (keep: seq<Delivery>)
    ensures keep == KeepSpec(list, byId)
  {
    keep := [];
    var i := 0;
    while i < |list|
      invariant 0 <= i <= |list|
      invariant keep == KeepSpec(list[..i], byId)
    {
      var e := list[i];
      assert list[..i + 1][..i] == list[..i];
      if e.entregaId in byId {
        var norm := byId[e.entregaId];
        if norm == "finalizado" || norm == "cancelado" || norm == "novo" {
          i := i + 1;
          continue;
        }
        keep := keep + [e];
        i := i + 1;
        continue;
      }
      i := i + 1;
    }
    assert list[..i] == list;
  }

  /** A delivery stays exactly when it was on the board and the listing
      reports it with a status that is not finalizado, cancelado or novo. */
  lemma {:induction false} KeepSpecMembers(list: seq<Delivery>, byId: map<int, string>, x: Delivery)
    ensures x in KeepSpec(list, byId) <==> x in list && Keeps(byId, x)
  {
    if list != [] {
      var init := list[..|list| - 1];
      KeepSpecMembers(init, byId, x);
      assert list == init + [list[|list| - 1]];
    }
  }

  /** Filtering distributes over concatenation, so the kept deliveries come
      in the order they had. */
  lemma {:induction false} KeepSpecConcat(a: seq<Delivery>, b: seq<Delivery>, byId: map<int, string>)
    ensures KeepSpec(a + b, byId) == KeepSpec(a, byId) + KeepSpec(b, byId)
  {
    if b == [] {
      assert a + b == a;
    } else {
      var init := b[..|b| - 1];
      KeepSpecConcat(a, init, byId);
      assert (a + b)[..|a + b| - 1] == a + init;
      assert (a + b)[|a + b| - 1] == b[|b| - 1];
    }
  }

  /** Nothing is dropped exactly when every delivery stays, and then the
      list is unchanged. */
  lemma {:induction false} KeepSpecNothingDropped(list: seq<Delivery>, byId: map<int, string>)
    ensures |KeepSpec(list, byId)| <= |list|
    ensures |KeepSpec(list, byId)| == |list| <==> forall i :: 0 <= i < |list| ==> Keeps(byId, list[i])
    ensures (forall i :: 0 <= i < |list| ==> Keeps(byId, list[i])) ==> KeepSpec(list, byId) == list
  {
    if list != [] {
      var init := list[..|list| - 1];
      KeepSpecNothingDropped(init, byId);
      assert forall i :: 0 <= i < |init| ==> init[i] == list[i];
      assert list == init + [list[|list| - 1]];
    }
  }

  /** A second diff against the same listing drops nothing. */
  lemma KeepSpecIdempotent(list: seq<Delivery>, byId: map<int, string>)
    ensures KeepSpec(KeepSpec(list, byId), byId) == KeepSpec(list, byId)
  {
    var keep := KeepSpec(list, byId);
    forall i | 0 <= i < |keep|
      ensures Keeps(byId, keep[i])
    {
      KeepSpecMembers(list, byId, keep[i]);
    }
    KeepSpecNothingDropped(keep, byId);
  }

  // ---------------------------------------------------------------- has-return

  /** The has-return flag a board entry carries: `coerceBoolStrict` of the
      field when it is defined, otherwise false. */
  function EntryHasRetorno(e: Delivery): bool
  {
    if e.hasRetorno.VUndef? then false else CoerceBoolStrict(e.hasRetorno)
  }

  /** The has-return flag used when restaging: the map entry if there is one,
      otherwise the entry's own field. */
  function HasRetOf(hasMap: map<int, bool>, e: Delivery): bool
  {
    if e.entregaId in hasMap then hasMap[e.entregaId] else EntryHasRetorno(e)
  }

  /** The first entry with an id, as `accepted.find` returns it. */
  function FindById(list: seq<Delivery>, id: int): (r: Option<Delivery>)
    ensures r.Some? <==> HasId(list, id)
    ensures r.Some? ==> r.value in list && r.value.entregaId == id
  {
    if list == [] then None
    else if list[0].entregaId == id then Some(list[0])
    else
      var r := FindById(list[1..], id);
      assert HasId(list[1..], id) ==> HasId(list, id) by {
        if HasId(list[1..], id) {
          var k :| 0 <= k < |list[1..]| && list[1..][k].entregaId == id;
          assert list[k + 1].entregaId == id;
        }
      }
      assert HasId(list, id) ==> HasId(list[1..], id) by {
        if HasId(list, id) {
          var k :| 0 <= k < |list| && list[k].entregaId == id;
          assert k > 0 && list[1..][k - 1].entregaId == id;
        }
      }
      r
  }

  /** `getHasRetornoFor`: the map entry, else the first board entry's
      defined field, else false. */
  function HasRetornoFor(hasMap: map<int, bool>, list: seq<Delivery>, id: int): bool
  {
    if id in hasMap then hasMap[id]
    else match FindById(list, id)
      case None => false
      case Some(e) => EntryHasRetorno(e)
  }

  /** The board entry's field decides only when the map has nothing for the
      id, and a board without the id reads as no return leg. */
  lemma HasRetornoForCases(hasMap: map<int, bool>, list: seq<Delivery>, id: int)
    ensures id in hasMap ==> HasRetornoFor(hasMap, list, id) == hasMap[id]
    ensures id !in hasMap && !HasId(list, id) ==> !HasRetornoFor(hasMap, list, id)
    ensures id !in hasMap && |list| > 0 && list[0].entregaId == id ==>
      HasRetornoFor(hasMap, list, id) == EntryHasRetorno(list[0])
  {
  }

  /** One step of the has-return sync effect. */
  function SyncStep(m: map<int, bool>, e: Delivery): map<int, bool>
  {
    if !e.hasRetorno.VUndef? then m[e.entregaId := CoerceBoolStrict(e.hasRetorno)]
    else if e.entregaId !in m then m[e.entregaId := false]
    else m
  }

  /** The has-return sync effect over the whole board, first entry first. */
  function Synced(m: map<int, bool>, list: seq<Delivery>): (r: map<int, bool>)
    ensures forall id :: id in m ==> id in r
    ensures forall i :: 0 <= i < |list| ==> list[i].entregaId in r
    decreases list
  {
    if list == [] then m else Synced(SyncStep(m, list[0]), list[1..])
  }

  /** After the sync every id on the board has a flag, and an id that is not
      on the board keeps what it had. */
  lemma {:induction false} SyncedDomain(m: map<int, bool>, list: seq<Delivery>, id: int)
    ensures id in Synced(m, list) <==> id in m || HasId(list, id)
    ensures !HasId(list, id) && id in m ==> Synced(m, list)[id] == m[id]
    decreases list
  {
    if list != [] {
      SyncedDomain(SyncStep(m, list[0]), list[1..], id);
      assert HasId(list, id) <==> list[0].entregaId == id || HasId(list[1..], id) by {
        if HasId(list, id) {
          var k :| 0 <= k < |list| && list[k].entregaId == id;
          if k > 0 {
            assert list[1..][k - 1].entregaId == id;
          }
        }
        if HasId(list[1..], id) {
          var k :| 0 <= k < |list[1..]| && list[1..][k].entregaId == id;
          assert list[k + 1].entregaId == id;
        }
      }
    }
  }

  /** An id whose only board entry is the first one and carries no
      has-return field keeps the flag it had. */
  lemma SyncedUndefinedFirstKeeps(m: map<int, bool>, list: seq<Delivery>)
    requires |list| > 0 && list[0].hasRetorno.VUndef?
    requires list[0].entregaId in m
    requires !HasId(list[1..], list[0].entregaId)
    ensures Synced(m, list)[list[0].entregaId] == m[list[0].entregaId]
  {
    var id := list[0].entregaId;
    assert SyncStep(m, list[0]) == m;
    SyncedDomain(m, list[1..], id);
  }

  /** An id whose only board entry is the first one and carries a defined
      has-return field ends with that field's strict reading. */
  lemma SyncedDefinedFirstWins(m: map<int, bool>, list: seq<Delivery>)
    requires |list| > 0 && !list[0].hasRetorno.VUndef?
    requires !HasId(list[1..], list[0].entregaId)
    ensures Synced(m, list)[list[0].entregaId] == CoerceBoolStrict(list[0].hasRetorno)
  {
    var id := list[0].entregaId;
    SyncedDomain(SyncStep(m, list[0]), list[1..], id);
  }

  // ---------------------------------------------------------------- stages

  /** The stage-seeding effect: a delivery without a stage starts at Coletar. */
  function Seeded(m: map<int, Stage>, list: seq<Delivery>): map<int, Stage>
    decreases list
  {
    if list == [] then m
    else
      var id := list[0].entregaId;
      Seeded(if id in m then m else m[id := Coletar], list[1..])
  }

  /** Seeding keeps every stage already set, gives every board entry a stage,
      and what it adds is Coletar. */
  lemma {:induction false} SeededProperties(m: map<int, Stage>, list: seq<Delivery>)
    ensures forall id :: id in m ==> id in Seeded(m, list) && Seeded(m, list)[id] == m[id]
    ensures forall i :: 0 <= i < |list| ==> list[i].entregaId in Seeded(m, list)
    ensures forall id :: id in Seeded(m, list) && id !in m ==> Seeded(m, list)[id] == Coletar
    decreases list
  {
    if list != [] {
      var id := list[0].entregaId;
      var m' := if id in m then m else m[id := Coletar];
      SeededProperties(m', list[1..]);
      assert forall i :: 1 <= i < |list| ==> list[i] == list[1..][i - 1];
    }
  }

  /** The stage `applyBackendStatusDiffs` gives one kept delivery. */
  function RestageStep(m: map<int, Stage>, e: Delivery, byId: map<int, string>, hasMap: map<int, bool>): map<int, Stage>
  {
    if e.entregaId in byId then m[e.entregaId := StatusToStageHome(VStr(byId[e.entregaId]), HasRetOf(hasMap, e))]
    else m
  }

  /** The stage update over all kept deliveries, first entry first. */
  function Restaged(m: map<int, Stage>, keep: seq<Delivery>, byId: map<int, string>, hasMap: map<int, bool>): (r: map<int, Stage>)
    ensures forall id :: id in m ==> id in r
    ensures forall i :: 0 <= i < |keep| && keep[i].entregaId in byId ==> keep[i].entregaId in r
    decreases keep
  {
    if keep == [] then m else Restaged(RestageStep(m, keep[0], byId, hasMap), keep[1..], byId, hasMap)
  }

  /** Restaging leaves deliveries that were not kept alone. */
  lemma {:induction false} RestagedOthers(m: map<int, Stage>, keep: seq<Delivery>, byId: map<int, string>, hasMap: map<int, bool>, id: int)
    requires !HasId(keep, id)
    ensures id in Restaged(m, keep, byId, hasMap) <==> id in m
    ensures id in m ==> Restaged(m, keep, byId, hasMap)[id] == m[id]
    decreases keep
  {
    if keep != [] {
      assert keep[0].entregaId != id;
      assert forall k :: 0 <= k < |keep[1..]| ==> keep[1..][k] == keep[k + 1];
      RestagedOthers(RestageStep(m, keep[0], byId, hasMap), keep[1..], byId, hasMap, id);
    }
  }

  /** A kept delivery with a listed status gets the stage its status maps to
      under its has-return flag. */
  lemma {:induction false} RestagedKept(m: map<int, Stage>, keep: seq<Delivery>, byId: map<int, string>, hasMap: map<int, bool>, i: int)
    requires UniqueIds(keep) && 0 <= i < |keep| && keep[i].entregaId in byId
    ensures Restaged(m, keep, byId, hasMap)[keep[i].entregaId]
      == StatusToStageHome(VStr(byId[keep[i].entregaId]), HasRetOf(hasMap, keep[i]))
    decreases keep
  {
    var m' := RestageStep(m, keep[0], byId, hasMap);
    if i == 0 {
      assert forall k :: 0 <= k < |keep[1..]| ==> keep[1..][k] == keep[k + 1];
      RestagedOthers(m', keep[1..], byId, hasMap, keep[0].entregaId);
    } else {
      assert keep[1..][i - 1] == keep[i];
      RestagedKept(m', keep[1..], byId, hasMap, i - 1);
    }
  }

  // ---------------------------------------------------------------- the board

  /** The backend writes the board sends: a status update or a finalize. */
  datatype Request = StatusUpdate(entregaId: int, status: string) | Finalize(entregaId: int, motoboyId: int)

  /** `!motoboyId`: no user, or an id of 0. */
  predicate NoCourier(courier: Option<int>)
  {
    courier.None? || courier.value == 0
  }

  /** The stage the hold handler starts from. */
  function CurrentStage(m: map<int, Stage>, id: int): Stage
  {
    if id in m then m[id] else Coletar
  }

  class Board {
    var stageById: map<int, Stage>
    var hasRetornoById: map<int, bool>
    /** Ids whose long press completed and whose release is still to come. */
    var longPressOk: set<int>
    var showHoldError: bool
    var alerts: seq<string>
    var requests: seq<Request>

    constructor ()
      ensures stageById == map[] && hasRetornoById == map[] && longPressOk == {}
      ensures !showHoldError && alerts == [] && requests == []
    {
      stageById := map[];
      hasRetornoById := map[];
      longPressOk := {};
      showHoldError := false;
      alerts := [];
      requests := [];
    }

    /** The two effects that run whenever the board list changes: seed the
        stage of new deliveries and sync the has-return map. */
    method Refresh(list: seq<Delivery>)
      modifies this
      ensures stageById == Seeded(old(stageById), list)
      ensures hasRetornoById == Synced(old(hasRetornoById), list)
      ensures longPressOk == old(longPressOk) && showHoldError == old(showHoldError)
      ensures alerts == old(alerts) && requests == old(requests)
    {
      var i := 0;
      while i < |list|
        invariant 0 <= i <= |list|
        invariant Seeded(stageById, list[i..]) == Seeded(old(stageById), list)
        invariant Synced(hasRetornoById, list[i..]) == Synced(old(hasRetornoById), list)
        invariant longPressOk == old(longPressOk) && showHoldError == old(showHoldError)
        invariant alerts == old(alerts) && requests == old(requests)
      {
        var e := list[i];
        assert list[i..][1..] == list[i + 1..];
        if e.entregaId !in stageById {
          stageById := stageById[e.entregaId := Coletar];
        }
        if !e.hasRetorno.VUndef? {
          hasRetornoById := hasRetornoById[e.entregaId := CoerceBoolStrict(e.hasRetorno)];
        } else if e.entregaId !in hasRetornoById {
          hasRetornoById := hasRetornoById[e.entregaId := false];
        }
        i := i + 1;
      }
    }

    /** The stage update of `applyBackendStatusDiffs`. */
    method Restage(keep: seq<Delivery>, byId: map<int, string>)
      modifies this
      ensures stageById == Restaged(old(stageById), keep, byId, hasRetornoById)
      ensures hasRetornoById == old(hasRetornoById) && longPressOk == old(longPressOk)
      ensures showHoldError == old(showHoldError) && alerts == old(alerts) && requests == old(requests)
    {
      var i := 0;
      while i < |keep|
        invariant 0 <= i <= |keep|
        invariant Restaged(stageById, keep[i..], byId, hasRetornoById) == Restaged(old(stageById), keep, byId, hasRetornoById)
        invariant hasRetornoById == old(hasRetornoById) && longPressOk == old(longPressOk)
        invariant showHoldError == old(showHoldError) && alerts == old(alerts) && requests == old(requests)
      {
        var e := keep[i];
        assert keep[i..][1..] == keep[i + 1..];
        if e.entregaId in byId {
          var hasRet := if e.entregaId in hasRetornoById then hasRetornoById[e.entregaId]
                        else if !e.hasRetorno.VUndef? then CoerceBoolStrict(e.hasRetorno) else false;
          stageById := stageById[e.entregaId := StatusToStageHome(VStr(byId[e.entregaId]), hasRet)];
        }
        i := i + 1;
      }
    }

    /** `applyBackendStatusDiffs(listing, store.list, …)`. */
    method ApplyBackendStatusDiffs(rows: seq<StatusRow>, store: Store)
      requires store.Valid()
      modifies this, store
      ensures store.Valid() && store.listeners == old(store.listeners)
      ensures old(store.list) == [] ==> store.list == [] && store.delivered == old(store.delivered) && stageById == old(stageById)
      ensures old(store.list) != [] ==>
        var keep := KeepSpec(old(store.list), StatusById(rows));
        store.list == keep
        && (|keep| == |old(store.list)| ==> store.delivered == old(store.delivered))
        && (|keep| != |old(store.list)| ==> store.delivered == old(store.delivered) + Listeners.Broadcast(store.listeners, keep))
        && stageById == Restaged(old(stageById), keep, StatusById(rows), hasRetornoById)
      ensures hasRetornoById == old(hasRetornoById) && longPressOk == old(longPressOk)
      ensures showHoldError == old(showHoldError) && alerts == old(alerts) && requests == old(requests)
    {
      var acceptedNow := store.Get();
      if |acceptedNow| == 0 {
        return;
      }
      var byId := StatusById(rows);
      var keep := KeepActive(acceptedNow, byId);
      if |keep| != |acceptedNow| {
        store.SetAll(keep);
      } else {
        KeepSpecNothingDropped(acceptedNow, byId);
      }
      Restage(keep, byId);
    }

    /** One round of the status poller: nothing without a courier, with an
        empty board, or when the listing came back empty. */
    method PollTick(courier: Option<int>, rows: seq<StatusRow>, store: Store)
      requires store.Valid()
      modifies this, store
      ensures store.Valid() && store.listeners == old(store.listeners)
      ensures NoCourier(courier) || old(store.list) == [] || rows == [] ==>
        store.list == old(store.list) && store.delivered == old(store.delivered) && stageById == old(stageById)
      ensures !NoCourier(courier) && rows != [] ==> store.list == KeepSpec(old(store.list), StatusById(rows))
      ensures hasRetornoById == old(hasRetornoById) && longPressOk == old(longPressOk)
      ensures showHoldError == old(showHoldError) && alerts == old(alerts) && requests == old(requests)
    {
      if NoCourier(courier) || |store.list| == 0 || |rows| == 0 {
        return;
      }
      ApplyBackendStatusDiffs(rows, store);
    }

    /** `onHoldSuccess(id)`: the long press completed; `ok` is the backend's
        answer to the write the handler sends. */
    method OnHoldSuccess(id: int, courier: Option<int>, ok: bool, store: Store)
      requires store.Valid()
      modifies this, store
      ensures store.Valid() && store.listeners == old(store.listeners)
      ensures longPressOk == old(longPressOk) + {id}
      ensures hasRetornoById == old(hasRetornoById) && showHoldError == old(showHoldError)
      ensures var cur := CurrentStage(old(stageById), id);
        cur == Finalizar && NoCourier(courier) ==>
          requests == old(requests) && alerts == old(alerts)
          && stageById == old(stageById) && store.list == old(store.list) && store.delivered == old(store.delivered)
      ensures var cur := CurrentStage(old(stageById), id);
        cur == Finalizar && !NoCourier(courier) ==>
          requests == old(requests) + [Finalize(id, courier.value)]
          && stageById == old(stageById)
          && (ok ==> store.list == WithoutId(old(store.list), id) && alerts == old(alerts) + ["Finalizado"])
          && (!ok ==> store.list == old(store.list) && store.delivered == old(store.delivered) && alerts == old(alerts) + ["Falha"])
      ensures var cur := CurrentStage(old(stageById), id);
        cur != Finalizar ==>
          requests == old(requests) + [StatusUpdate(id, AdvanceStatus(cur))]
          && store.list == old(store.list) && store.delivered == old(store.delivered)
          && (ok ==> stageById == old(stageById)[id := NextStage(cur, HasRetornoFor(hasRetornoById, old(store.list), id))]
                     && alerts == old(alerts))
          && (!ok ==> stageById == old(stageById) && alerts == old(alerts) + ["Falha"])
    {
      longPressOk := longPressOk + {id};
      var current := if id in stageById then stageById[id] else Coletar;
      if current == Finalizar {
        if NoCourier(courier) {
          return;
        }
        requests := requests + [Finalize(id, courier.value)];
        if ok {
          var list := store.Get();
          store.SetAll(WithoutId(list, id));
          alerts := alerts + ["Finalizado"];
        } else {
          alerts := alerts + ["Falha"];
        }
        return;
      }
      var newStatus := "Coletando";
      if current == Entregar {
        newStatus := "Entregando";
      } else if current == Retornar {
        newStatus := "Retornando";
      }
      requests := requests + [StatusUpdate(id, newStatus)];
      if ok {
        stageById := stageById[id := NextStage(current, HasRetornoFor(hasRetornoById, store.list, id))];
      } else {
        alerts := alerts + ["Falha"];
      }
    }

    /** `onHoldRelease(id)`: a release after a completed press only clears
        the mark; any other release shows the hold error. */
    method OnHoldRelease(id: int)
      modifies this
      ensures id in old(longPressOk) ==> longPressOk == old(longPressOk) - {id} && showHoldError == old(showHoldError)
      ensures id !in old(longPressOk) ==> longPressOk == old(longPressOk) && showHoldError
      ensures stageById == old(stageById) && hasRetornoById == old(hasRetornoById)
      ensures alerts == old(alerts) && requests == old(requests)
    {
      if id in longPressOk {
        longPressOk := longPressOk - {id};
        return;
      }
      showHoldError := true;
    }
  }

  /** A confirmed hold on a stage before Finalizar sends exactly the status
      that the poller maps back to the stage the board moved to, so the next
      poll does not undo the step (while the map and the listing agree on the
      has-return flag). */
  lemma HoldThenPollAgree(cur: Stage, hasRet: bool)
    requires cur != Finalizar
    ensures StatusToStageHome(VStr(NormStatus(VStr(AdvanceStatus(cur)))), hasRet) == NextStage(cur, hasRet)
  {
    NormStatusIdempotent(VStr(AdvanceStatus(cur)));
    AdvanceAgreesWithNextStage(cur, hasRet);
  }
}
