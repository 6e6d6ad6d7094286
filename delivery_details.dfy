/** The delivery details screen (src/screens/DeliveryDetailsScreen.tsx):
    address clean-up for the route link, the photo upload helpers, the
    proof-of-delivery locks kept in the draft store, and the hold-to-confirm
    button with its signature and photo gate before finalizing. */
module DeliveryDetails {
  import opened Text
  import opened Json
  import opened Stages
  import DeliveryDrafts

  // ---------------------------------------------------------------- addresses

  /** The dash and bullet characters the address clean-up turns into '-'. */
  predicate DashLike(c: char)
  {
    c == '—' || c == '–' || c == '−' || c == '•' || c == '·'
  }

  /** Where an address is cut into parts: ',' and '-' once dashes and
      bullets have become '-'. */
  predicate Separator(c: char)
  {
    c == ',' || c == '-' || DashLike(c)
  }

  /** `s.split(/(?:,|-)/)` after the dash replacement. */
  function SplitParts(s: string): (r: seq<string>)
    ensures |r| >= 1
    ensures forall k, i :: 0 <= k < |r| && 0 <= i < |r[k]| ==> !Separator(r[k][i])
  {
    if s == [] then [""]
    else if Separator(s[0]) then [""] + SplitParts(s[1..])
    else
      var rest := SplitParts(s[1..]);
      [[s[0]] + rest[0]] + rest[1..]
  }

  /** `t.replace(/\s+/g, ' ')`. */
  function CollapseSpaces(s: string): (r: string)
    ensures |r| <= |s|
    decreases |s|
  {
    if s == [] then ""
    else if IsSpace(s[0]) then " " + CollapseSpaces(TrimStart(s[1..]))
    else [s[0]] + CollapseSpaces(s[1..])
  }

  /** The cleaned parts, empty ones dropped (`.map(...).filter(Boolean)`). */
  function CleanParts(ps: seq<string>): (r: seq<string>)
    ensures forall i :: 0 <= i < |r| ==> r[i] != "" && Trim(r[i]) == r[i]
  {
    if ps == [] then []
    else
      var p := Trim(CollapseSpaces(ps[0]));
      TrimIdempotent(CollapseSpaces(ps[0]));
      if p == "" then CleanParts(ps[1..]) else [p] + CleanParts(ps[1..])
  }

  /** The parts of an address, or none for a missing or empty one. */
  function AddressParts(raw: Option<string>): seq<string>
  {
    if raw.None? || raw.value == "" then [] else CleanParts(SplitParts(raw.value))
  }

  /** The keys already seen. */
  function KeysOf(d: seq<string>): set<string>
  {
    set x | x in d :: Lower(x)
  }

  /** The parts with case-insensitive repeats removed, first occurrence kept. */
  function DedupSpec(parts: seq<string>): seq<string>
  {
    if parts == [] then []
    else
      var d := DedupSpec(parts[..|parts| - 1]);
      if Lower(parts[|parts| - 1]) in KeysOf(d) then d else d + [parts[|parts| - 1]]
  }

  /** The output layout: "p0, p1 - p2 - …". */
  function Render(d: seq<string>): string
  {
    if |d| == 0 then ""
    else if |d| >= 2 then
      var head := d[0] + ", " + d[1];
      var tail := Join(d[2..], " - ");
      if tail != "" then head + " - " + tail else head
    else Join(d, " - ")
  }

  /** `canonicalizeAddress(raw)`: the dedup loop over a `seen` set. */
  method CanonicalizeAddress(raw: Option<string>) returns (r: string)
    ensures r == Render(DedupSpec(AddressParts(raw)))
    ensures raw.None? || raw.value == "" ==> r == ""
  {
    if raw.None? || raw.value == "" {
      return "";
    }
    var parts := CleanParts(SplitParts(raw.value));
    var seen: set<string> := {};
    var dedup: seq<string> := [];
    var i := 0;
    while i < |parts|
      invariant 0 <= i <= |parts|
      invariant dedup == DedupSpec(parts[..i])
      invariant seen == KeysOf(dedup)
    {
      DedupSpecSnoc(parts, i);
      var key := Lower(parts[i]);
      if key !in seen {
        KeysOfSnoc(dedup, parts[i]);
        seen := seen + {key};
        dedup := dedup + [parts[i]];
      }
      i := i + 1;
    }
    assert parts[..i] == parts;
    r := Render(dedup);
  }

  lemma DedupSpecSnoc(parts: seq<string>, i: nat)
    requires i < |parts|
    ensures DedupSpec(parts[..i + 1]) ==
      if Lower(parts[i]) in KeysOf(DedupSpec(parts[..i])) then DedupSpec(parts[..i]) else DedupSpec(parts[..i]) + [parts[i]]
  {
    assert parts[..i + 1][..i] == parts[..i];
  }

  lemma KeysOfSnoc(d: seq<string>, x: string)
    ensures KeysOf(d + [x]) == KeysOf(d) + {Lower(x)}
  {
  }

  /** The deduplicated parts hold no two parts equal up to letter case, every
      input part is represented by one of them, they are all input parts, and
      the first part always survives. */
  lemma {:induction false} DedupSpecProperties(parts: seq<string>)
    ensures forall i, j :: 0 <= i < j < |DedupSpec(parts)| ==> Lower(DedupSpec(parts)[i]) != Lower(DedupSpec(parts)[j])
    ensures forall x :: x in parts ==> Lower(x) in KeysOf(DedupSpec(parts))
    ensures forall y :: y in DedupSpec(parts) ==> y in parts
    ensures |parts| > 0 ==> |DedupSpec(parts)| > 0 && DedupSpec(parts)[0] == parts[0]
  {
    if parts != [] {
      var init := parts[..|parts| - 1];
      var last := parts[|parts| - 1];
      DedupSpecProperties(init);
      var d := DedupSpec(init);
      assert parts == init + [last];
      if Lower(last) !in KeysOf(d) {
        var d' := d + [last];
        assert forall i :: 0 <= i < |d| ==> Lower(d'[i]) in KeysOf(d);
        assert KeysOf(d') == KeysOf(d) + {Lower(last)};
      }
      if |init| > 0 {
        assert init[0] == parts[0];
      }
    }
  }

  /** With two or more parts the first two are joined by ", " and the rest
      follow after " - ". */
  lemma RenderShape(d: seq<string>)
    requires |d| >= 3 && forall i :: 0 <= i < |d| ==> d[i] != ""
    ensures Render(d) == d[0] + ", " + d[1] + " - " + Join(d[2..], " - ")
  {
    assert d[2..][0] == d[2];
    JoinNonEmpty(d[2..], " - ");
  }

  lemma {:induction false} JoinNonEmpty(parts: seq<string>, sep: string)
    requires |parts| > 0 && parts[0] != ""
    ensures Join(parts, sep) != ""
  {
    if |parts| > 1 {
      assert Join(parts, sep) == parts[0] + sep + Join(parts[1..], sep);
      assert |Join(parts, sep)| >= |parts[0]|;
    }
  }

  // ---------------------------------------------------------------- upload helpers

  /** `inferMimeFromUri`: the extension before any query decides. */
  function InferMime(uri: string): (r: string)
    ensures r in {"image/jpeg", "image/png", "image/webp"}
  {
    var lower := Lower(SplitOn(uri, '?')[0]);
    if EndsWith(lower, ".jpg") || EndsWith(lower, ".jpeg") then "image/jpeg"
    else if EndsWith(lower, ".png") then "image/png"
    else if EndsWith(lower, ".webp") then "image/webp"
    else "image/jpeg"
  }

  /** Only a .png path is sent as PNG and only a .webp path as WebP; every
      other file, HEIC included, is sent as JPEG. */
  lemma InferMimeCases(uri: string)
    ensures var lower := Lower(SplitOn(uri, '?')[0]);
      (InferMime(uri) == "image/png" <==> EndsWith(lower, ".png"))
      && (InferMime(uri) == "image/webp" <==> EndsWith(lower, ".webp"))
  {
    var lower := Lower(SplitOn(uri, '?')[0]);
    if EndsWith(lower, ".png") {
      assert lower[|lower| - 4..][1] == 'p';
      assert !EndsWith(lower, ".jpg") by {
        assert |lower| >= 4 && lower[|lower| - 4..] == ".png";
      }
      assert !EndsWith(lower, ".jpeg") by {
        assert lower[|lower| - 1] == 'g' && lower[|lower| - 2] == 'n';
      }
    }
    if EndsWith(lower, ".webp") {
      assert !EndsWith(lower, ".jpg") && !EndsWith(lower, ".jpeg") && !EndsWith(lower, ".png") by {
        assert lower[|lower| - 1] == 'p';
      }
    }
  }

  /** `ensureFileUri`: on iOS a path without the file scheme gets it. */
  function EnsureFileUri(uri: string, ios: bool): (r: string)
    ensures uri != "" && ios ==> StartsWith(r, "file://")
    ensures !ios || uri == "" ==> r == uri
    ensures EndsWith(r, uri)
  {
    if uri == "" then uri
    else if ios && !StartsWith(uri, "file://") then "file://" + uri
    else uri
  }

  lemma EnsureFileUriIdempotent(uri: string, ios: bool)
    ensures EnsureFileUri(EnsureFileUri(uri, ios), ios) == EnsureFileUri(uri, ios)
  {
    if uri != "" && ios && !StartsWith(uri, "file://") {
      var r := "file://" + uri;
      assert r[..7] == "file://";
    }
  }

  // ---------------------------------------------------------------- locks

  /** `!!(recebedor_nome && String(recebedor_nome).trim())`. */
  predicate NamedByBackend(v: Value)
  {
    Truthy(v) && Trim(ToStr(v)) != ""
  }

  /** The three lock flags the screen shows after hydrating from the draft
      store. */
  datatype Locks = Locks(receiver: bool, photo: bool, signature: bool)

  function OrFalse(b: Option<bool>): bool
  {
    b.Some? && b.value
  }

  function HydratedLocks(d: Option<DeliveryDrafts.Draft>, backendName: Value): (r: Locks)
    ensures r.receiver <==> (d.Some? && OrFalse(d.value.receiverLocked)) || NamedByBackend(backendName)
    ensures r.photo <==> d.Some? && OrFalse(d.value.photoLocked)
    ensures r.signature <==> d.Some? && OrFalse(d.value.signatureLocked)
  {
    match d
    case None => Locks(NamedByBackend(backendName), false, false)
    case Some(x) => Locks(OrFalse(x.receiverLocked) || NamedByBackend(backendName), OrFalse(x.photoLocked), OrFalse(x.signatureLocked))
  }

  /** `entrega.recebedor_nome ?? ''` as stored in the draft. */
  function NameText(v: Value): string
  {
    if Nullish(v) then "" else ToStr(v)
  }

  /** The patch the sync effect writes: the whole on-screen state. */
  function SyncPatch(photos: seq<string>, description: string, name: Value, locks: Locks): DeliveryDrafts.Patch
  {
    DeliveryDrafts.Patch(Some(photos), Some(description), Some(NameText(name)),
      Some(locks.receiver), Some(locks.photo), Some(locks.signature))
  }

  /** Leaving the screen and coming back restores what the sync effect saved:
      the same photos and description, the same photo and signature locks,
      and the receiver lock, which a receiver name from the backend can only
      add to. */
  lemma SyncThenHydrate(prev: DeliveryDrafts.Draft, photos: seq<string>, description: string, name: Value, locks: Locks, now: int, backendName: Value)
    ensures var d := DeliveryDrafts.Merge(prev, SyncPatch(photos, description, name, locks), now);
      d.photos == photos && d.description == description && d.receiverName == NameText(name)
      && HydratedLocks(Some(d), backendName) == Locks(locks.receiver || NamedByBackend(backendName), locks.photo, locks.signature)
  {
  }

  /** What one photo upload attempt reported: the request threw before any
      result, or the number of photos that failed. */
  datatype UploadOutcome = Threw | Uploaded(failures: nat)

  // ---------------------------------------------------------------- finalize gate

  /** `checkMediaOnBackend`: the record the first route to answer
      returned (`None` is a route that failed or answered nothing), or both
      flags false when no route answered. */
  function MediaCheck(answers: seq<Option<Record>>): (r: Record)
    ensures (forall i :: 0 <= i < |answers| ==> answers[i].None?) ==>
      r == map["has_photos" := VBool(false), "has_signature" := VBool(false)]
    ensures forall i :: 0 <= i < |answers| && answers[i].Some? && (forall j :: 0 <= j < i ==> answers[j].None?) ==>
      r == answers[i].value
  {
    if answers == [] then map["has_photos" := VBool(false), "has_signature" := VBool(false)]
    else if answers[0].Some? then answers[0].value
    else
      assert forall i :: 1 <= i < |answers| ==> answers[1..][i - 1] == answers[i];
      MediaCheck(answers[1..])
  }

  predicate HasSignature(media: Record)
  {
    Truthy(Field(media, "has_signature"))
  }

  predicate HasPhotos(media: Record)
  {
    Truthy(Field(media, "has_photos"))
  }

  datatype Gate = NeedSignature | NeedPhotos | Proceed

  /** What the finalize step does before calling the backend. */
  function FinalizeGate(requiresSignature: bool, media: Record): (g: Gate)
    ensures g == Proceed <==> !requiresSignature || (HasSignature(media) && HasPhotos(media))
    ensures g == NeedSignature <==> requiresSignature && !HasSignature(media)
  {
    if !requiresSignature then Proceed
    else if !HasSignature(media) then NeedSignature
    else if !HasPhotos(media) then NeedPhotos
    else Proceed
  }

  /** When no route answers, a delivery that needs a signature is blocked,
      asking for the signature first. */
  lemma UnreachableMediaBlocks(answers: seq<Option<Record>>)
    requires forall i :: 0 <= i < |answers| ==> answers[i].None?
    ensures FinalizeGate(true, MediaCheck(answers)) == NeedSignature
  {
    var m := MediaCheck(answers);
    assert Field(m, "has_signature") == VBool(false);
  }

  /** The statuses after which the button does nothing. */
  predicate Concluded(status: Value)
  {
    NormStatus(status) == "finalizado" || NormStatus(status) == "cancelado"
  }

  // ---------------------------------------------------------------- the screen

  datatype Request = CheckMedia(entregaId: int) | StatusUpdate(entregaId: int, status: string) | Finalize(entregaId: int, motoboyId: int)

  /** The fields of the delivery (`entrega`) the screen reads: its id, its
      status, `has_retorno`, the signature-required flag and
      `recebedor_nome`. The
      screen folds `comprovante_assinado ?? comprovanteAssinado` into
      `comprovante_assinado` when it opens and after every fetch, so the one
      field here is what the finalize branch reads. */
  datatype Entrega = Entrega(id: Value, status: Value, hasRetornoRaw: Value, comprovanteAssinado: Value, recebedorNome: Value)

  /** The id the screen sends its requests for and keys its draft by,
      `entrega.id ?? initialEntrega.id ?? 0`, read as a number. */
  function ScreenEntregaId(e: Entrega, initialId: Value): (r: int)
    ensures e.id.VNum? ==> r == e.id.n
    ensures Nullish(e.id) && initialId.VNum? ==> r == initialId.n
    ensures Nullish(e.id) && Nullish(initialId) ==> r == 0
  {
    match OrElse(e.id, OrElse(initialId, VNum(0)))
    case VNum(n) => n
    case _ => 0
  }

  /** The proof of delivery being collected: the photos not yet sent, their
      description and the three locks. */
  datatype Proof = Proof(photos: seq<string>, description: string, locks: Locks)

  /** The hold flag (`holdDoneRef`), the hold hint, the two modals and
      whether the screen went back to the list. */
  datatype Ui = Ui(holdDone: bool, showHoldError: bool, signatureModal: bool, photoModal: bool, wentBack: bool)

  /** Everything the screen holds, with the alerts it showed and the
      requests it sent, in order. */
  datatype ScreenState = ScreenState(entrega: Entrega, proof: Proof, ui: Ui, alerts: seq<string>, requests: seq<Request>)

  /** `Boolean(assinatura_url || assinatura_coletada_at)`. */
  predicate SavedSignature(full: Record)
  {
    Truthy(Field(full, "assinatura_url")) || Truthy(Field(full, "assinatura_coletada_at"))
  }

  /** A key of the answer replaces the delivery's field, as `{...prev, ...full}` does. */
  function Spread(full: Record, k: string, prev: Value): Value
  {
    if k in full then full[k] else prev
  }

  /** The signature-required flag after the fetch: the answer's own flag
      read as a boolean, or the earlier reading when the answer has none
      (`rawFlag === undefined`). */
  function SignatureFlag(full: Record, prev: Value): bool
  {
    var raw := OrElse(Field(full, "comprovante_assinado"), Field(full, "comprovanteAssinado"));
    if raw.VUndef? then ToBool(prev) else ToBool(raw)
  }

  /** The details fetch for the id the screen was opened with
      (`initialEntrega.id`). `fetched` is the record the backend answered
      with, already unwrapped from its list or `rows` (empty when nothing
      came back), or `None` when the request threw. */
  function LoadSpec(s: ScreenState, initialId: Value, fetched: Option<Record>): ScreenState
  {
    if !Truthy(initialId) || fetched.None? then s
    else
      var full := fetched.value;
      var e := s.entrega;
      s.(entrega := Entrega(Spread(full, "id", e.id), Spread(full, "status", e.status), Spread(full, "has_retorno", e.hasRetornoRaw),
                            VBool(SignatureFlag(full, e.comprovanteAssinado)), Spread(full, "recebedor_nome", e.recebedorNome)),
         proof := s.proof.(locks := s.proof.locks.(signature := s.proof.locks.signature || SavedSignature(full))))
  }

  /** What the fetch changes: each key the answer carries replaces the
      delivery's field; the signature flag becomes a boolean, the answer's
      when it has one and the earlier reading otherwise; a saved signature
      turns the signature lock on, and nothing turns it off; the photos,
      the other locks, the modals, the alerts and the requests stay. */
  lemma LoadSpecCases(s: ScreenState, initialId: Value, fetched: Option<Record>)
    ensures !Truthy(initialId) || fetched.None? ==> LoadSpec(s, initialId, fetched) == s
    ensures var r := LoadSpec(s, initialId, fetched);
      Truthy(initialId) && fetched.Some? ==>
      var full := fetched.value;
      var raw := OrElse(Field(full, "comprovante_assinado"), Field(full, "comprovanteAssinado"));
      r.entrega.comprovanteAssinado.VBool?
      && (raw.VUndef? ==> ToBool(r.entrega.comprovanteAssinado) == ToBool(s.entrega.comprovanteAssinado))
      && (!raw.VUndef? ==> ToBool(r.entrega.comprovanteAssinado) == ToBool(raw))
      && ("id" in full ==> r.entrega.id == full["id"])
      && ("id" !in full ==> r.entrega.id == s.entrega.id)
      && ("status" in full ==> r.entrega.status == full["status"])
      && ("status" !in full ==> r.entrega.status == s.entrega.status)
      && ("has_retorno" in full ==> r.entrega.hasRetornoRaw == full["has_retorno"])
      && ("has_retorno" !in full ==> r.entrega.hasRetornoRaw == s.entrega.hasRetornoRaw)
      && ("recebedor_nome" in full ==> r.entrega.recebedorNome == full["recebedor_nome"])
      && ("recebedor_nome" !in full ==> r.entrega.recebedorNome == s.entrega.recebedorNome)
      && (r.proof.locks.signature <==> s.proof.locks.signature || SavedSignature(full))
    ensures var r := LoadSpec(s, initialId, fetched);
      r.proof.photos == s.proof.photos && r.proof.description == s.proof.description
      && r.proof.locks.receiver == s.proof.locks.receiver && r.proof.locks.photo == s.proof.locks.photo
      && r.ui == s.ui && r.alerts == s.alerts && r.requests == s.requests
  {
  }

  /** Loading the same answer twice is loading it once: the signature flag
      is already a boolean the second time. */
  lemma LoadIdempotent(s: ScreenState, initialId: Value, fetched: Option<Record>)
    ensures LoadSpec(LoadSpec(s, initialId, fetched), initialId, fetched) == LoadSpec(s, initialId, fetched)
  {
    var r := LoadSpec(s, initialId, fetched);
    var r2 := LoadSpec(r, initialId, fetched);
    if Truthy(initialId) && fetched.Some? {
      assert r2.entrega.comprovanteAssinado == VBool(ToBool(r.entrega.comprovanteAssinado));
    }
  }

  /** The fetched record's own numeric id is the one every later request
      and draft write uses; a record without an id keeps the id the screen
      had. */
  lemma LoadedIdIsUsed(s: ScreenState, initialId: Value, full: Record)
    requires Truthy(initialId)
    ensures var r := LoadSpec(s, initialId, Some(full));
      ("id" in full && full["id"].VNum? ==> ScreenEntregaId(r.entrega, initialId) == full["id"].n)
      && ("id" !in full ==> ScreenEntregaId(r.entrega, initialId) == ScreenEntregaId(s.entrega, initialId))
  {
    LoadSpecCases(s, initialId, Some(full));
  }

  /** The hydration effect: photos, description, receiver name and locks
      from the stored draft `d` (`None` when the store has none). */
  function HydrateSpec(s: ScreenState, id: int, d: Option<DeliveryDrafts.Draft>): ScreenState
  {
    if id == 0 then s
    else
      var name := if d.Some? && d.value.receiverName != "" then VStr(d.value.receiverName) else s.entrega.recebedorNome;
      s.(entrega := s.entrega.(recebedorNome := name),
         proof := Proof(if d.Some? then d.value.photos else [], if d.Some? then d.value.description else "",
                        HydratedLocks(d, s.entrega.recebedorNome)))
  }

  /** What hydrating changes: the photos and description become the
      draft's (none and "" without a draft), the locks are
      `HydratedLocks`, a stored receiver name replaces the delivery's and
      its absence keeps it; the rest of the delivery, the modals, the
      alerts and the requests stay. */
  lemma HydrateSpecCases(s: ScreenState, id: int, d: Option<DeliveryDrafts.Draft>)
    ensures id == 0 ==> HydrateSpec(s, id, d) == s
    ensures var r := HydrateSpec(s, id, d);
      id != 0 ==>
      r.proof.photos == (if d.Some? then d.value.photos else [])
      && r.proof.description == (if d.Some? then d.value.description else "")
      && r.proof.locks == HydratedLocks(d, s.entrega.recebedorNome)
      && (d.Some? && d.value.receiverName != "" ==> r.entrega.recebedorNome == VStr(d.value.receiverName))
      && (d.None? || d.value.receiverName == "" ==> r.entrega.recebedorNome == s.entrega.recebedorNome)
    ensures var r := HydrateSpec(s, id, d);
      r.entrega.(recebedorNome := s.entrega.recebedorNome) == s.entrega
      && r.ui == s.ui && r.alerts == s.alerts && r.requests == s.requests
  {
  }

  /** Leaving the screen `s` and opening it again as `t` brings back what the
      sync effect saved: the photos, the description, the photo and
      signature locks, the receiver name when one was typed, and the
      receiver lock, which a receiver name from the backend can only add
      to. */
  lemma ReturnRestoresScreen(s: ScreenState, t: ScreenState, id: int, prev: DeliveryDrafts.Draft, now: int)
    requires id != 0
    ensures var d := DeliveryDrafts.Merge(prev, SyncPatch(s.proof.photos, s.proof.description, s.entrega.recebedorNome, s.proof.locks), now);
      var r := HydrateSpec(t, id, Some(d));
      r.proof.photos == s.proof.photos && r.proof.description == s.proof.description
      && r.proof.locks.photo == s.proof.locks.photo && r.proof.locks.signature == s.proof.locks.signature
      && (r.proof.locks.receiver <==> s.proof.locks.receiver || NamedByBackend(t.entrega.recebedorNome))
      && r.entrega.recebedorNome == (if NameText(s.entrega.recebedorNome) != "" then VStr(NameText(s.entrega.recebedorNome)) else t.entrega.recebedorNome)
  {
    var d := DeliveryDrafts.Merge(prev, SyncPatch(s.proof.photos, s.proof.description, s.entrega.recebedorNome, s.proof.locks), now);
    SyncThenHydrate(prev, s.proof.photos, s.proof.description, s.entrega.recebedorNome, s.proof.locks, now, t.entrega.recebedorNome);
    HydrateSpecCases(t, id, Some(d));
  }

  /** `handleSavePhoto` on the screen; what it writes to the draft store is
      stated on `Screen.SavePhoto`. */
  function SavePhotoSpec(s: ScreenState, upload: UploadOutcome): ScreenState
  {
    if s.proof.photos == [] then
      s.(proof := s.proof.(locks := s.proof.locks.(photo := false)), ui := s.ui.(photoModal := false))
    else if upload.Threw? || upload.failures > 0 then s.(alerts := s.alerts + ["Erro"])
    else s.(proof := s.proof.(photos := [], locks := s.proof.locks.(photo := true)), ui := s.ui.(photoModal := false))
  }

  /** What saving the photos changes: with nothing to send the photo lock
      goes off and the modal closes; a failure adds only the "Erro" alert;
      full success locks the photos, empties them and closes the modal;
      the delivery, the description, the other locks, the other flags and
      the requests never change. */
  lemma SavePhotoSpecCases(s: ScreenState, upload: UploadOutcome)
    ensures var r := SavePhotoSpec(s, upload);
      s.proof.photos == [] ==> !r.proof.locks.photo && !r.ui.photoModal && r.proof.photos == [] && r.alerts == s.alerts
    ensures s.proof.photos != [] && (upload.Threw? || upload.failures > 0) ==>
      SavePhotoSpec(s, upload) == s.(alerts := s.alerts + ["Erro"])
    ensures var r := SavePhotoSpec(s, upload);
      s.proof.photos != [] && upload == Uploaded(0) ==>
      r.proof.locks.photo && !r.ui.photoModal && r.proof.photos == [] && r.alerts == s.alerts
    ensures var r := SavePhotoSpec(s, upload);
      r.entrega == s.entrega && r.requests == s.requests && r.proof.description == s.proof.description
      && r.proof.locks.receiver == s.proof.locks.receiver && r.proof.locks.signature == s.proof.locks.signature
      && r.ui.(photoModal := s.ui.photoModal) == s.ui
  {
  }

  /** Photos that were all sent stay sent: once the sync effect has saved
      the screen, opening it again shows no photos to send and the photo
      lock on. */
  lemma SentPhotosStayLocked(s: ScreenState, t: ScreenState, id: int, prev: DeliveryDrafts.Draft, now: int)
    requires id != 0 && s.proof.photos != []
    ensures var a := SavePhotoSpec(s, Uploaded(0));
      var d := DeliveryDrafts.Merge(prev, SyncPatch(a.proof.photos, a.proof.description, a.entrega.recebedorNome, a.proof.locks), now);
      var r := HydrateSpec(t, id, Some(d));
      r.proof.photos == [] && r.proof.locks.photo && r.proof.description == s.proof.description
  {
    var a := SavePhotoSpec(s, Uploaded(0));
    SavePhotoSpecCases(s, Uploaded(0));
    ReturnRestoresScreen(a, t, id, prev, now);
  }

  /** The stage the details screen shows for a delivery. */
  function StageOf(e: Entrega): Stage
  {
    StatusToStageDetails(e.status, ToBool(e.hasRetornoRaw))
  }

  /** The finalize branch of the hold, once `holdDoneRef` is set. */
  function FinalizeSpec(s: ScreenState, id: int, courier: Option<int>, answers: seq<Option<Record>>, ok: bool): ScreenState
  {
    if courier.None? || courier.value == 0 then s.(alerts := s.alerts + ["Erro"])
    else
      var required := ToBool(s.entrega.comprovanteAssinado);
      var checked := if required then [CheckMedia(id)] else [];
      var media := MediaCheck(answers);
      if required && !HasSignature(media) then
        s.(ui := s.ui.(signatureModal := true), requests := s.requests + checked, alerts := s.alerts + ["Assinatura necessária"])
      else if required && !HasPhotos(media) then
        s.(ui := s.ui.(photoModal := true), requests := s.requests + checked, alerts := s.alerts + ["Fotos necessárias"])
      else
        var sent := s.requests + checked + [Finalize(id, courier.value)];
        if !ok then s.(requests := sent, alerts := s.alerts + ["Falha"])
        else s.(entrega := s.entrega.(status := VStr("Finalizado")), ui := s.ui.(wentBack := true), requests := sent,
                alerts := s.alerts + ["Finalizado"])
  }

  /** The status-advance branch of the hold from the stage `st` the
      button showed, once `holdDoneRef` is set. */
  function AdvanceSpec(s: ScreenState, id: int, st: Stage, ok: bool): ScreenState
    requires st != Finalizar
  {
    var next := AdvanceStatus(st);
    var sent := s.requests + [StatusUpdate(id, next)];
    if !ok then s.(requests := sent, alerts := s.alerts + ["Falha"])
    else s.(entrega := s.entrega.(status := VStr(next)), requests := sent)
  }

  /** The finalize branch: a missing courier raises "Erro" alone; a
      required signature or photo missing on the backend opens its modal
      after the media check; otherwise the finalize is sent, and only a
      confirmed one shows "Finalizado" and goes back. */
  lemma FinalizeSpecCases(s: ScreenState, id: int, courier: Option<int>, answers: seq<Option<Record>>, ok: bool)
    ensures var r := FinalizeSpec(s, id, courier, answers, ok);
      courier.None? || courier.value == 0 ==> r == s.(alerts := s.alerts + ["Erro"])
    ensures var r := FinalizeSpec(s, id, courier, answers, ok);
      courier.Some? && courier.value != 0 ==>
        var gate := FinalizeGate(ToBool(s.entrega.comprovanteAssinado), MediaCheck(answers));
        var checked := if ToBool(s.entrega.comprovanteAssinado) then [CheckMedia(id)] else [];
        (gate == NeedSignature ==> r == s.(ui := s.ui.(signatureModal := true), requests := s.requests + checked,
           alerts := s.alerts + ["Assinatura necessária"]))
        && (gate == NeedPhotos ==> r == s.(ui := s.ui.(photoModal := true), requests := s.requests + checked,
           alerts := s.alerts + ["Fotos necessárias"]))
        && (gate == Proceed && !ok ==> r == s.(requests := s.requests + checked + [Finalize(id, courier.value)],
           alerts := s.alerts + ["Falha"]))
        && (gate == Proceed && ok ==> r == s.(entrega := s.entrega.(status := VStr("Finalizado")), ui := s.ui.(wentBack := true),
           requests := s.requests + checked + [Finalize(id, courier.value)], alerts := s.alerts + ["Finalizado"]))
  {
  }

  /** The advance branch sends the next status, and shows it, as the stage
      `nextStage` names, only when the backend confirms it. */
  lemma AdvanceSpecCases(s: ScreenState, id: int, st: Stage, ok: bool)
    requires st != Finalizar
    ensures var r := AdvanceSpec(s, id, st, ok);
      r.requests == s.requests + [StatusUpdate(id, AdvanceStatus(st))] && r.ui == s.ui && r.proof == s.proof
      && r.entrega.(status := s.entrega.status) == s.entrega
      && (ok ==> r.entrega.status == VStr(AdvanceStatus(st)) && r.alerts == s.alerts
                 && StageOf(r.entrega) == NextStage(st, ToBool(s.entrega.hasRetornoRaw)))
      && (!ok ==> r.entrega.status == s.entrega.status && r.alerts == s.alerts + ["Falha"])
  {
    AdvanceAgreesWithNextStage(st, ToBool(s.entrega.hasRetornoRaw));
  }

  /** `handleStatusHoldSuccess` for the delivery `id`. `answers` are the
      media check routes' answers and `ok` the backend's answer to the
      write the handler sends. */
  function HoldSuccessSpec(s: ScreenState, id: int, courier: Option<int>, answers: seq<Option<Record>>, ok: bool): ScreenState
  {
    if id == 0 || Concluded(s.entrega.status) then s
    else
      var h := s.(ui := s.ui.(holdDone := true));
      if StageOf(s.entrega) == Finalizar then FinalizeSpec(h, id, courier, answers, ok) else AdvanceSpec(h, id, StageOf(s.entrega), ok)
  }

  /** What a completed hold does. A concluded or id-less delivery is left
      alone. Before the last stage the next status is sent, and shown only
      when the backend confirms it, as the stage `nextStage` names; a
      refusal raises "Falha". At the last stage a missing courier raises
      "Erro" and sends nothing; a delivery needing a signature first asks
      the backend for its media and is sent back to the signature or the
      photos when one is missing; otherwise the finalize is sent, and a
      confirmed one shows "Finalizado" and goes back. The photos, the
      description, the locks and the hold hint never change. */
  lemma HoldSuccessSpecCases(s: ScreenState, id: int, courier: Option<int>, answers: seq<Option<Record>>, ok: bool)
    ensures id == 0 || Concluded(s.entrega.status) ==> HoldSuccessSpec(s, id, courier, answers, ok) == s
    ensures var r := HoldSuccessSpec(s, id, courier, answers, ok);
      id != 0 && !Concluded(s.entrega.status) ==> r.ui.holdDone
    ensures var r := HoldSuccessSpec(s, id, courier, answers, ok);
      var st := StageOf(s.entrega);
      id != 0 && !Concluded(s.entrega.status) && st != Finalizar ==>
        r.requests == s.requests + [StatusUpdate(id, AdvanceStatus(st))]
        && r.ui == s.ui.(holdDone := true)
        && (ok ==> r.entrega.status == VStr(AdvanceStatus(st)) && r.alerts == s.alerts
                   && StageOf(r.entrega) == NextStage(st, ToBool(s.entrega.hasRetornoRaw)))
        && (!ok ==> r.entrega.status == s.entrega.status && r.alerts == s.alerts + ["Falha"])
    ensures var r := HoldSuccessSpec(s, id, courier, answers, ok);
      id != 0 && !Concluded(s.entrega.status) && StageOf(s.entrega) == Finalizar && courier.Some? && courier.value != 0 ==>
        var gate := FinalizeGate(ToBool(s.entrega.comprovanteAssinado), MediaCheck(answers));
        var checked := if ToBool(s.entrega.comprovanteAssinado) then [CheckMedia(id)] else [];
        (gate == NeedSignature ==>
           r.ui == s.ui.(holdDone := true, signatureModal := true) && r.entrega.status == s.entrega.status
           && r.requests == s.requests + checked && r.alerts == s.alerts + ["Assinatura necessária"])
        && (gate == NeedPhotos ==>
           r.ui == s.ui.(holdDone := true, photoModal := true) && r.entrega.status == s.entrega.status
           && r.requests == s.requests + checked && r.alerts == s.alerts + ["Fotos necessárias"])
        && (gate == Proceed ==> r.requests == s.requests + checked + [Finalize(id, courier.value)])
        && (gate == Proceed && ok ==>
           r.entrega.status == VStr("Finalizado") && r.ui == s.ui.(holdDone := true, wentBack := true)
           && r.alerts == s.alerts + ["Finalizado"])
        && (gate == Proceed && !ok ==>
           r.entrega.status == s.entrega.status && r.ui == s.ui.(holdDone := true) && r.alerts == s.alerts + ["Falha"])
    ensures var r := HoldSuccessSpec(s, id, courier, answers, ok);
      id != 0 && !Concluded(s.entrega.status) && StageOf(s.entrega) == Finalizar && (courier.None? || courier.value == 0) ==>
      r.requests == s.requests && r.entrega.status == s.entrega.status && r.ui == s.ui.(holdDone := true)
      && r.alerts == s.alerts + ["Erro"]
    ensures var r := HoldSuccessSpec(s, id, courier, answers, ok);
      (r.ui.wentBack ==> s.ui.wentBack || r.entrega.status == VStr("Finalizado"))
      && r.entrega.(status := s.entrega.status) == s.entrega && r.proof == s.proof
      && r.ui.showHoldError == s.ui.showHoldError
  {
    if id != 0 && !Concluded(s.entrega.status) {
      var h := s.(ui := s.ui.(holdDone := true));
      if StageOf(s.entrega) == Finalizar {
        FinalizeSpecCases(h, id, courier, answers, ok);
      } else {
        AdvanceSpecCases(h, id, StageOf(s.entrega), ok);
      }
    }
  }

  /** `handleStatusHoldRelease`. */
  function HoldReleaseSpec(s: ScreenState): (r: ScreenState)
    ensures !r.ui.holdDone
    ensures r.ui.showHoldError <==> s.ui.showHoldError || !s.ui.holdDone
    ensures r.ui.(holdDone := s.ui.holdDone, showHoldError := s.ui.showHoldError) == s.ui
    ensures r.entrega == s.entrega && r.proof == s.proof && r.alerts == s.alerts && r.requests == s.requests
  {
    if s.ui.holdDone then s.(ui := s.ui.(holdDone := false)) else s.(ui := s.ui.(showHoldError := true))
  }

  /** A completed hold's release never shows the hold hint, and an early
      release always does. */
  lemma ReleaseAfterHold(s: ScreenState, id: int, courier: Option<int>, answers: seq<Option<Record>>, ok: bool)
    requires id != 0 && !Concluded(s.entrega.status)
    ensures var r := HoldReleaseSpec(HoldSuccessSpec(s, id, courier, answers, ok));
      !r.ui.holdDone && r.ui.showHoldError == s.ui.showHoldError
  {
    HoldSuccessSpecCases(s, id, courier, answers, ok);
  }

  /** DeliveryDetailsScreen. `entrega` is the screen's delivery object; the
      separate state hooks are kept grouped as `proof` (`takenPhotos`,
      `photoDescription` and the three locks) and `ui` (`holdDoneRef`, the
      hold hint and the two modals, and whether the screen went back). */
  class Screen {
    const initialId: Value
    var entrega: Entrega
    var proof: Proof
    var ui: Ui
    var alerts: seq<string>
    var requests: seq<Request>

    function State(): ScreenState
      reads this
    {
      ScreenState(entrega, proof, ui, alerts, requests)
    }

    /** The id the requests and the draft use. */
    function EntregaId(): int
      reads this
    {
      ScreenEntregaId(entrega, initialId)
    }

    /** The stage the button shows. */
    function CurrentStage(): Stage
      reads this
    {
      StageOf(entrega)
    }

    constructor (id0: Value, status0: Value, hasRetorno0: Value, comprovante0: Value, recebedor0: Value)
      ensures initialId == id0
      ensures State() == ScreenState(Entrega(id0, status0, hasRetorno0, comprovante0, recebedor0),
        Proof([], "", Locks(false, false, false)), Ui(false, false, false, false, false), [], [])
    {
      initialId := id0;
      entrega := Entrega(id0, status0, hasRetorno0, comprovante0, recebedor0);
      proof := Proof([], "", Locks(false, false, false));
      ui := Ui(false, false, false, false, false);
      alerts := [];
      requests := [];
    }

    /** The details fetch effect, merging the backend's record into the
        delivery. */
    method Load(fetched: Option<Record>)
      modifies this
      ensures State() == LoadSpec(old(State()), initialId, fetched)
    {
      if !Truthy(initialId) || fetched.None? {
        return;
      }
      var full := fetched.value;
      var flag := SignatureFlag(full, entrega.comprovanteAssinado);
      if SavedSignature(full) {
        proof := proof.(locks := proof.locks.(signature := true));
      }
      entrega := Entrega(Spread(full, "id", entrega.id), Spread(full, "status", entrega.status), Spread(full, "has_retorno", entrega.hasRetornoRaw),
        VBool(flag), Spread(full, "recebedor_nome", entrega.recebedorNome));
    }

    /** The hydration effect: photos, description, receiver name and locks
        from the stored draft. */
    method Hydrate(drafts: DeliveryDrafts.Store)
      modifies this
      ensures State() == HydrateSpec(old(State()), old(EntregaId()),
        if old(EntregaId()) in drafts.drafts then Some(drafts.drafts[old(EntregaId())]) else None)
    {
      var id := EntregaId();
      if id == 0 {
        return;
      }
      var d := drafts.Get(id);
      var photos := if d.Some? then d.value.photos else [];
      var description := if d.Some? then d.value.description else "";
      var hasReceiverBackend := NamedByBackend(entrega.recebedorNome);
      var draftReceiverLocked := d.Some? && OrFalse(d.value.receiverLocked);
      var draftPhotoLocked := d.Some? && OrFalse(d.value.photoLocked);
      var draftSignatureLocked := d.Some? && OrFalse(d.value.signatureLocked);
      if d.Some? && d.value.receiverName != "" {
        entrega := entrega.(recebedorNome := VStr(d.value.receiverName));
      }
      proof := Proof(photos, description, Locks(draftReceiverLocked || hasReceiverBackend, draftPhotoLocked, draftSignatureLocked));
    }

    /** The sync effect: every change of the photos, description, receiver
        name or locks is written to the draft store. */
    method SyncDraft(drafts: DeliveryDrafts.Store, now: int)
      requires drafts.Valid()
      modifies drafts
      ensures drafts.Valid()
      ensures EntregaId() == 0 ==> drafts.drafts == old(drafts.drafts)
      ensures EntregaId() != 0 ==> drafts.drafts == old(drafts.drafts)[EntregaId() := DeliveryDrafts.Merge(DeliveryDrafts.Base(old(drafts.drafts), EntregaId()),
        SyncPatch(proof.photos, proof.description, entrega.recebedorNome, proof.locks), now)]
    {
      var id := EntregaId();
      if id == 0 {
        return;
      }
      drafts.Set(id, SyncPatch(proof.photos, proof.description, entrega.recebedorNome, proof.locks), now);
    }

    /** `handleSavePhoto`: nothing to send unlocks; a failure leaves the
        locks and photos as they were; full success locks the photos and
        empties them in the draft. */
    method SavePhoto(upload: UploadOutcome, drafts: DeliveryDrafts.Store, now: int)
      requires drafts.Valid()
      modifies this, drafts
      ensures drafts.Valid()
      ensures State() == SavePhotoSpec(old(State()), upload)
      ensures old(proof.photos) != [] && upload == Uploaded(0) ==>
        drafts.drafts == old(drafts.drafts)[old(EntregaId()) := DeliveryDrafts.Merge(DeliveryDrafts.Base(old(drafts.drafts), old(EntregaId())),
          DeliveryDrafts.NO_CHANGE.(photos := Some([]), photoLocked := Some(true)), now)]
      ensures old(proof.photos) == [] || upload != Uploaded(0) ==> drafts.drafts == old(drafts.drafts)
    {
      var id := EntregaId();
      if |proof.photos| == 0 {
        proof := proof.(locks := proof.locks.(photo := false));
        ui := ui.(photoModal := false);
        return;
      }
      if upload.Threw? || upload.failures > 0 {
        alerts := alerts + ["Erro"];
        return;
      }
      proof := proof.(photos := [], locks := proof.locks.(photo := true));
      ui := ui.(photoModal := false);
      drafts.Set(id, DeliveryDrafts.NO_CHANGE.(photos := Some([]), photoLocked := Some(true)), now);
    }

    /** `handleStatusHoldSuccess`. */
    method HoldSuccess(courier: Option<int>, answers: seq<Option<Record>>, ok: bool)
      modifies this
      ensures State() == HoldSuccessSpec(old(State()), old(EntregaId()), courier, answers, ok)
    {
      if EntregaId() == 0 {
        return;
      }
      if Concluded(entrega.status) {
        return;
      }
      ui := ui.(holdDone := true);
      var stage := CurrentStage();
      if stage == Finalizar {
        HoldFinalize(courier, answers, ok);
      } else {
        HoldAdvance(stage, ok);
      }
    }

    /** The finalize branch of `handleStatusHoldSuccess`. */
    method HoldFinalize(courier: Option<int>, answers: seq<Option<Record>>, ok: bool)
      modifies this
      ensures State() == FinalizeSpec(old(State()), old(EntregaId()), courier, answers, ok)
    {
      var id := EntregaId();
      if courier.None? || courier.value == 0 {
        alerts := alerts + ["Erro"];
        return;
      }
      var requiresSignature := ToBool(entrega.comprovanteAssinado);
      if requiresSignature {
        requests := requests + [CheckMedia(id)];
        var media := MediaCheck(answers);
        if !HasSignature(media) {
          alerts := alerts + ["Assinatura necessária"];
          ui := ui.(signatureModal := true);
          return;
        }
        if !HasPhotos(media) {
          alerts := alerts + ["Fotos necessárias"];
          ui := ui.(photoModal := true);
          return;
        }
      }
      requests := requests + [Finalize(id, courier.value)];
      if !ok {
        alerts := alerts + ["Falha"];
        return;
      }
      entrega := entrega.(status := VStr("Finalizado"));
      alerts := alerts + ["Finalizado"];
      ui := ui.(wentBack := true);
    }

    /** The status-advance branch of `handleStatusHoldSuccess`. */
    method HoldAdvance(stage: Stage, ok: bool)
      modifies this
      requires stage != Finalizar
      ensures State() == AdvanceSpec(old(State()), old(EntregaId()), stage, ok)
    {
      var id := EntregaId();
      var newStatus := "Coletando";
      if stage == Entregar {
        newStatus := "Entregando";
      } else if stage == Retornar {
        newStatus := "Retornando";
      }
      requests := requests + [StatusUpdate(id, newStatus)];
      if !ok {
        alerts := alerts + ["Falha"];
        return;
      }
      entrega := entrega.(status := VStr(newStatus));
    }

    /** `handleStatusHoldRelease`. */
    method HoldRelease()
      modifies this
      ensures State() == HoldReleaseSpec(old(State()))
    {
      if ui.holdDone {
        ui := ui.(holdDone := false);
        return;
      }
      ui := ui.(showHoldError := true);
    }
  }
}
