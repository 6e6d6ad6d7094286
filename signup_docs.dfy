/** The second signup step (src/screens/SignupStep2Screen.tsx): the four
    document types, the files attached to each, the modal and source
    chooser used to attach them, and the gate before the registration is
    submitted. */
module SignupDocs {
  import opened Text
  import opened Json

  datatype DocType = FotoEntregador | DocEntregador | DocVeiculo | ComprovanteResidencia

  /** `REQUIRED_DOCS`, in the order the checklist is shown. */
  const REQUIRED_DOCS: seq<DocType> := [FotoEntregador, DocEntregador, DocVeiculo, ComprovanteResidencia]

  /** The place of a type in `REQUIRED_DOCS`. */
  function Pos(t: DocType): (i: nat)
    ensures i < |REQUIRED_DOCS| && REQUIRED_DOCS[i] == t
  {
    match t
    case FotoEntregador => 0
    case DocEntregador => 1
    case DocVeiculo => 2
    case ComprovanteResidencia => 3
  }

  /** `TITLES`. */
  function Title(t: DocType): string
  {
    match t
    case FotoEntregador => "Foto do entregador"
    case DocEntregador => "Documento do entregador"
    case DocVeiculo => "Documento do veículo"
    case ComprovanteResidencia => "Comprovante de residência"
  }

  datatype Kind = Image | Pdf | Other

  datatype LocalFile = LocalFile(uri: string, name: Option<string>, mimeType: Option<string>,
                                 size: Option<int>, kind: Kind, fromCamera: bool)

  /** The files attached to each document type. */
  datatype Attachments = Attachments(foto: seq<LocalFile>, docEntregador: seq<LocalFile>,
                                     docVeiculo: seq<LocalFile>, comprovante: seq<LocalFile>)
  {
    function Get(t: DocType): seq<LocalFile>
    {
      match t
      case FotoEntregador => foto
      case DocEntregador => docEntregador
      case DocVeiculo => docVeiculo
      case ComprovanteResidencia => comprovante
    }

    function With(t: DocType, list: seq<LocalFile>): (r: Attachments)
      ensures r.Get(t) == list
      ensures forall u :: u != t ==> r.Get(u) == Get(u)
    {
      match t
      case FotoEntregador => this.(foto := list)
      case DocEntregador => this.(docEntregador := list)
      case DocVeiculo => this.(docVeiculo := list)
      case ComprovanteResidencia => this.(comprovante := list)
    }
  }

  const NO_FILES := Attachments([], [], [], [])

  /** `addFiles`: the new files go at the end of their type's list, and no
      other type changes. */
  function AddFiles(files: Attachments, t: DocType, newOnes: seq<LocalFile>): (r: Attachments)
    ensures r.Get(t) == files.Get(t) + newOnes
    ensures forall u :: u != t ==> r.Get(u) == files.Get(u)
  {
    files.With(t, files.Get(t) + newOnes)
  }

  /** The types of `ts` with no file, in the order of `ts`. */
  function MissingFrom(ts: seq<DocType>, files: Attachments): (r: seq<DocType>)
    ensures forall t :: t in r <==> t in ts && |files.Get(t)| == 0
    ensures |r| <= |ts|
  {
    if ts == [] then []
    else (if |files.Get(ts[0])| == 0 then [ts[0]] else []) + MissingFrom(ts[1..], files)
  }

  /** `missingDocTypes`. */
  function Missing(files: Attachments): seq<DocType>
  {
    MissingFrom(REQUIRED_DOCS, files)
  }

  predicate InChecklistOrder(ts: seq<DocType>)
  {
    forall i, j :: 0 <= i < j < |ts| ==> Pos(ts[i]) < Pos(ts[j])
  }

  lemma {:induction false} MissingFromKeepsOrder(ts: seq<DocType>, files: Attachments)
    requires InChecklistOrder(ts)
    ensures InChecklistOrder(MissingFrom(ts, files))
  {
    if ts != [] {
      var rest := MissingFrom(ts[1..], files);
      assert InChecklistOrder(ts[1..]) by {
        forall i, j | 0 <= i < j < |ts[1..]|
          ensures Pos(ts[1..][i]) < Pos(ts[1..][j])
        {
          assert ts[1..][i] == ts[i + 1] && ts[1..][j] == ts[j + 1];
        }
      }
      MissingFromKeepsOrder(ts[1..], files);
      if |files.Get(ts[0])| == 0 {
        var r := [ts[0]] + rest;
        forall i, j | 0 <= i < j < |r|
          ensures Pos(r[i]) < Pos(r[j])
        {
          if i == 0 {
            assert r[j] == rest[j - 1];
            assert rest[j - 1] in ts[1..];
            var k :| 0 <= k < |ts[1..]| && ts[1..][k] == rest[j - 1];
            assert ts[k + 1] == r[j];
          } else {
            assert r[i] == rest[i - 1] && r[j] == rest[j - 1];
          }
        }
      }
    }
  }

  /** The checklist of missing documents names exactly the types with no
      file, each once, in the order of `REQUIRED_DOCS`. */
  lemma MissingProperties(files: Attachments)
    ensures forall t :: t in Missing(files) <==> |files.Get(t)| == 0
    ensures InChecklistOrder(Missing(files))
    ensures |Missing(files)| <= |REQUIRED_DOCS|
  {
    assert forall t :: t in REQUIRED_DOCS by {
      forall t ensures t in REQUIRED_DOCS {
        assert REQUIRED_DOCS[Pos(t)] == t;
      }
    }
    MissingFromKeepsOrder(REQUIRED_DOCS, files);
  }

  /** `allDocsOk`. */
  predicate AllDocsOk(files: Attachments)
  {
    |Missing(files)| == 0
  }

  /** Every document type has at least one file exactly when nothing is
      missing. */
  lemma AllDocsOkIff(files: Attachments)
    ensures AllDocsOk(files) <==> forall t :: |files.Get(t)| > 0
  {
    MissingProperties(files);
    if !AllDocsOk(files) {
      assert Missing(files)[0] in Missing(files);
    }
  }

  /** Attaching at least one file to a type takes that type, and only that
      type, off the checklist. */
  lemma AddFilesChecksOffType(files: Attachments, t: DocType, newOnes: seq<LocalFile>)
    requires |newOnes| > 0
    ensures forall u :: u in Missing(AddFiles(files, t, newOnes)) <==> u in Missing(files) && u != t
  {
    MissingProperties(files);
    MissingProperties(AddFiles(files, t, newOnes));
  }

  // ---------------------------------------------------------------- pickers

  /** `a || fallback` on an optional text. */
  function OrText(o: Option<string>, fallback: string): (r: string)
    ensures o.Some? && o.value != "" ==> r == o.value
    ensures !(o.Some? && o.value != "") ==> r == fallback
  {
    if o.Some? && o.value != "" then o.value else fallback
  }

  /** What the camera or the gallery hands back for one image. */
  datatype ImageAsset = ImageAsset(uri: string, fileName: Option<string>, mimeType: Option<string>, size: Option<int>)

  /** What the document picker hands back for one file; `typ` is the older
      `type` field. */
  datatype DocAsset = DocAsset(uri: string, name: Option<string>, mimeType: Option<string>,
                               typ: Option<string>, size: Option<int>)

  /** The photo taken with the camera. */
  function CameraFile(a: ImageAsset): (f: LocalFile)
    ensures f.kind == Image && f.fromCamera && f.uri == a.uri && f.size == a.size
    ensures f.name == Some(OrText(a.fileName, "camera.jpg")) && f.mimeType == Some(OrText(a.mimeType, "image/jpeg"))
  {
    LocalFile(a.uri, Some(OrText(a.fileName, "camera.jpg")), Some(OrText(a.mimeType, "image/jpeg")), a.size, Image, true)
  }

  /** An image chosen from the gallery. */
  function GalleryFile(a: ImageAsset): (f: LocalFile)
    ensures f.kind == Image && !f.fromCamera && f.uri == a.uri && f.size == a.size
    ensures f.name == Some(OrText(a.fileName, "foto.jpg")) && f.mimeType == Some(OrText(a.mimeType, "image/jpeg"))
  {
    LocalFile(a.uri, Some(OrText(a.fileName, "foto.jpg")), Some(OrText(a.mimeType, "image/jpeg")), a.size, Image, false)
  }

  function GalleryFiles(assets: seq<ImageAsset>): (r: seq<LocalFile>)
    ensures |r| == |assets| && forall i :: 0 <= i < |r| ==> r[i] == GalleryFile(assets[i])
  {
    seq(|assets|, i requires 0 <= i < |assets| => GalleryFile(assets[i]))
  }

  /** The file-picker classification: pdf if the lower-cased mime type
      mentions "pdf", else image if it mentions "image", else other. */
  function KindOf(mime: Option<string>): (k: Kind)
    ensures var m := Lower(OrText(mime, ""));
      (k == Pdf <==> Contains(m, "pdf"))
      && (k == Image <==> !Contains(m, "pdf") && Contains(m, "image"))
      && (k == Other <==> !Contains(m, "pdf") && !Contains(m, "image"))
  {
    var m := Lower(OrText(mime, ""));
    if Contains(m, "pdf") then Pdf else if Contains(m, "image") then Image else Other
  }

  /** The last "/"-separated piece of a path. */
  function LastSegment(uri: string): string
  {
    var parts := SplitOn(uri, '/');
    parts[|parts| - 1]
  }

  /** The name of a picked document: its own, else the last piece of its
      path, else "arquivo". */
  function DocName(a: DocAsset): (n: string)
    ensures n != ""
    ensures a.name.Some? && a.name.value != "" ==> n == a.name.value
  {
    if a.name.Some? && a.name.value != "" then a.name.value
    else if a.uri == "" then "arquivo"
    else OrText(Some(LastSegment(a.uri)), "arquivo")
  }

  /** A document chosen with the file picker. */
  function DocFile(a: DocAsset): (f: LocalFile)
    ensures var mime := if a.mimeType.Some? && a.mimeType.value != "" then a.mimeType
                        else if a.typ.Some? && a.typ.value != "" then a.typ else None;
      f.mimeType == mime && f.kind == KindOf(mime)
    ensures f.uri == a.uri && f.name == Some(DocName(a)) && !f.fromCamera
  {
    var mime := if a.mimeType.Some? && a.mimeType.value != "" then a.mimeType
                else if a.typ.Some? && a.typ.value != "" then a.typ else None;
    LocalFile(a.uri, Some(DocName(a)), mime, a.size, KindOf(mime), false)
  }

  function DocFiles(assets: seq<DocAsset>): (r: seq<LocalFile>)
    ensures |r| == |assets| && forall i :: 0 <= i < |r| ==> r[i] == DocFile(assets[i])
  {
    seq(|assets|, i requires 0 <= i < |assets| => DocFile(assets[i]))
  }

  /** What asking the camera or the gallery gave: an error, a refused
      permission, or the assets picked (none when cancelled). */
  datatype ImagePick = PickError | PermissionDenied(canAskAgain: bool) | Picked(assets: seq<ImageAsset>)

  /** What the document picker gave (no assets when cancelled). */
  datatype FilePick = FilePickError | FilesPicked(docs: seq<DocAsset>)

  datatype Alert = Alert(title: string, message: string)

  function DeniedAlert(camera: bool, canAskAgain: bool, ios: bool): Alert
  {
    if !canAskAgain && ios then
      Alert("Permissão necessária",
        if camera then "A câmera está sem permissão para o Expo Go.\n\nPara liberar: Ajustes > Expo Go > Câmera."
        else "A galeria está sem permissão para o Expo Go.\n\nPara liberar: Ajustes > Expo Go > Fotos.")
    else
      Alert("Permissão negada", if camera then "Não foi possível acessar a câmera." else "Não foi possível acessar a galeria.")
  }

  /** The files a camera or gallery pick attaches. */
  function ImageFiles(camera: bool, assets: seq<ImageAsset>): (r: seq<LocalFile>)
    ensures camera ==> |r| == (if |assets| > 0 then 1 else 0)
    ensures !camera ==> |r| == |assets|
  {
    if assets == [] then []
    else if camera then [CameraFile(assets[0])]
    else GalleryFiles(assets)
  }

  // ---------------------------------------------------------------- finishing

  function Bullets(ts: seq<DocType>): (r: seq<string>)
    ensures |r| == |ts| && forall i :: 0 <= i < |ts| ==> r[i] == "• " + Title(ts[i])
  {
    seq(|ts|, i requires 0 <= i < |ts| => "• " + Title(ts[i]))
  }

  /** The alert listing the documents still missing. */
  function PendingAlert(files: Attachments): Alert
  {
    Alert("Documentos pendentes", "Para finalizar é necessário enviar:\n\n" + Join(Bullets(Missing(files)), "\n"))
  }

  /** What the submission gave: a thrown error (with the backend's `error`
      text when it answered with one), or the parsed body. */
  datatype Submission = Threw(backendError: Option<string>, message: string) | Answered(body: Option<Record>)

  const NO_ID_MESSAGE := "Servidor não retornou ID do cadastro (finalizar)."

  /** Whether the registration was created, and the alert otherwise: a body
      without an id is a failure like a thrown error. */
  function FinalizeResult(s: Submission): (r: Option<Alert>)
    ensures r.None? <==> s.Answered? && s.body.Some? && Truthy(Field(s.body.value, "id"))
    ensures s.Answered? && r.Some? ==> r.value.message == NO_ID_MESSAGE
    ensures r.Some? ==> r.value.title == "Falha ao finalizar (Copiado)"
  {
    match s
    case Threw(err, msg) => Some(Alert("Falha ao finalizar (Copiado)", OrText(err, OrText(Some(msg), "Falha ao finalizar"))))
    case Answered(body) =>
      if body.Some? && Truthy(Field(body.value, "id")) then None
      else Some(Alert("Falha ao finalizar (Copiado)", NO_ID_MESSAGE))
  }

  class Screen {
    var files: Attachments
    var open: bool
    var docType: Option<DocType>
    var chooserOpen: bool
    var successOpen: bool
    var resetToLogin: bool
    var alerts: seq<Alert>
    /** The attachments sent with each submission. */
    var submitted: seq<Attachments>

    constructor ()
      ensures files == NO_FILES && !open && docType.None? && !chooserOpen
      ensures !successOpen && !resetToLogin && alerts == [] && submitted == []
    {
      files := NO_FILES;
      open := false;
      docType := None;
      chooserOpen := false;
      successOpen := false;
      resetToLogin := false;
      alerts := [];
      submitted := [];
    }

    method OpenModal(t: DocType)
      modifies this
      ensures docType == Some(t) && open
      ensures files == old(files) && chooserOpen == old(chooserOpen) && alerts == old(alerts) && submitted == old(submitted)
      ensures successOpen == old(successOpen) && resetToLogin == old(resetToLogin)
    {
      docType := Some(t);
      open := true;
    }

    /** `closeModal` closes the modal and the chooser and forgets the
        type. */
    method CloseModal()
      modifies this
      ensures !open && docType.None? && !chooserOpen
      ensures files == old(files) && alerts == old(alerts) && submitted == old(submitted)
      ensures successOpen == old(successOpen) && resetToLogin == old(resetToLogin)
    {
      open := false;
      docType := None;
      chooserOpen := false;
    }

    method OpenChooser()
      modifies this
      ensures chooserOpen
      ensures files == old(files) && open == old(open) && docType == old(docType)
      ensures alerts == old(alerts) && submitted == old(submitted)
      ensures successOpen == old(successOpen) && resetToLogin == old(resetToLogin)
    {
      chooserOpen := true;
    }

    /** Tapping the dimmed backdrop around the chooser closes it and
        nothing else. */
    method CloseChooser()
      modifies this
      ensures !chooserOpen
      ensures files == old(files) && open == old(open) && docType == old(docType)
      ensures alerts == old(alerts) && submitted == old(submitted)
      ensures successOpen == old(successOpen) && resetToLogin == old(resetToLogin)
    {
      chooserOpen := false;
    }

    /** The camera or gallery row of the chooser: it closes the chooser and
        picks; with no document type chosen the pick does nothing. */
    method PickImages(camera: bool, ios: bool, pick: ImagePick)
      modifies this
      ensures !chooserOpen && open == old(open) && docType == old(docType)
      ensures successOpen == old(successOpen) && resetToLogin == old(resetToLogin) && submitted == old(submitted)
      ensures old(docType).None? ==> files == old(files) && alerts == old(alerts)
      ensures old(docType).Some? ==> match pick
        case PickError => files == old(files)
          && alerts == old(alerts) + [Alert("Erro", if camera then "Não foi possível abrir a câmera." else "Não foi possível abrir a galeria.")]
        case PermissionDenied(again) => files == old(files) && alerts == old(alerts) + [DeniedAlert(camera, again, ios)]
        case Picked(assets) => files == AddFiles(old(files), old(docType).value, ImageFiles(camera, assets)) && alerts == old(alerts)
    {
      chooserOpen := false;
      if docType.None? {
        return;
      }
      match pick
      case PickError =>
        alerts := alerts + [Alert("Erro", if camera then "Não foi possível abrir a câmera." else "Não foi possível abrir a galeria.")];
      case PermissionDenied(again) =>
        alerts := alerts + [DeniedAlert(camera, again, ios)];
      case Picked(assets) =>
        files := AddFiles(files, docType.value, ImageFiles(camera, assets));
    }

    /** The file row of the chooser. */
    method PickDocuments(pick: FilePick)
      modifies this
      ensures !chooserOpen && open == old(open) && docType == old(docType)
      ensures successOpen == old(successOpen) && resetToLogin == old(resetToLogin) && submitted == old(submitted)
      ensures old(docType).None? ==> files == old(files) && alerts == old(alerts)
      ensures old(docType).Some? ==> match pick
        case FilePickError => files == old(files) && alerts == old(alerts) + [Alert("Erro", "Não foi possível abrir os arquivos.")]
        case FilesPicked(docs) => files == AddFiles(old(files), old(docType).value, DocFiles(docs)) && alerts == old(alerts)
    {
      chooserOpen := false;
      if docType.None? {
        return;
      }
      match pick
      case FilePickError =>
        alerts := alerts + [Alert("Erro", "Não foi possível abrir os arquivos.")];
      case FilesPicked(docs) =>
        files := AddFiles(files, docType.value, DocFiles(docs));
    }

    /** `onFinalizar`: with a document missing nothing is sent and the
        missing ones are listed; otherwise everything is sent, and only an
        answer carrying an id opens the success modal. */
    method Finalize(s: Submission)
      modifies this
      ensures files == old(files) && open == old(open) && docType == old(docType) && chooserOpen == old(chooserOpen)
      ensures resetToLogin == old(resetToLogin)
      ensures !AllDocsOk(old(files)) ==>
        (submitted == old(submitted) && alerts == old(alerts) + [PendingAlert(old(files))]
         && successOpen == old(successOpen))
      ensures AllDocsOk(old(files)) ==>
        (submitted == old(submitted) + [old(files)]
         && (FinalizeResult(s).None? ==> successOpen && alerts == old(alerts))
         && (FinalizeResult(s).Some? ==> successOpen == old(successOpen) && alerts == old(alerts) + [FinalizeResult(s).value]))
    {
      if !AllDocsOk(files) {
        alerts := alerts + [PendingAlert(files)];
        return;
      }
      submitted := submitted + [files];
      var failure := FinalizeResult(s);
      if failure.Some? {
        alerts := alerts + [failure.value];
      } else {
        successOpen := true;
      }
    }

    /** Four seconds after a success the modal closes and the app goes back
        to the login screen. */
    method SuccessTimerFires()
      modifies this
      ensures !successOpen && resetToLogin
      ensures files == old(files) && open == old(open) && docType == old(docType) && chooserOpen == old(chooserOpen)
      ensures alerts == old(alerts) && submitted == old(submitted)
    {
      successOpen := false;
      resetToLogin := true;
    }
  }
}
