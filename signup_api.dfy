/** Submitting the registration (src/api/signup.ts): the multipart form built
    from the first step's data and the second step's attachments, and how
    the response is read. The HTTP request itself is a parameter: the
    response is given. */
module SignupApi {
  import opened Text
  import opened Json
  import opened SignupDocs
  import SignupForm

  /** `fixUri`: file:// and content:// URIs are kept, anything else is taken
      for a local path. */
  function FixUri(uri: string): (r: string)
    ensures StartsWith(uri, "file://") || StartsWith(uri, "content://") ==> r == uri
    ensures !(StartsWith(uri, "file://") || StartsWith(uri, "content://")) ==> r == "file://" + uri
  {
    if StartsWith(uri, "file://") || StartsWith(uri, "content://") then uri else "file://" + uri
  }

  /** Every fixed URI is a file:// or content:// URI, and fixing it again
      changes nothing. */
  lemma FixUriIdempotent(uri: string)
    ensures StartsWith(FixUri(uri), "file://") || StartsWith(FixUri(uri), "content://")
    ensures FixUri(FixUri(uri)) == FixUri(uri)
  {
    if !(StartsWith(uri, "file://") || StartsWith(uri, "content://")) {
      assert ("file://" + uri)[..7] == "file://";
    }
  }

  /** `s` ends in '.' and `n` letters or digits. */
  predicate ExtensionOf(s: string, n: nat)
  {
    n + 1 <= |s| && s[|s| - n - 1] == '.' && forall k :: |s| - n <= k < |s| ==> IsAlnum(s[k])
  }

  /** `/\.[a-z0-9]{2,4}$/i`. */
  predicate HasExtension(s: string)
  {
    ExtensionOf(s, 2) || ExtensionOf(s, 3) || ExtensionOf(s, 4)
  }

  /** `guessName`: the file's own name when it ends in an extension of 2 to
      4 letters or digits, else the fallback. */
  function GuessName(base: Option<string>, fallback: string): (r: string)
    ensures base.Some? && HasExtension(base.value) ==> r == base.value
    ensures !(base.Some? && HasExtension(base.value)) ==> r == fallback
  {
    if base.Some? && base.value != "" && HasExtension(base.value) then base.value else fallback
  }

  /** The file entry of the form. */
  datatype RNFile = RNFile(uri: string, typ: string, name: string)

  /** The type sent when the file has no mime type of its own. */
  function DefaultType(k: Kind): string
  {
    match k
    case Image => "image/jpeg"
    case Pdf => "application/pdf"
    case Other => "application/octet-stream"
  }

  /** `toRNFile`. */
  function ToRNFile(f: LocalFile, fallbackName: string): (r: RNFile)
    ensures r.uri == FixUri(f.uri) && r.name == GuessName(f.name, fallbackName)
    ensures f.mimeType.Some? && f.mimeType.value != "" ==> r.typ == f.mimeType.value
    ensures !(f.mimeType.Some? && f.mimeType.value != "") ==>
      (f.kind == Image ==> r.typ == "image/jpeg")
      && (f.kind == Pdf ==> r.typ == "application/pdf")
      && (f.kind == Other ==> r.typ == "application/octet-stream")
  {
    RNFile(FixUri(f.uri), OrText(f.mimeType, DefaultType(f.kind)), GuessName(f.name, fallbackName))
  }

  /** One entry of the multipart form. */
  datatype Part = TextPart(key: string, value: string) | FilePart(key: string, file: RNFile) | SummaryPart

  function PayMethodText(m: SignupForm.PayMethod): string
  {
    if m == SignupForm.Pix then "PIX" else "BANCO"
  }

  /** `v ?? ""`. */
  function OrEmpty(o: Option<string>): (r: string)
    ensures o.None? ==> r == ""
    ensures o.Some? ==> r == o.value
  {
    if o.Some? then o.value else ""
  }

  /** The names of the text fields, in the order the payload object lists
      them. */
  const TEXT_FIELDS: seq<string> := ["nome", "celular", "email", "endereco", "modal", "placa", "nascimento",
    "cpf", "cnpj", "pay_method", "pix_type", "pix_key", "pix_bank", "bank_name", "agencia", "conta"]

  /** No text field is sent twice. */
  lemma TextFieldsDistinct()
    ensures forall i, j :: 0 <= i < j < |TEXT_FIELDS| ==> TEXT_FIELDS[i] != TEXT_FIELDS[j]
  {
    forall i, j | 0 <= i < j < |TEXT_FIELDS|
      ensures TEXT_FIELDS[i] != TEXT_FIELDS[j]
    {
      var a, b := TEXT_FIELDS[i], TEXT_FIELDS[j];
      assert |a| != |b| || a[0] != b[0] || a[|a| - 1] != b[|b| - 1];
    }
  }

  /** The text fields: one per name, in order, each name once; the
      registration's texts as they are, the payment method as "PIX" or
      "BANCO", and every optional field that is absent as "". */
  function TextParts(p: SignupForm.Payload): (r: seq<Part>)
    ensures |r| == |TEXT_FIELDS| == 16
    ensures forall i :: 0 <= i < |r| ==> r[i].TextPart? && r[i].key == TEXT_FIELDS[i]
  {
    [TextPart("nome", p.nome), TextPart("celular", p.celular), TextPart("email", p.email),
     TextPart("endereco", p.endereco), TextPart("modal", p.modal), TextPart("placa", p.placa),
     TextPart("nascimento", p.nascimento), TextPart("cpf", p.cpf), TextPart("cnpj", OrEmpty(p.cnpj)),
     TextPart("pay_method", PayMethodText(p.payMethod)),
     TextPart("pix_type", OrEmpty(p.pixType)), TextPart("pix_key", OrEmpty(p.pixKey)),
     TextPart("pix_bank", OrEmpty(p.pixBank)), TextPart("bank_name", OrEmpty(p.bankName)),
     TextPart("agencia", OrEmpty(p.agencia)), TextPart("conta", OrEmpty(p.conta))]
  }

  /** The value each text field carries: the registration's texts as they
      are, the payment method as "PIX" or "BANCO", and every optional field
      that is absent as "". */
  lemma TextPartsValues(p: SignupForm.Payload)
    ensures var r := TextParts(p);
      r[0].value == p.nome && r[1].value == p.celular && r[2].value == p.email
      && r[3].value == p.endereco && r[4].value == p.modal && r[5].value == p.placa
      && r[6].value == p.nascimento && r[7].value == p.cpf
      && r[9].value == (if p.payMethod == SignupForm.Pix then "PIX" else "BANCO")
      && r[8].value == OrEmpty(p.cnpj) && r[10].value == OrEmpty(p.pixType) && r[11].value == OrEmpty(p.pixKey)
      && r[12].value == OrEmpty(p.pixBank) && r[13].value == OrEmpty(p.bankName)
      && r[14].value == OrEmpty(p.agencia) && r[15].value == OrEmpty(p.conta)
  {
  }

  /** What a passed form sends: the details of the other way of being paid
      go as empty texts, and so does a CNPJ left blank. */
  lemma SentPayload(f: SignupForm.Form)
    requires SignupForm.Validate(f).None?
    ensures var t := TextParts(SignupForm.CadastroParcial(f));
      (f.cnpj == "" ==> t[8].value == "")
      && (f.payMethod == Some(SignupForm.Pix) ==>
            t[9].value == "PIX" && t[11].value == f.pixKey && t[11].value != ""
            && t[13].value == "" && t[14].value == "" && t[15].value == "")
      && (f.payMethod == Some(SignupForm.Banco) ==>
            t[9].value == "BANCO" && t[10].value == "" && t[11].value == "" && t[12].value == ""
            && t[14].value == f.agencia && t[14].value != "" && t[15].value == f.conta && t[15].value != "")
  {
    SignupForm.PayloadHasOneMethod(f);
    TextPartsValues(SignupForm.CadastroParcial(f));
  }

  /** The form field of a document type. */
  function FieldName(t: DocType): string
  {
    match t
    case FotoEntregador => "foto_entregador"
    case DocEntregador => "doc_entregador"
    case DocVeiculo => "doc_veiculo"
    case ComprovanteResidencia => "comprovante_residencia"
  }

  /** The name a file of type `t` at position `i` gets when its own has no
      extension. */
  function FallbackName(t: DocType, i: nat): string
  {
    var prefix := match t
      case FotoEntregador => "selfie_"
      case DocEntregador => "doc_pessoa_"
      case DocVeiculo => "doc_veiculo_"
      case ComprovanteResidencia => "comp_resid_";
    prefix + NatToString(i) + ".jpg"
  }

  lemma FallbackHasExtension(t: DocType, i: nat)
    ensures ExtensionOf(FallbackName(t, i), 3)
  {
    var s := FallbackName(t, i);
    assert s[|s| - 4..] == ".jpg";
  }

  /** The entry for the `i`-th file of type `t`. */
  function FileEntry(t: DocType, list: seq<LocalFile>, i: nat): Part
    requires i < |list|
  {
    FilePart(FieldName(t) + "[]", ToRNFile(list[i], FallbackName(t, i)))
  }

  /** The entries for the first `n` files of type `t`. */
  function FileEntries(t: DocType, list: seq<LocalFile>, n: nat): (r: seq<Part>)
    requires n <= |list|
    ensures |r| == n && forall i :: 0 <= i < n ==> r[i] == FileEntry(t, list, i)
  {
    seq(n, i requires 0 <= i < n => FileEntry(t, list, i))
  }

  /** Every file goes under "<field>[]", in list order, with a name that has
      an extension: its own, or the numbered fallback for its type. */
  lemma FileEntriesNamed(t: DocType, list: seq<LocalFile>)
    ensures var r := FileEntries(t, list, |list|);
      forall i :: 0 <= i < |r| ==>
        r[i].FilePart? && r[i].key == FieldName(t) + "[]" && HasExtension(r[i].file.name)
        && r[i].file.uri == FixUri(list[i].uri)
        && ((list[i].name.Some? && r[i].file.name == list[i].name.value) || r[i].file.name == FallbackName(t, i))
  {
    forall i | 0 <= i < |list|
      ensures HasExtension(ToRNFile(list[i], FallbackName(t, i)).name)
    {
      FallbackHasExtension(t, i);
    }
  }

  lemma FileEntriesSnoc(t: DocType, list: seq<LocalFile>, n: nat)
    requires n < |list|
    ensures FileEntries(t, list, n + 1) == FileEntries(t, list, n) + [FileEntry(t, list, n)]
  {
    var a := FileEntries(t, list, n + 1);
    var b := FileEntries(t, list, n) + [FileEntry(t, list, n)];
    assert |a| == |b|;
    forall i | 0 <= i < |a|
      ensures a[i] == b[i]
    {
      if i < n {
        assert b[i] == FileEntries(t, list, n)[i];
      }
    }
  }

  /** One `forEach` over a document type's files, appending an entry per
      file. */
  method AppendFiles(parts: seq<Part>, t: DocType, list: seq<LocalFile>) returns (out: seq<Part>)
    ensures out == parts + FileEntries(t, list, |list|)
  {
    out := parts;
    var i := 0;
    while i < |list|
      invariant 0 <= i <= |list|
      invariant out == parts + FileEntries(t, list, i)
    {
      FileEntriesSnoc(t, list, i);
      out := out + [FileEntry(t, list, i)];
      i := i + 1;
    }
  }

  /** The whole form: the text fields, then each type's files in checklist
      order, then the summary. */
  function FormSpec(p: SignupForm.Payload, files: Attachments): seq<Part>
  {
    TextParts(p)
    + FileEntries(FotoEntregador, files.foto, |files.foto|)
    + FileEntries(DocEntregador, files.docEntregador, |files.docEntregador|)
    + FileEntries(DocVeiculo, files.docVeiculo, |files.docVeiculo|)
    + FileEntries(ComprovanteResidencia, files.comprovante, |files.comprovante|)
    + [SummaryPart]
  }

  /** The form sends one entry per attached file. */
  lemma FormSize(p: SignupForm.Payload, files: Attachments)
    ensures |FormSpec(p, files)| == 17 + |files.foto| + |files.docEntregador| + |files.docVeiculo| + |files.comprovante|
  {
  }

  method BuildForm(p: SignupForm.Payload, files: Attachments) returns (parts: seq<Part>)
    ensures parts == FormSpec(p, files)
  {
    parts := TextParts(p);
    parts := AppendFiles(parts, FotoEntregador, files.foto);
    parts := AppendFiles(parts, DocEntregador, files.docEntregador);
    parts := AppendFiles(parts, DocVeiculo, files.docVeiculo);
    parts := AppendFiles(parts, ComprovanteResidencia, files.comprovante);
    parts := parts + [SummaryPart];
  }

  /** The response: whether it is OK, the debug text the error carries, and
      the parsed body when it is an object. */
  datatype Response = Response(ok: bool, debugInfo: string, body: Option<Record>)

  /** `finalizarCadastro`'s result as the second step sees it: a non-OK
      response throws, and only an OK one is parsed. */
  function Outcome(res: Response): (s: Submission)
    ensures !res.ok ==> s == Threw(None, "Falha ao finalizar: " + res.debugInfo)
    ensures res.ok ==> s == Answered(res.body)
  {
    if !res.ok then Threw(None, "Falha ao finalizar: " + res.debugInfo) else Answered(res.body)
  }

  /** A non-OK response is always reported as a failure carrying its debug
      text, whatever its body says; an OK one succeeds exactly when its body
      has an id. */
  lemma NonOkFails(res: Response)
    ensures !res.ok ==>
      (FinalizeResult(Outcome(res)).Some?
       && FinalizeResult(Outcome(res)).value.message == "Falha ao finalizar: " + res.debugInfo)
    ensures res.ok ==> (FinalizeResult(Outcome(res)).None? <==> res.body.Some? && Truthy(Field(res.body.value, "id")))
  {
    var prefix := "Falha ao finalizar: ";
    assert prefix + res.debugInfo != "";
  }
}
