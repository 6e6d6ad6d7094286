/** The earnings report (src/screens/RecebimentosReport.tsx): the finished
    deliveries of the chosen period, and the credits and debits of the
    courier split into fixed-shift credits and the other credits. The
    backend lists and the time-zone conversion of `created_at` are inputs;
    money totals are not part of this model. */
module Reports {
  import opened Text
  import opened Json
  import opened DateText
  import opened Seqs

  // ---------------------------------------------------------------------
  // Finished deliveries
  // ---------------------------------------------------------------------

  /** A finished delivery as the report reads it: its two date fields and
      the three fields that may name its courier. */
  datatype Finalizada = Finalizada(
    id: int,
    agendadoAtBr: Option<string>,
    postedAtClient: Option<string>,
    atribuidoMotoboy: Option<string>,
    entregadorNome: Option<string>,
    motoboyNome: Option<string>)

  /** `pickEntregaDate`: the scheduled date "dd/mm/yyyy" when it parses,
      else the posted date "yyyy-mm-dd". A "0" in either field counts as
      absent; the parsers reject it anyway. */
  function PickEntregaDate(row: Finalizada): (r: Option<Ymd>)
    ensures ParseBRDate(row.agendadoAtBr).Some? ==> r == ParseBRDate(row.agendadoAtBr)
    ensures ParseBRDate(row.agendadoAtBr).None? ==> r == ParseISODateOnly(row.postedAtClient)
  {
    var ag := if row.agendadoAtBr.Some? && row.agendadoAtBr.value != "" && row.agendadoAtBr.value != "0" then row.agendadoAtBr else None;
    var po := if row.postedAtClient.Some? && row.postedAtClient.value != "" && row.postedAtClient.value != "0" then row.postedAtClient else None;
    assert ParseBRDate(Some("0")).None? && ParseISODateOnly(Some("0")).None?;
    var byAg := ParseBRDate(ag);
    if byAg.Some? then byAg else ParseISODateOnly(po)
  }

  /** `normalizeStr`: trimmed and lower-cased; "" for a missing or empty
      text. */
  function NormalizeStr(s: Option<string>): (r: string)
    ensures s.None? || s.value == "" ==> r == ""
    ensures s.Some? && s.value != "" ==> r == Lower(Trim(s.value))
  {
    if s.Some? && s.value != "" then Lower(Trim(s.value)) else ""
  }

  /** `atribuido_motoboy ?? entregador_nome ?? motoboy_nome ?? null`: the
      first field that is present, even when it is empty. */
  function Assignee(row: Finalizada): (r: Option<string>)
    ensures row.atribuidoMotoboy.Some? ==> r == row.atribuidoMotoboy
    ensures row.atribuidoMotoboy.None? && row.entregadorNome.Some? ==> r == row.entregadorNome
    ensures row.atribuidoMotoboy.None? && row.entregadorNome.None? ==> r == row.motoboyNome
  {
    if row.atribuidoMotoboy.Some? then row.atribuidoMotoboy
    else if row.entregadorNome.Some? then row.entregadorNome
    else row.motoboyNome
  }

  /** The name fields `getMotoboyFullName` tries, in order, as one `??`
      chain. */
  lemma NameChain(user: Record)
    ensures Coalesce(user, ["nome_completo", "nome", "full_name", "name"])
      == OrElse(Field(user, "nome_completo"), OrElse(Field(user, "nome"),
           OrElse(Field(user, "full_name"), OrElse(Field(user, "name"), VNull))))
  {
    var k4: seq<string> := ["name"];
    var k3 := ["full_name"] + k4;
    var k2 := ["nome"] + k3;
    var k1 := ["nome_completo"] + k2;
    assert k4[1..] == [] && k3[1..] == k4 && k2[1..] == k3 && k1[1..] == k2;
    assert Coalesce(user, k4) == OrElse(Field(user, "name"), VNull);
    assert Coalesce(user, k3) == OrElse(Field(user, "full_name"), Coalesce(user, k4));
    assert Coalesce(user, k2) == OrElse(Field(user, "nome"), Coalesce(user, k3));
    assert Coalesce(user, k1) == OrElse(Field(user, "nome_completo"), Coalesce(user, k2));
    assert k1 == ["nome_completo", "nome", "full_name", "name"];
  }

  /** `getMotoboyFullName` normalized: the first of the user's name fields
      that is present, as text, trimmed and lower-cased. */
  function SelfNorm(user: Record): (r: string)
    ensures Coalesce(user, ["nome_completo", "nome", "full_name", "name"]) == VNull ==> r == ""
    ensures !Nullish(Field(user, "nome_completo")) ==>
      r == NormalizeStr(Some(Trim(ToStr(Field(user, "nome_completo")))))
    ensures Nullish(Field(user, "nome_completo")) && !Nullish(Field(user, "nome")) ==>
      r == NormalizeStr(Some(Trim(ToStr(Field(user, "nome")))))
    ensures Nullish(Field(user, "nome_completo")) && Nullish(Field(user, "nome")) && !Nullish(Field(user, "full_name"))
      ==> r == NormalizeStr(Some(Trim(ToStr(Field(user, "full_name")))))
    ensures Nullish(Field(user, "nome_completo")) && Nullish(Field(user, "nome")) && Nullish(Field(user, "full_name"))
      && !Nullish(Field(user, "name"))
      ==> r == NormalizeStr(Some(Trim(ToStr(Field(user, "name")))))
  {
    NameChain(user);
    var v := Coalesce(user, ["nome_completo", "nome", "full_name", "name"]);
    NormalizeStr(Some(if v == VNull then "" else Trim(ToStr(v))))
  }

  /** Whether a delivery is the courier's own by name. */
  predicate OwnedBy(selfNorm: string, row: Finalizada)
  {
    NormalizeStr(Assignee(row)) == selfNorm
  }

  /** Step 3 of `load`: the name filter, applied only when the courier's own
      name is not empty. */
  function ByMotoboy(list: seq<Finalizada>, selfNorm: string): (r: seq<Finalizada>)
    ensures selfNorm == "" ==> r == list
    ensures selfNorm != "" ==> forall x :: x in r <==> x in list && NormalizeStr(Assignee(x)) == selfNorm
  {
    if selfNorm != "" then
      var owned := row => OwnedBy(selfNorm, row);
      FilterMembers(list, owned);
      Filter(list, owned)
    else list
  }

  /** A delivery with the date it counts for (`_entregaDate`) and that
      date's text (`_entregaYMD`). */
  datatype Dated = Dated(row: Finalizada, date: Ymd, ymd: string)

  /** A delivery stays in the period when it has a date whose text lies
      between the two bounds, both included. */
  predicate InPeriod(row: Finalizada, from: string, to: string)
  {
    PickEntregaDate(row).Some?
    && StrLe(from, YmdText(PickEntregaDate(row).value))
    && StrLe(YmdText(PickEntregaDate(row).value), to)
  }

  /** A delivery of the period with its date. */
  function Stamp(row: Finalizada): Dated
    requires PickEntregaDate(row).Some?
  {
    Dated(row, PickEntregaDate(row).value, YmdText(PickEntregaDate(row).value))
  }

  /** Step 4 of `load` before sorting: each delivery with its date, kept when
      it is in the period, in list order. */
  function Period(list: seq<Finalizada>, from: string, to: string): (r: seq<Dated>)
    ensures forall x :: x in r ==> x.row in list && InPeriod(x.row, from, to) && Some(x.date) == PickEntregaDate(x.row) && x.ymd == YmdText(x.date)
    ensures forall row :: row in list && InPeriod(row, from, to) ==> Stamp(row) in r
  {
    if list == [] then []
    else
      var rest := Period(list[1..], from, to);
      assert list == [list[0]] + list[1..];
      if InPeriod(list[0], from, to) then [Stamp(list[0])] + rest else rest
  }

  /** On fixed-width dates the period test is the date range test. */
  lemma InPeriodIsDateRange(row: Finalizada, from: Ymd, to: Ymd)
    requires Canonical(from) && Canonical(to)
    requires PickEntregaDate(row).Some? && PickEntregaDate(row).value.y >= 1000
    ensures InPeriod(row, YmdText(from), YmdText(to))
      <==> YmdLe(from, PickEntregaDate(row).value) && YmdLe(PickEntregaDate(row).value, to)
  {
    var d := PickEntregaDate(row).value;
    YmdTextOrder(from, d);
    YmdTextOrder(d, to);
  }

  /** Ascending by key. */
  predicate RowsSorted(s: seq<Dated>)
  {
    forall i :: 0 <= i < |s| - 1 ==> StrLe(s[i].ymd, s[i + 1].ymd)
  }

  /** Puts `x` before the first element whose key is not below its own. */
  function InsertRow(x: Dated, s: seq<Dated>): (r: seq<Dated>)
    ensures multiset(r) == multiset(s) + multiset{x}
    ensures |r| == |s| + 1 && (r[0] == x || (s != [] && r[0] == s[0]))
    ensures RowsSorted(s) ==> RowsSorted(r)
  {
    if s == [] then [x]
    else if StrLe(x.ymd, s[0].ymd) then [x] + s
    else
      StrLeTotal(x.ymd, s[0].ymd);
      assert s == [s[0]] + s[1..];
      var rest := InsertRow(x, s[1..]);
      assert RowsSorted(s) ==> StrLe(s[0].ymd, rest[0].ymd);
      assert forall i :: 1 <= i < |rest| + 1 ==> ([s[0]] + rest)[i] == rest[i - 1];
      [s[0]] + rest
  }

  /** The `sort` by `localeCompare` of the keys: a stable insertion sort. */
  function SortRows(s: seq<Dated>): (r: seq<Dated>)
    ensures multiset(r) == multiset(s)
    ensures RowsSorted(r)
  {
    if s == [] then []
    else
      assert s == [s[0]] + s[1..];
      InsertRow(s[0], SortRows(s[1..]))
  }

  /** `load`'s rows. */
  function ReportRows(list: seq<Finalizada>, selfNorm: string, from: string, to: string): seq<Dated>
  {
    SortRows(Period(ByMotoboy(list, selfNorm), from, to))
  }

  /** The report lists exactly the deliveries of the period, with the name
      filter only when the courier has a name, ascending by date. */
  lemma ReportRowsProperties(list: seq<Finalizada>, selfNorm: string, from: string, to: string)
    ensures RowsSorted(ReportRows(list, selfNorm, from, to))
    ensures forall x :: x in ReportRows(list, selfNorm, from, to) <==>
      x.row in list && (selfNorm != "" ==> OwnedBy(selfNorm, x.row))
      && InPeriod(x.row, from, to) && Some(x.date) == PickEntregaDate(x.row) && x.ymd == YmdText(x.date)
  {
    var p := Period(ByMotoboy(list, selfNorm), from, to);
    var r := ReportRows(list, selfNorm, from, to);
    forall x
      ensures x in r <==> x in p
    {
      assert x in r <==> multiset(r)[x] > 0;
      assert x in p <==> multiset(p)[x] > 0;
    }
  }

  // ---------------------------------------------------------------------
  // Credits and debits
  // ---------------------------------------------------------------------

  /** `new Date(created_at)`: its instant and its local calendar day. */
  datatype Instant = Instant(ms: int, local: Ymd)

  /** A credit/debit entry as the backend lists it. `createdAt` is `None`
      when the field is missing or empty. */
  datatype CardEntry = CardEntry(
    id: int,
    entregadorCard: Value,
    tipoTransacao: Value,
    dataCard: Option<string>,
    createdAt: Option<Instant>,
    observacoes: Option<string>)

  datatype Tipo = Credito | Debito

  /** The report's `Lancamento`. */
  datatype Lancamento = Lancamento(
    id: int,
    tipo: Tipo,
    dataCard: Option<string>,
    createdAt: Option<Instant>,
    observacoes: Option<string>)

  /** The day an entry counts for: the date text of `data_card`, else the
      local day of `created_at`. */
  function RefDay(e: CardEntry): (r: Option<string>)
    ensures PickISO(e.dataCard).Some? ==> r == PickISO(e.dataCard)
    ensures PickISO(e.dataCard).None? && e.createdAt.Some? ==> r == Some(YmdText(e.createdAt.value.local))
    ensures r.None? <==> PickISO(e.dataCard).None? && e.createdAt.None?
  {
    var card := PickISO(e.dataCard);
    if card.Some? then card
    else if e.createdAt.Some? then Some(YmdText(e.createdAt.value.local))
    else None
  }

  /** `inRange`: the entry's day lies between the bounds, both included;
      an entry with no day is out. */
  predicate EntryInRange(e: CardEntry, from: string, to: string)
  {
    RefDay(e).Some? && StrLe(from, RefDay(e).value) && StrLe(RefDay(e).value, to)
  }

  /** `mine`'s test: the entry is the courier's and in the period. */
  predicate Mine(userId: Value, from: string, to: string, e: CardEntry)
  {
    ToStr(e.entregadorCard) == ToStr(userId) && EntryInRange(e, from, to)
  }

  /** `map`: the type is Debito only for exactly "Debito"; an empty note
      becomes null. */
  function ToLancamento(e: CardEntry): (r: Lancamento)
    ensures r.tipo == Debito <==> ToStr(e.tipoTransacao) == "Debito"
    ensures r.observacoes.Some? <==> e.observacoes.Some? && e.observacoes.value != ""
    ensures r.observacoes.Some? ==> r.observacoes == e.observacoes
    ensures r.id == e.id && r.dataCard == e.dataCard && r.createdAt == e.createdAt
  {
    Lancamento(
      e.id,
      if ToStr(e.tipoTransacao) == "Debito" then Debito else Credito,
      e.dataCard, e.createdAt,
      if e.observacoes.Some? && e.observacoes.value != "" then e.observacoes else None)
  }

  /** `list.map(ToLancamento)`. */
  function MapEntries(s: seq<CardEntry>): (r: seq<Lancamento>)
    ensures |r| == |s| && forall i :: 0 <= i < |s| ==> r[i] == ToLancamento(s[i])
  {
    seq(|s|, i requires 0 <= i < |s| => ToLancamento(s[i]))
  }

  /** The entry's type in lower case is `word`. */
  predicate TypedAs(word: string, e: CardEntry)
  {
    Lower(ToStr(e.tipoTransacao)) == word
  }

  /** `mine.filter(...)`: the courier's entries of the period whose type is
      `word` in any case. */
  predicate Listed(userId: Value, from: string, to: string, word: string, e: CardEntry)
  {
    Mine(userId, from, to, e) && TypedAs(word, e)
  }

  /** `fetchCredDeb`'s credits or debits: the listed entries, mapped, in
      backend order. */
  function EntriesOf(arr: seq<CardEntry>, userId: Value, from: string, to: string, word: string): seq<Lancamento>
  {
    MapEntries(Filter(arr, e => Listed(userId, from, to, word, e)))
  }

  function Creditos(arr: seq<CardEntry>, userId: Value, from: string, to: string): seq<Lancamento>
  {
    EntriesOf(arr, userId, from, to, "credito")
  }

  function Debitos(arr: seq<CardEntry>, userId: Value, from: string, to: string): seq<Lancamento>
  {
    EntriesOf(arr, userId, from, to, "debito")
  }

  /** Each mapped entry comes from a kept backend entry, and each kept
      backend entry is mapped. */
  lemma MapFilterMembers(arr: seq<CardEntry>, p: CardEntry -> bool)
    ensures forall c :: c in MapEntries(Filter(arr, p)) ==> exists e :: e in arr && p(e) && c == ToLancamento(e)
    ensures forall e :: e in arr && p(e) ==> ToLancamento(e) in MapEntries(Filter(arr, p))
  {
    var f := Filter(arr, p);
    FilterMembers(arr, p);
    forall c | c in MapEntries(f)
      ensures exists e :: e in arr && p(e) && c == ToLancamento(e)
    {
      var i :| 0 <= i < |f| && c == MapEntries(f)[i];
      assert f[i] in f;
    }
    forall e | e in arr && p(e)
      ensures ToLancamento(e) in MapEntries(f)
    {
      var i :| 0 <= i < |f| && f[i] == e;
      assert MapEntries(f)[i] == ToLancamento(e);
    }
  }

  /** Each entry of the list comes from a listed backend entry, and each
      listed backend entry is in the list. */
  lemma EntriesOfMembers(arr: seq<CardEntry>, userId: Value, from: string, to: string, word: string)
    ensures forall c :: c in EntriesOf(arr, userId, from, to, word) ==>
      exists e :: e in arr && Listed(userId, from, to, word, e) && c == ToLancamento(e)
    ensures forall e :: e in arr && Listed(userId, from, to, word, e) ==>
      ToLancamento(e) in EntriesOf(arr, userId, from, to, word)
  {
    MapFilterMembers(arr, e => Listed(userId, from, to, word, e));
  }

  /** "Debito" in lower case is not "credito". */
  lemma DebitoIsNotCredito(s: string)
    requires Lower(s) == "credito"
    ensures s != "Debito"
  {
  }

  /** Every credit is a courier's own "credito" entry of the period, in any
      case, and is mapped as a Credito; every debit is a courier's own
      "debito" entry of the period. No entry is listed as both. */
  lemma CreditsAndDebits(arr: seq<CardEntry>, userId: Value, from: string, to: string)
    ensures forall c :: c in Creditos(arr, userId, from, to) ==> c.tipo == Credito
    ensures forall c :: c in Creditos(arr, userId, from, to) ==>
      exists e :: e in arr && Listed(userId, from, to, "credito", e) && c == ToLancamento(e)
    ensures forall c :: c in Debitos(arr, userId, from, to) ==>
      exists e :: e in arr && Listed(userId, from, to, "debito", e) && c == ToLancamento(e)
    ensures forall e :: e in arr ==> !(TypedAs("credito", e) && TypedAs("debito", e))
  {
    EntriesOfMembers(arr, userId, from, to, "credito");
    EntriesOfMembers(arr, userId, from, to, "debito");
    forall c | c in Creditos(arr, userId, from, to)
      ensures c.tipo == Credito
    {
      var e :| e in arr && Listed(userId, from, to, "credito", e) && c == ToLancamento(e);
      DebitoIsNotCredito(ToStr(e.tipoTransacao));
    }
  }

  // ---------------------------------------------------------------------
  // Fixed-shift credits
  // ---------------------------------------------------------------------

  /** `isTurnoFixoObs`: the note starts with "turno fixo" in any case. */
  predicate IsTurnoFixoObs(obs: Option<string>)
  {
    obs.Some? && obs.value != "" && StartsWith(Lower(obs.value), "turno fixo")
  }

  predicate IsTurno(c: Lancamento)
  {
    c.tipo == Credito && IsTurnoFixoObs(c.observacoes)
  }

  predicate NotTurno(c: Lancamento)
  {
    !IsTurno(c)
  }

  /** `dPref`: the `data_card` date when the field is set (nothing when it
      does not parse), else the `created_at` instant. */
  datatype DatePref = CardDay(day: Ymd) | CreatedAt(at: Instant) | NoDate

  function Preferred(c: Lancamento): (r: DatePref)
    ensures c.dataCard.Some? && c.dataCard.value != "" ==>
      (r == NoDate <==> ParseISODateOnly(c.dataCard).None?)
    ensures (c.dataCard.None? || c.dataCard.value == "") ==>
      (c.createdAt.Some? ==> r == CreatedAt(c.createdAt.value)) && (c.createdAt.None? ==> r == NoDate)
  {
    if c.dataCard.Some? && c.dataCard.value != "" then
      var d := ParseISODateOnly(c.dataCard);
      if d.Some? then CardDay(d.value) else NoDate
    else if c.createdAt.Some? then CreatedAt(c.createdAt.value)
    else NoDate
  }

  /** `_dataView`. */
  function DataView(c: Lancamento): (r: string)
    ensures Preferred(c) == NoDate ==> r == "—"
    ensures Preferred(c).CardDay? ==> r == FmtDate(Preferred(c).day)
    ensures Preferred(c).CreatedAt? ==> r == FmtDate(Preferred(c).at.local)
  {
    match Preferred(c)
    case CardDay(x) => FmtDate(x)
    case CreatedAt(i) => FmtDate(i.local)
    case NoDate => "—"
  }

  /** The sort key: `getTime()` of the preferred date, 0 without one.
      `noon` is the instant of local noon of a day. */
  function TurnoKey(c: Lancamento, noon: Ymd -> int): int
  {
    match Preferred(c)
    case CardDay(x) => noon(x)
    case CreatedAt(i) => i.ms
    case NoDate => 0
  }

  predicate TurnosSorted(s: seq<Lancamento>, noon: Ymd -> int)
  {
    forall i :: 0 <= i < |s| - 1 ==> TurnoKey(s[i], noon) <= TurnoKey(s[i + 1], noon)
  }

  function InsertTurno(x: Lancamento, s: seq<Lancamento>, noon: Ymd -> int): (r: seq<Lancamento>)
    ensures multiset(r) == multiset(s) + multiset{x}
    ensures |r| == |s| + 1 && (r[0] == x || (s != [] && r[0] == s[0]))
    ensures TurnosSorted(s, noon) ==> TurnosSorted(r, noon)
  {
    if s == [] then [x]
    else if TurnoKey(x, noon) <= TurnoKey(s[0], noon) then [x] + s
    else
      assert s == [s[0]] + s[1..];
      [s[0]] + InsertTurno(x, s[1..], noon)
  }

  /** The `sort` by `da - db`: a stable insertion sort. */
  function SortTurnos(s: seq<Lancamento>, noon: Ymd -> int): (r: seq<Lancamento>)
    ensures multiset(r) == multiset(s)
    ensures TurnosSorted(r, noon)
  {
    if s == [] then []
    else
      assert s == [s[0]] + s[1..];
      InsertTurno(s[0], SortTurnos(s[1..], noon), noon)
  }

  /** `turnosFixo`. */
  function TurnosFixo(creditos: seq<Lancamento>, noon: Ymd -> int): seq<Lancamento>
  {
    SortTurnos(Filter(creditos, IsTurno), noon)
  }

  /** `creditosGerais`. */
  function CreditosGerais(creditos: seq<Lancamento>): seq<Lancamento>
  {
    Filter(creditos, NotTurno)
  }

  /** The fixed-shift credits and the other credits partition the credits:
      each credit is in exactly one of them, as often as it occurs; the
      fixed-shift ones are ascending by date and are exactly the credits
      whose note starts with "turno fixo". */
  lemma TurnoPartition(creditos: seq<Lancamento>, noon: Ymd -> int)
    ensures multiset(TurnosFixo(creditos, noon)) + multiset(CreditosGerais(creditos)) == multiset(creditos)
    ensures TurnosSorted(TurnosFixo(creditos, noon), noon)
    ensures forall c :: c in TurnosFixo(creditos, noon) <==> c in creditos && IsTurno(c)
    ensures forall c :: c in CreditosGerais(creditos) <==> c in creditos && !IsTurno(c)
  {
    FilterPartition(creditos, IsTurno, NotTurno);
    FilterMembers(creditos, IsTurno);
    FilterMembers(creditos, NotTurno);
    var f := Filter(creditos, IsTurno);
    var t := TurnosFixo(creditos, noon);
    forall c
      ensures c in t <==> c in f
    {
      assert c in t <==> multiset(t)[c] > 0;
      assert c in f <==> multiset(f)[c] > 0;
    }
  }

  /** Among the report's credits the split depends only on the note. */
  lemma TurnoOfCredits(arr: seq<CardEntry>, userId: Value, from: string, to: string)
    ensures forall c :: c in Creditos(arr, userId, from, to) ==> (IsTurno(c) <==> IsTurnoFixoObs(c.observacoes))
  {
    CreditsAndDebits(arr, userId, from, to);
  }
}
