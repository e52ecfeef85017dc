/**
 * What the two Excel exporters (lib/excel_exporter.py and its older variant lib/exporter.py)
 * share: the rows and sheets they produce, the reading of a stored quote record into the
 * values the client sheet shows, the client sheet's header, run-length and price rows, the
 * machine-clicks fallback, and the role test that decides whether technical sheets are written.
 */
module Sheets {
  import opened Wrappers
  import opened PyValues
  import opened RolePermissions
  import opened SeqFacts
  import Cotizador

  /** A spreadsheet cell: a stored value as is, or text built by an f-string. */
  datatype Cell = Val(v: Json) | Txt(t: Text)

  /** A `(Campo, Valor)` row of the client sheet. */
  datatype Field = Field(campo: string, valor: Cell)

  /** A `(Sección, Concepto, Valor)` row of the technical sheet. */
  datatype DetailRow = DetailRow(seccion: string, concepto: string, valor: Cell)

  datatype Sheet =
    | ClientSheet(fields: seq<Field>)
    | DetailSheet(rows: seq<DetailRow>)
    | ExtrasSheet(items: Option<Json>)  // None: an empty frame with the columns concepto and importe

  datatype NamedSheet = NamedSheet(name: string, sheet: Sheet)

  const ClientSheetName: string := "Cotizacion (Cliente)"
  const DetailSheetName: string := "Desglose tecnico"
  const ExtrasSheetName: string := "Adicionales"

  // ---------------------------------------------------------------------------------
  // The role test
  // ---------------------------------------------------------------------------------

  /** `role in {"admin", "cotizador"}`, on the role string exactly as passed in. */
  predicate CanSeeDetail(role: string) {
    role == RoleAdmin || role == RoleCotizador
  }

  /**
   * The exporters' test agrees with the capability table for the exact role names, and is
   * stricter than it otherwise: a role that passes can export technical data and see costs,
   * while a spelling such as " Admin " that the table accepts as admin does not pass.
   */
  lemma CanSeeDetailImpliesCapability(role: string)
    ensures CanSeeDetail(role) ==> PermissionsFor(role).canExportTech && PermissionsFor(role).canViewCosts
    ensures CanSeeDetail(role) ==> NormalizeRole(role) == role
    ensures !CanSeeDetail(RoleVendedor) && !PermissionsFor(RoleVendedor).canExportTech
    ensures !CanSeeDetail(" Admin ") && PermissionsFor(" Admin ").canExportTech
  {
    if CanSeeDetail(role) {
      RoleNamesAreNormal(role);
    }
    RoleNamesAreNormal(RoleVendedor);
    NormalizeExamples();
    RoleNamesAreNormal(RoleAdmin);
  }

  // ---------------------------------------------------------------------------------
  // Reading a stored quote
  // ---------------------------------------------------------------------------------

  /** `"Libro" in str(v)`: `str` of a list or dict shows every nested string and key. */
  predicate MentionsLibro(v: Json) {
    match v
    case JStr(s) => IsSubstring("Libro", s)
    case JList(xs) => exists i :: 0 <= i < |xs| && MentionsLibro(xs[i])
    case JObj(m) => exists k :: k in m && (IsSubstring("Libro", k) || MentionsLibro(m[k]))
    case _ => false
  }

  /** The side count a record without `lados` gets: 2 when the product mentions "Libro", else 1. */
  function DefaultLados(tipo: Json): (d: Json)
    ensures PyInt(d) == Some(1) || PyInt(d) == Some(2)
    ensures PyInt(d) == Some(2) <==> MentionsLibro(tipo)
  {
    JInt(if MentionsLibro(tipo) then 2 else 1)
  }

  lemma DefaultLadosExamples()
    ensures DefaultLados(JStr("Libro / Folleto (interiores)")) == JInt(2)
    ensures DefaultLados(JStr("Extendido")) == JInt(1)
    ensures DefaultLados(JNull) == JInt(1)
  {
    assert "Libro" <= "Libro / Folleto (interiores)";
    NotSubstringWithoutFirstChar("Libro", "Extendido");
  }

  /** The values the client sheet is made of. */
  datatype ClientView = ClientView(
    quoteCode: Json, currency: Json, customer: Json, notes: Json, createdBy: Json,
    tipo: Json, ancho: Json, alto: Json, lados: Json,
    tipoPapel: Json, gramaje: Json,
    precioTotal: Json, precioUnit: Json,
    tirajePiezas: Json, tirajeLibros: Json, paginas: Json)

  /** A record's `inputs` and `breakdown` dicts, the `totales` dict, and the client view. */
  datatype Record = Record(inputs: Dict, breakdown: Dict, tot: Dict, view: ClientView)

  /**
   * The reads at the top of both exporters.  `inputs` and `breakdown` fall back to `{}` when
   * falsy; a truthy non-dict makes the first `.get` on it raise, and so does a `totales`
   * entry that is not a dict (it has no `or {}`).
   */
  function ReadRecord(row: Dict): (r: Result<Record, Raised>)
    ensures r.Ok? ==> r.value.view.tipo == Get(r.value.inputs, "tipo_producto", JStr(""))
  {
    var inputsOpt := AsDictOr(Get(row, "inputs", JNull));
    var breakdownOpt := AsDictOr(Get(row, "breakdown", JNull));
    if inputsOpt.None? then Err(AttributeError("inputs.get"))
    else if breakdownOpt.None? then Err(AttributeError("breakdown.get"))
    else
      var inputs := inputsOpt.value;
      var breakdown := breakdownOpt.value;
      var totOpt := AsDict(Get(breakdown, "totales", JObj(map[])));
      if totOpt.None? then Err(AttributeError("tot.get"))
      else
        var tot := totOpt.value;
        var tipo := Get(inputs, "tipo_producto", JStr(""));
        var view := ClientView(
          quoteCode := Get(row, "quote_code", JStr("Q-UNKNOWN")),
          currency := Get(row, "currency", JStr("MXN")),
          customer := Or(Get(row, "customer_name", JNull), JStr("")),
          notes := Or(Get(row, "notes", JNull), JStr("")),
          createdBy := Or(Get(row, "created_by", JNull), JStr("")),
          tipo := tipo,
          ancho := Get(inputs, "ancho_final_cm", JStr("")),
          alto := Get(inputs, "alto_final_cm", JStr("")),
          lados := Get(inputs, "lados", DefaultLados(tipo)),
          tipoPapel := Get(inputs, "tipo_papel", JStr("")),
          gramaje := Get(inputs, "papel_gramaje_gm2", JStr("")),
          precioTotal := Get(tot, "precio_total", Get(row, "price_total", JNull)),
          precioUnit := Get(tot, "precio_unitario", Get(row, "price_unit", JNull)),
          tirajePiezas := Get(inputs, "tiraje_piezas", JNull),
          tirajeLibros := Get(inputs, "tiraje_libros", JNull),
          paginas := Get(inputs, "paginas_por_libro", JNull));
        Ok(Record(inputs, breakdown, tot, view))
  }

  /** Whether two dicts agree on key `k`: both lack it, or both hold the same value. */
  predicate Agree(a: Dict, b: Dict, k: string) {
    (k in a <==> k in b) && (k in a ==> a[k] == b[k])
  }

  /** The top-level keys the client sheet reads besides `inputs`. */
  const ClientKeys: set<string> :=
    {"quote_code", "currency", "customer_name", "notes", "created_by", "price_total", "price_unit"}

  /** The keys of `inputs` the client sheet reads. */
  const ClientInputKeys: set<string> :=
    {"tipo_producto", "ancho_final_cm", "alto_final_cm", "lados", "tipo_papel", "papel_gramaje_gm2",
     "tiraje_piezas", "tiraje_libros", "paginas_por_libro"}

  /** The keys of `inputs` that hold internal costs: the applied paper price and the machine clicks. */
  const CostInputKeys: set<string> := {"papel_costo_kg_aplicado", "clicks_maquina"}

  /**
   * Two records that agree on everything the client sheet reads: the keys above, the client
   * keys of `inputs` and the two prices inside `totales`.  No other entry of `inputs` and
   * nothing else of `breakdown` is compared.
   */
  predicate SameClientSource(a: Dict, b: Dict) {
    && (forall k :: k in ClientKeys ==> Agree(a, b, k))
    && match (ReadRecord(a), ReadRecord(b))
       case (Ok(ra), Ok(rb)) =>
         && (forall k :: k in ClientInputKeys ==> Agree(ra.inputs, rb.inputs, k))
         && Agree(ra.tot, rb.tot, "precio_total") && Agree(ra.tot, rb.tot, "precio_unitario")
       case _ => true
  }

  lemma AgreeGet(a: Dict, b: Dict, k: string, d: Json)
    requires Agree(a, b, k)
    ensures Get(a, k, d) == Get(b, k, d)
  {
  }

  /** The client view reads nothing but the client source: no cost item of the breakdown reaches it. */
  lemma ClientViewOnlyReadsClientSource(a: Dict, b: Dict)
    requires ReadRecord(a).Ok? && ReadRecord(b).Ok?
    requires SameClientSource(a, b)
    ensures ReadRecord(a).value.view == ReadRecord(b).value.view
  {
    var ia, ib := ReadRecord(a).value.inputs, ReadRecord(b).value.inputs;
    assert Agree(ia, ib, "tipo_producto") && Agree(ia, ib, "ancho_final_cm") && Agree(ia, ib, "alto_final_cm");
    assert Agree(ia, ib, "lados") && Agree(ia, ib, "tipo_papel") && Agree(ia, ib, "papel_gramaje_gm2");
    assert Agree(ia, ib, "tiraje_piezas") && Agree(ia, ib, "tiraje_libros") && Agree(ia, ib, "paginas_por_libro");
    assert Agree(a, b, "quote_code") && Agree(a, b, "currency") && Agree(a, b, "customer_name");
    assert Agree(a, b, "notes") && Agree(a, b, "created_by");
    assert Agree(a, b, "price_total") && Agree(a, b, "price_unit");
  }

  /** Replacing an entry of a record's `inputs` dict changes nothing else that is read. */
  lemma ReplacedInputReads(row: Dict, m: Dict, k: string, v: Json)
    requires "inputs" in row && row["inputs"] == JObj(m)
    ensures var row' := row["inputs" := JObj(m[k := v])];
      && (ReadRecord(row').Ok? <==> ReadRecord(row).Ok?)
      && (ReadRecord(row).Ok? ==>
            && ReadRecord(row').value.breakdown == ReadRecord(row).value.breakdown
            && ReadRecord(row').value.tot == ReadRecord(row).value.tot
            && ReadRecord(row').value.inputs == m[k := v]
            && ReadRecord(row).value.inputs == m)
  {
    var row' := row["inputs" := JObj(m[k := v])];
    assert AsDictOr(Get(row', "inputs", JNull)) == Some(m[k := v]);
    assert AsDictOr(Get(row, "inputs", JNull)) == Some(m);
    assert Get(row', "breakdown", JNull) == Get(row, "breakdown", JNull);
  }

  /**
   * Replacing one internal-cost entry of a record's `inputs` dict: the record reads as before,
   * with the same breakdown and `totales`, and the client source stays the same.
   */
  lemma ReplacedCostInput(row: Dict, m: Dict, k: string, v: Json)
    requires "inputs" in row && row["inputs"] == JObj(m)
    requires k in CostInputKeys
    ensures var row' := row["inputs" := JObj(m[k := v])];
      && (ReadRecord(row').Ok? <==> ReadRecord(row).Ok?)
      && (ReadRecord(row).Ok? ==>
            && ReadRecord(row').value.breakdown == ReadRecord(row).value.breakdown
            && ReadRecord(row').value.tot == ReadRecord(row).value.tot
            && ReadRecord(row').value.inputs == ReadRecord(row).value.inputs[k := v])
      && SameClientSource(row', row)
  {
    var row' := row["inputs" := JObj(m[k := v])];
    ReplacedInputReads(row, m, k, v);
    forall j | j in ClientKeys
      ensures Agree(row', row, j)
    {
      assert j != "inputs";
    }
    if ReadRecord(row).Ok? {
      forall j | j in ClientInputKeys
        ensures Agree(m[k := v], m, j)
      {
        assert j != k;
      }
    }
  }

  // ---------------------------------------------------------------------------------
  // Client rows
  // ---------------------------------------------------------------------------------

  predicate IsExtendido(v: ClientView) {
    v.tipo == JStr("Extendido")
  }

  /** The seven rows every client sheet starts with; `now` is the export time already formatted. */
  function HeaderFields(v: ClientView, now: string): seq<Field> {
    [Field("Código", Val(v.quoteCode)),
     Field("Cliente", Val(v.customer)),
     Field("Usuario", Val(v.createdBy)),
     Field("Fecha exportación", Val(JStr(now))),
     Field("Tipo de producto", Val(v.tipo)),
     Field("Medida final (cm)", Txt([Show(v.ancho), Lit(" x "), Show(v.alto)])),
     Field("Moneda", Val(v.currency))]
  }

  /**
   * The run-length rows: pieces and the sides for "Extendido", which needs `int(lados)`;
   * books, pages and always double-sided for anything else.
   */
  function BranchFields(v: ClientView): (r: Result<seq<Field>, Raised>)
    ensures r.Err? <==> IsExtendido(v) && PyInt(v.lados).None?
    ensures r.Ok? ==> |r.value| == (if IsExtendido(v) then 2 else 3)
    ensures r.Ok? ==> r.value[|r.value| - 1].campo == "Impresión"
    ensures r.Ok? ==> (r.value[|r.value| - 1].valor == Val(JStr("Frente"))
                       <==> IsExtendido(v) && PyInt(v.lados) == Some(1))
  {
    if IsExtendido(v) then
      match PyInt(v.lados)
      case None => Err(ConversionError("int(lados)"))
      case Some(lados) =>
        Ok([Field("Tiraje (pzas)", Val(v.tirajePiezas)),
            Field("Impresión", Val(JStr(if lados == 1 then "Frente" else "Frente y vuelta")))])
    else
      Ok([Field("Tiraje (libros)", Val(v.tirajeLibros)),
          Field("Páginas interiores por libro", Val(v.paginas)),
          Field("Impresión", Val(JStr("Frente y vuelta")))])
  }

  /** The closing rows: unit price, total price and notes. */
  function PriceFields(v: ClientView): seq<Field> {
    [Field("Precio unitario", Val(v.precioUnit)),
     Field("Precio total", Val(v.precioTotal)),
     Field("Notas", Val(v.notes))]
  }

  // ---------------------------------------------------------------------------------
  // Machine clicks
  // ---------------------------------------------------------------------------------

  /**
   * `clicks_maquina` kept when given; otherwise, when the sheet count is known, inferred as
   * sheets times sides for "Extendido" and sheets times two for anything else, through
   * `int()` on each operand, which may raise.
   */
  function ClicksFallback(clicks: Json, hojas: Json, tipo: Json, lados: Json): (r: Result<Json, Raised>)
    ensures clicks != JNull ==> r == Ok(clicks)
    ensures clicks == JNull && hojas == JNull ==> r == Ok(JNull)
    ensures r.Err? <==> clicks == JNull && hojas != JNull
                        && (PyInt(hojas).None? || (tipo == JStr("Extendido") && PyInt(lados).None?))
    ensures clicks == JNull && r.Ok? && r.value != JNull ==>
      r.value.JInt? && r.value.i == PyInt(hojas).value * (if tipo == JStr("Extendido") then PyInt(lados).value else 2)
  {
    if clicks != JNull || hojas == JNull then Ok(clicks)
    else
      match PyInt(hojas)
      case None => Err(ConversionError("int(hojas_fisicas)"))
      case Some(h) =>
        if tipo == JStr("Extendido") then
          match PyInt(lados)
          case None => Err(ConversionError("int(lados)"))
          case Some(l) => Ok(JInt(h * l))
        else Ok(JInt(h * 2))
  }

  /**
   * When the page stored its sheet count and
   * sides, the inferred clicks times the pieces per side is exactly the yield of those
   * sheets, so the clicks are the printed sheet sides of the quote.
   */
  lemma ClicksAreSheetSides(t: Cotizador.Tiraje, piezasPorLado: int, hojas: int)
    requires Cotizador.ValidTiraje(t) && piezasPorLado > 0
    ensures var tipo := JStr(if t.Piezas? then "Extendido" else "Libro / Folleto (interiores)");
      var lados := if t.Piezas? then JInt(t.lados) else DefaultLados(tipo);
      var r := ClicksFallback(JNull, JInt(hojas), tipo, lados);
      r.Ok? && r.value.JInt? && r.value.i * piezasPorLado == hojas * Cotizador.SheetYield(t, piezasPorLado)
  {
    var tipo := JStr(if t.Piezas? then "Extendido" else "Libro / Folleto (interiores)");
    if t.Libros? {
      assert "Libro" <= "Libro / Folleto (interiores)";
    }
    var lados := if t.Piezas? then JInt(t.lados) else DefaultLados(tipo);
    var r := ClicksFallback(JNull, JInt(hojas), tipo, lados);
    if t.Piezas? {
      if t.lados == 1 {
        assert r.value.i == hojas;
      } else {
        assert r.value.i == hojas * 2;
        assert hojas * 2 * piezasPorLado == hojas * (piezasPorLado * 2);
      }
    } else {
      assert r.value.i == hojas * 2;
      assert hojas * 2 * piezasPorLado == hojas * (piezasPorLado * 2);
    }
  }

  // ---------------------------------------------------------------------------------
  // Technical rows common to both exporters
  // ---------------------------------------------------------------------------------

  /** The breakdown sections, the sheet count and the clicks the technical rows are built from. */
  datatype Technical = Technical(papel: Dict, imp: Dict, adicionales: Dict, hojas: Json, clicks: Json)

  /** The nine "Operación" rows: sheets, clicks, billable units, layout and the sheet geometry as stored. */
  function OperacionRows(rec: Record, t: Technical): seq<DetailRow> {
    var inputs := rec.inputs;
    [DetailRow("Operación", "Tabloides (papel)", Val(t.hojas)),
     DetailRow("Operación", "Clicks máquina (tabloide-lado)", Val(t.clicks)),
     DetailRow("Operación", "Carta-lado (facturable)", Val(Get(t.imp, "unidades_carta_lado", JNull))),
     DetailRow("Operación", "Cubicación (pzas/pág por lado)", Val(Get(inputs, "piezas_por_lado", JNull))),
     DetailRow("Operación", "Orientación", Val(Get(inputs, "orientacion", JNull))),
     DetailRow("Operación", "Huella (cm)",
               Txt([Show(Get(inputs, "area_w_cm", JNull)), Lit(" x "), Show(Get(inputs, "area_h_cm", JNull))])),
     DetailRow("Operación", "Hoja (cm)",
               Txt([Show(Get(inputs, "hoja_w_cm", JNull)), Lit(" x "), Show(Get(inputs, "hoja_h_cm", JNull))])),
     DetailRow("Operación", "Bleed (cm)", Val(Get(inputs, "bleed_cm", JNull))),
     DetailRow("Operación", "Gutter (cm)", Val(Get(inputs, "gutter_cm", JNull)))]
  }

  /** The two "Impresión" rows: the per-unit rate and the printing total. */
  function ImpresionRows(t: Technical): seq<DetailRow> {
    [DetailRow("Impresión", "Costo unitario carta-lado", Val(Get(t.imp, "costo_unitario_carta_lado", JNull))),
     DetailRow("Impresión", "Total impresión", Val(Get(t.imp, "total", JNull)))]
  }

  /** The "Adicionales" row: the stored extras total. */
  function AdicionalesRows(t: Technical): seq<DetailRow> {
    [DetailRow("Adicionales", "Total adicionales", Val(Get(t.adicionales, "total", JNull)))]
  }

  /** The three "Totales" rows: subtotal before margin, margin and total price. */
  function TotalesRows(rec: Record): seq<DetailRow> {
    [DetailRow("Totales", "Subtotal antes margen", Val(Get(rec.tot, "subtotal_antes_margen", JNull))),
     DetailRow("Totales", "Margen", Val(Get(rec.tot, "margen", JNull))),
     DetailRow("Totales", "Precio total", Val(Get(rec.tot, "precio_total", rec.view.precioTotal)))]
  }

  /** The "Operación" block of `add(sec, concepto, valor)` calls, appended to `rows`. */
  method AddOperacionRows(rows: seq<DetailRow>, rec: Record, t: Technical) returns (rows': seq<DetailRow>)
    ensures rows' == rows + OperacionRows(rec, t)
  {
    var inputs := rec.inputs;
    rows' := rows + [DetailRow("Operación", "Tabloides (papel)", Val(t.hojas))];
    rows' := rows' + [DetailRow("Operación", "Clicks máquina (tabloide-lado)", Val(t.clicks))];
    rows' := rows' + [DetailRow("Operación", "Carta-lado (facturable)", Val(Get(t.imp, "unidades_carta_lado", JNull)))];
    rows' := rows' + [DetailRow("Operación", "Cubicación (pzas/pág por lado)", Val(Get(inputs, "piezas_por_lado", JNull)))];
    rows' := rows' + [DetailRow("Operación", "Orientación", Val(Get(inputs, "orientacion", JNull)))];
    rows' := rows' + [DetailRow("Operación", "Huella (cm)",
      Txt([Show(Get(inputs, "area_w_cm", JNull)), Lit(" x "), Show(Get(inputs, "area_h_cm", JNull))]))];
    rows' := rows' + [DetailRow("Operación", "Hoja (cm)",
      Txt([Show(Get(inputs, "hoja_w_cm", JNull)), Lit(" x "), Show(Get(inputs, "hoja_h_cm", JNull))]))];
    rows' := rows' + [DetailRow("Operación", "Bleed (cm)", Val(Get(inputs, "bleed_cm", JNull)))];
    rows' := rows' + [DetailRow("Operación", "Gutter (cm)", Val(Get(inputs, "gutter_cm", JNull)))];
  }

  /** The "Impresión" block. */
  method AddImpresionRows(rows: seq<DetailRow>, t: Technical) returns (rows': seq<DetailRow>)
    ensures rows' == rows + ImpresionRows(t)
  {
    rows' := rows + [DetailRow("Impresión", "Costo unitario carta-lado", Val(Get(t.imp, "costo_unitario_carta_lado", JNull)))];
    rows' := rows' + [DetailRow("Impresión", "Total impresión", Val(Get(t.imp, "total", JNull)))];
  }

  /** The "Adicionales" and "Totales" blocks. */
  method AddClosingRows(rows: seq<DetailRow>, rec: Record, t: Technical) returns (rows': seq<DetailRow>)
    ensures rows' == rows + AdicionalesRows(t) + TotalesRows(rec)
  {
    rows' := rows + [DetailRow("Adicionales", "Total adicionales", Val(Get(t.adicionales, "total", JNull)))];
    rows' := rows' + [DetailRow("Totales", "Subtotal antes margen", Val(Get(rec.tot, "subtotal_antes_margen", JNull)))];
    rows' := rows' + [DetailRow("Totales", "Margen", Val(Get(rec.tot, "margen", JNull)))];
    rows' := rows' + [DetailRow("Totales", "Precio total", Val(Get(rec.tot, "precio_total", rec.view.precioTotal)))];
  }

  // ---------------------------------------------------------------------------------
  // Workbook shape
  // ---------------------------------------------------------------------------------

  /** The sheets written: the client sheet, then the two technical sheets when the role passes. */
  function Workbook(role: string, client: seq<Field>, detail: seq<DetailRow>, extras: Option<Json>): (w: seq<NamedSheet>)
    ensures |w| == (if CanSeeDetail(role) then 3 else 1)
    ensures w[0] == NamedSheet(ClientSheetName, ClientSheet(client))
  {
    [NamedSheet(ClientSheetName, ClientSheet(client))]
    + (if CanSeeDetail(role)
       then [NamedSheet(DetailSheetName, DetailSheet(detail)), NamedSheet(ExtrasSheetName, ExtrasSheet(extras))]
       else [])
  }

  /** What an exporter has built when it starts writing: client rows, technical rows and extras items. */
  datatype Export = Export(client: seq<Field>, detail: seq<DetailRow>, extras: Option<Json>)

  /**
   * The client sheet always comes first; the technical and extras sheets follow, in that
   * order, exactly when the role passes the test; and a failing role gets the client sheet alone.
   */
  lemma WorkbookGated(role: string, client: seq<Field>, detail: seq<DetailRow>, extras: Option<Json>)
    ensures var w := Workbook(role, client, detail, extras);
      && w[0].name == ClientSheetName
      && (|w| > 1 <==> CanSeeDetail(role))
      && (CanSeeDetail(role) ==> w[1] == NamedSheet(DetailSheetName, DetailSheet(detail))
                                 && w[2] == NamedSheet(ExtrasSheetName, ExtrasSheet(extras)))
      && Workbook(RoleVendedor, client, detail, extras) == [w[0]]
  {
  }

  /** Only the client sheet is shown to a role that fails the test, whatever the technical rows hold. */
  lemma WorkbookHidesDetail(role: string, client: seq<Field>, d1: seq<DetailRow>, d2: seq<DetailRow>,
                            e1: Option<Json>, e2: Option<Json>)
    requires !CanSeeDetail(role)
    ensures Workbook(role, client, d1, e1) == Workbook(role, client, d2, e2)
  {
  }

  /** The section of each technical row, in order. */
  function Sections(rows: seq<DetailRow>): (s: seq<string>)
    ensures |s| == |rows|
  {
    seq(|rows|, i requires 0 <= i < |rows| => rows[i].seccion)
  }

  function Repeat(x: string, n: nat): (s: seq<string>)
    ensures |s| == n
    ensures forall i :: 0 <= i < n ==> s[i] == x
  {
    if n == 0 then [] else Repeat(x, n - 1) + [x]
  }

  lemma SectionsAppend(a: seq<DetailRow>, b: seq<DetailRow>)
    ensures Sections(a + b) == Sections(a) + Sections(b)
  {
    var l, r := Sections(a + b), Sections(a) + Sections(b);
    assert |l| == |r|;
    forall i | 0 <= i < |l|
      ensures l[i] == r[i]
    {
      if i < |a| {
        assert (a + b)[i] == a[i];
      } else {
        assert (a + b)[i] == b[i - |a|];
      }
    }
  }

  /** Rows that all belong to section `x` list `x` once per row. */
  lemma OneSection(rows: seq<DetailRow>, x: string)
    requires forall i :: 0 <= i < |rows| ==> rows[i].seccion == x
    ensures Sections(rows) == Repeat(x, |rows|)
  {
    var l, r := Sections(rows), Repeat(x, |rows|);
    forall i | 0 <= i < |rows|
      ensures l[i] == r[i]
    {
    }
  }

  /** The five sections of the technical rows, given the "Papel" rows in between. */
  lemma DetailSections(rec: Record, t: Technical, papel: seq<DetailRow>)
    requires Sections(papel) == Repeat("Papel", |papel|)
    ensures Sections(OperacionRows(rec, t) + ImpresionRows(t) + papel + AdicionalesRows(t) + TotalesRows(rec))
         == Repeat("Operación", 9) + Repeat("Impresión", 2) + Repeat("Papel", |papel|)
            + Repeat("Adicionales", 1) + Repeat("Totales", 3)
  {
    var a, b, d, e := OperacionRows(rec, t), ImpresionRows(t), AdicionalesRows(t), TotalesRows(rec);
    OperacionSections(rec, t);
    ImpresionSections(t);
    AdicionalesSections(t);
    TotalesSections(rec);
    SectionsAppend(a, b);
    SectionsAppend(a + b, papel);
    SectionsAppend(a + b + papel, d);
    SectionsAppend(a + b + papel + d, e);
  }

  lemma OperacionSections(rec: Record, t: Technical)
    ensures Sections(OperacionRows(rec, t)) == Repeat("Operación", 9)
  {
    var a := OperacionRows(rec, t);
    var x := "Operación";
    assert a[0].seccion == x && a[1].seccion == x && a[2].seccion == x;
    assert a[3].seccion == x && a[4].seccion == x && a[5].seccion == x;
    assert a[6].seccion == x && a[7].seccion == x && a[8].seccion == x;
    OneSection(a, x);
  }

  lemma ImpresionSections(t: Technical)
    ensures Sections(ImpresionRows(t)) == Repeat("Impresión", 2)
  {
    var a := ImpresionRows(t);
    assert a[0].seccion == "Impresión" && a[1].seccion == "Impresión";
    OneSection(a, "Impresión");
  }

  lemma AdicionalesSections(t: Technical)
    ensures Sections(AdicionalesRows(t)) == Repeat("Adicionales", 1)
  {
    var a := AdicionalesRows(t);
    assert a[0].seccion == "Adicionales";
    OneSection(a, "Adicionales");
  }

  lemma TotalesSections(rec: Record)
    ensures Sections(TotalesRows(rec)) == Repeat("Totales", 3)
  {
    var a := TotalesRows(rec);
    assert a[0].seccion == "Totales" && a[1].seccion == "Totales" && a[2].seccion == "Totales";
    OneSection(a, "Totales");
  }

  /** `items or []`: a truthy item list becomes the extras sheet, anything falsy the empty frame. */
  function ExtrasItems(adicionales: Dict): (e: Option<Json>)
    ensures e.Some? <==> Truthy(Get(adicionales, "items", JNull))
  {
    var items := Get(adicionales, "items", JNull);
    if Truthy(items) then Some(items) else None
  }
}
