/**
 * `build_quote_excel_bytes` of lib/excel_exporter.py: a stored quote record and the viewer's
 * role become a client sheet, and for admin and cotizador also a technical breakdown sheet
 * and a sheet of extra-cost items.  The workbook's bytes are left abstract: the model
 * produces the named sheets and their rows.
 */
module ExcelExporter {
  import opened Wrappers
  import opened PyValues
  import opened RolePermissions
  import opened Sheets
  import opened SeqFacts
  import Cotizador

  // ---------------------------------------------------------------------------------
  // Client sheet
  // ---------------------------------------------------------------------------------

  /** The client sheet's paper rows. */
  function PaperFields(v: ClientView): seq<Field> {
    [Field("Tipo de papel", Val(v.tipoPapel)), Field("Gramaje (g/m²)", Val(v.gramaje))]
  }

  /** The client rows: header, run length, paper, then prices and notes. */
  function ClientFields(v: ClientView, now: string): Result<seq<Field>, Raised> {
    match BranchFields(v)
    case Err(e) => Err(e)
    case Ok(branch) => Ok(HeaderFields(v, now) + branch + PaperFields(v) + PriceFields(v))
  }

  /** `rows_cliente`, extended with `+=` as the exporter does. */
  method BuildClientRows(v: ClientView, now: string) returns (r: Result<seq<Field>, Raised>)
    ensures r == ClientFields(v, now)
  {
    var rowsCliente := HeaderFields(v, now);
    if v.tipo == JStr("Extendido") {
      var lados := PyInt(v.lados);
      if lados.None? {
        return Err(ConversionError("int(lados)"));
      }
      rowsCliente := rowsCliente + [
        Field("Tiraje (pzas)", Val(v.tirajePiezas)),
        Field("Impresión", Val(JStr(if lados.value == 1 then "Frente" else "Frente y vuelta")))];
    } else {
      rowsCliente := rowsCliente + [
        Field("Tiraje (libros)", Val(v.tirajeLibros)),
        Field("Páginas interiores por libro", Val(v.paginas)),
        Field("Impresión", Val(JStr("Frente y vuelta")))];
    }
    rowsCliente := rowsCliente + [
      Field("Tipo de papel", Val(v.tipoPapel)),
      Field("Gramaje (g/m²)", Val(v.gramaje))];
    rowsCliente := rowsCliente + [
      Field("Precio unitario", Val(v.precioUnit)),
      Field("Precio total", Val(v.precioTotal)),
      Field("Notas", Val(v.notes))];
    return Ok(rowsCliente);
  }

  // ---------------------------------------------------------------------------------
  // Technical data
  // ---------------------------------------------------------------------------------

  /**
   * The reads behind the technical rows, in the exporter's order.  `papel`, `impresion` and
   * `adicionales` fall back to `{}` when missing or falsy; a truthy non-dict raises at its
   * first `.get`.  The clicks fallback runs between the first `papel` read and the first
   * `impresion` read.
   */
  function ReadTechnical(rec: Record): (r: Result<Technical, Raised>)
    ensures r.Ok? ==> r.value.hojas == Get(rec.inputs, "hojas_fisicas", Get(r.value.papel, "hojas_fisicas", JNull))
    ensures r.Ok? ==>
      ClicksFallback(Get(rec.inputs, "clicks_maquina", JNull), r.value.hojas, rec.view.tipo, rec.view.lados)
      == Ok(r.value.clicks)
  {
    var papelOpt := AsDictOr(Get(rec.breakdown, "papel", JObj(map[])));
    if papelOpt.None? then Err(AttributeError("papel.get"))
    else
      var papel := papelOpt.value;
      var hojas := Get(rec.inputs, "hojas_fisicas", Get(papel, "hojas_fisicas", JNull));
      match ClicksFallback(Get(rec.inputs, "clicks_maquina", JNull), hojas, rec.view.tipo, rec.view.lados)
      case Err(e) => Err(e)
      case Ok(clicks) =>
        var impOpt := AsDictOr(Get(rec.breakdown, "impresion", JObj(map[])));
        if impOpt.None? then Err(AttributeError("imp.get"))
        else
          var adicOpt := AsDictOr(Get(rec.breakdown, "adicionales", JObj(map[])));
          if adicOpt.None? then Err(AttributeError("adicionales.get"))
          else Ok(Technical(papel, impOpt.value, adicOpt.value, hojas, clicks))
  }

  /**
   * `costo_hoja_con_merma` kept when stored; otherwise the sheet cost times one plus the
   * waste rate when both are stored and convert with `float()`, and None in every other
   * case (a failed conversion is caught).
   */
  function WasteCostFallback(given: Json, costoHoja: Json, merma: Json): (r: Json)
    ensures given != JNull ==> r == given
    ensures given == JNull ==>
      (r != JNull <==> PyFloat(costoHoja).Some? && PyFloat(merma).Some?)
    ensures given == JNull && r != JNull ==>
      r == JFloat(WithWaste(PyFloat(costoHoja).value, PyFloat(merma).value))
  {
    if given != JNull then given
    else if costoHoja == JNull || merma == JNull then JNull
    else
      var c, m := PyFloat(costoHoja), PyFloat(merma);
      if c.Some? && m.Some? then JFloat(WithWaste(c.value, m.value)) else JNull
  }

  /** A sheet cost raised by a waste rate. */
  function WithWaste(costoHoja: real, merma: real): real {
    costoHoja * (1.0 + merma)
  }

  /**
   * The fallback agrees with the page's paper cost: for a stored sheet cost and waste rate,
   * the number of sheets times the cost with waste is the page's `costo_papel`.
   */
  lemma WasteCostAgreesWithPaperCost(hojas: int, costoHoja: real, merma: real)
    ensures var r := WasteCostFallback(JNull, JFloat(costoHoja), JFloat(merma));
      r.JFloat? && hojas as real * r.f == Cotizador.PaperCost(hojas, costoHoja, merma)
  {
    assert hojas as real * (costoHoja * (1.0 + merma)) == hojas as real * costoHoja * (1.0 + merma);
  }

  /** The sheet cost with waste the technical sheet shows. */
  function CostoHojaConMerma(papel: Dict): Json {
    WasteCostFallback(Get(papel, "costo_hoja_con_merma", JNull), Get(papel, "costo_hoja", JNull), Get(papel, "merma", JNull))
  }

  function PapelRows(rec: Record, t: Technical): seq<DetailRow> {
    var papel := t.papel;
    var v := rec.view;
    [DetailRow("Papel", "Tipo de papel", Val(Get(papel, "tipo_papel", v.tipoPapel))),
     DetailRow("Papel", "Gramaje (g/m²)", Val(Get(papel, "gramaje_gm2", v.gramaje))),
     DetailRow("Papel", "Costo aplicado ($/kg)", Val(Get(papel, "costo_kg", Get(rec.inputs, "papel_costo_kg_aplicado", JStr(""))))),
     DetailRow("Papel", "Hojas físicas", Val(Get(papel, "hojas_fisicas", t.hojas))),
     DetailRow("Papel", "Hojas con merma", Val(Get(papel, "hojas_con_merma", Get(rec.inputs, "hojas_con_merma", JNull)))),
     DetailRow("Papel", "Merma", Val(Get(papel, "merma", JNull))),
     DetailRow("Papel", "Costo hoja (sin merma)", Val(Get(papel, "costo_hoja", JNull))),
     DetailRow("Papel", "Costo hoja (con merma)", Val(CostoHojaConMerma(papel))),
     DetailRow("Papel", "Total papel", Val(Get(papel, "total", JNull)))]
  }

  /** The technical rows, section by section. */
  function DetailRows(rec: Record, t: Technical): seq<DetailRow> {
    OperacionRows(rec, t) + ImpresionRows(t) + PapelRows(rec, t) + AdicionalesRows(t) + TotalesRows(rec)
  }

  /** The waste-cost fallback as the exporter runs it: a stored value, else a guarded conversion. */
  method ComputeCostoHojaConMerma(papel: Dict) returns (costoHojaConMerma: Json)
    ensures costoHojaConMerma == CostoHojaConMerma(papel)
  {
    var merma := Get(papel, "merma", JNull);
    var costoHoja := Get(papel, "costo_hoja", JNull);
    costoHojaConMerma := Get(papel, "costo_hoja_con_merma", JNull);
    if costoHojaConMerma == JNull && costoHoja != JNull && merma != JNull {
      var c, m := PyFloat(costoHoja), PyFloat(merma);
      if c.Some? && m.Some? {
        costoHojaConMerma := JFloat(WithWaste(c.value, m.value));
      }
    }
  }

  /** The "Papel" block, with the waste fallback and the sheets-with-waste lookup computed before. */
  method AddPapelRows(rows: seq<DetailRow>, rec: Record, t: Technical) returns (rows': seq<DetailRow>)
    ensures rows' == rows + PapelRows(rec, t)
  {
    var papel := t.papel;
    var merma := Get(papel, "merma", JNull);
    var costoHoja := Get(papel, "costo_hoja", JNull);
    var hojasConMerma := Get(papel, "hojas_con_merma", Get(rec.inputs, "hojas_con_merma", JNull));
    var costoHojaConMerma := ComputeCostoHojaConMerma(papel);
    rows' := rows + [DetailRow("Papel", "Tipo de papel", Val(Get(papel, "tipo_papel", rec.view.tipoPapel)))];
    rows' := rows' + [DetailRow("Papel", "Gramaje (g/m²)", Val(Get(papel, "gramaje_gm2", rec.view.gramaje)))];
    rows' := rows' + [DetailRow("Papel", "Costo aplicado ($/kg)", Val(Get(papel, "costo_kg", Get(rec.inputs, "papel_costo_kg_aplicado", JStr("")))))];
    rows' := rows' + [DetailRow("Papel", "Hojas físicas", Val(Get(papel, "hojas_fisicas", t.hojas)))];
    rows' := rows' + [DetailRow("Papel", "Hojas con merma", Val(hojasConMerma))];
    rows' := rows' + [DetailRow("Papel", "Merma", Val(merma))];
    rows' := rows' + [DetailRow("Papel", "Costo hoja (sin merma)", Val(costoHoja))];
    rows' := rows' + [DetailRow("Papel", "Costo hoja (con merma)", Val(costoHojaConMerma))];
    rows' := rows' + [DetailRow("Papel", "Total papel", Val(Get(papel, "total", JNull)))];
  }

  /** `rows_detalle`, filled one `add` at a time, section by section. */
  method BuildDetailRows(rec: Record, t: Technical) returns (rowsDetalle: seq<DetailRow>)
    ensures rowsDetalle == DetailRows(rec, t)
  {
    rowsDetalle := [];
    rowsDetalle := AddOperacionRows(rowsDetalle, rec, t);
    rowsDetalle := AddImpresionRows(rowsDetalle, t);
    rowsDetalle := AddPapelRows(rowsDetalle, rec, t);
    rowsDetalle := AddClosingRows(rowsDetalle, rec, t);
    AppendEmpty(OperacionRows(rec, t));
  }

  // ---------------------------------------------------------------------------------
  // The workbook
  // ---------------------------------------------------------------------------------

  /**
   * Everything the exporter reads and builds before it writes, in its order, or the first
   * exception: the role plays no part in it.
   */
  function ExportData(row: Dict, now: string): (r: Result<Export, Raised>)
    ensures r.Ok? ==> |r.value.detail| == 24
    ensures r.Ok? ==> ReadRecord(row).Ok? && ClientFields(ReadRecord(row).value.view, now) == Ok(r.value.client)
  {
    match ReadRecord(row)
    case Err(e) => Err(e)
    case Ok(rec) =>
      match ClientFields(rec.view, now)
      case Err(e) => Err(e)
      case Ok(client) =>
        match ReadTechnical(rec)
        case Err(e) => Err(e)
        case Ok(t) => Ok(Export(client, DetailRows(rec, t), ExtrasItems(t.adicionales)))
  }

  /** The exporter's result: the sheets it writes, or the exception it raises first. */
  function QuoteWorkbook(row: Dict, role: string, now: string): Result<seq<NamedSheet>, Raised> {
    match ExportData(row, now)
    case Err(e) => Err(e)
    case Ok(x) => Ok(Workbook(role, x.client, x.detail, x.extras))
  }

  /** `build_quote_excel_bytes`, with the export time `now` given already formatted. */
  method BuildQuoteExcelBytes(row: Dict, role: string, now: string) returns (r: Result<seq<NamedSheet>, Raised>)
    ensures r == QuoteWorkbook(row, role, now)
  {
    var rr := ReadRecord(row);
    if rr.Err? {
      return Err(rr.error);
    }
    var rec := rr.value;
    var client := BuildClientRows(rec.view, now);
    if client.Err? {
      return Err(client.error);
    }
    var tr := ReadTechnical(rec);
    if tr.Err? {
      return Err(tr.error);
    }
    var detail := BuildDetailRows(rec, tr.value);
    var items := ExtrasItems(tr.value.adicionales);
    var sheets := [NamedSheet(ClientSheetName, ClientSheet(client.value))];
    if CanSeeDetail(role) {
      sheets := sheets + [NamedSheet(DetailSheetName, DetailSheet(detail)), NamedSheet(ExtrasSheetName, ExtrasSheet(items))];
    }
    assert sheets == Workbook(role, client.value, detail, items);
    return Ok(sheets);
  }

  // ---------------------------------------------------------------------------------
  // Properties
  // ---------------------------------------------------------------------------------

  /**
   * The client sheet has 7 header rows, the run-length rows, 2 paper rows and 3 closing
   * rows: 14 rows for "Extendido", 15 otherwise; "Impresión" reads "Frente" exactly for a
   * single-sided "Extendido" job.
   */
  lemma ClientSheetShape(v: ClientView, now: string)
    requires ClientFields(v, now).Ok?
    ensures var f := ClientFields(v, now).value;
      && |f| == (if IsExtendido(v) then 14 else 15)
      && f[..7] == HeaderFields(v, now)
      && f[|f| - 5..] == PaperFields(v) + PriceFields(v)
      && f[|f| - 6] == Field("Impresión", Val(JStr(if IsExtendido(v) && PyInt(v.lados) == Some(1) then "Frente" else "Frente y vuelta")))
  {
    var f := ClientFields(v, now).value;
    var b := BranchFields(v).value;
    assert f == HeaderFields(v, now) + b + (PaperFields(v) + PriceFields(v));
    assert f[|f| - 6] == b[|b| - 1];
  }

  /** The technical sheet has 24 rows in section order: Operación 9, Impresión 2, Papel 9, Adicionales 1, Totales 3. */
  lemma DetailSheetShape(rec: Record, t: Technical)
    ensures |DetailRows(rec, t)| == 24
    ensures Sections(DetailRows(rec, t))
         == Repeat("Operación", 9) + Repeat("Impresión", 2) + Repeat("Papel", 9)
            + Repeat("Adicionales", 1) + Repeat("Totales", 3)
  {
    PapelSections(rec, t);
    DetailSections(rec, t, PapelRows(rec, t));
  }

  lemma PapelSections(rec: Record, t: Technical)
    ensures Sections(PapelRows(rec, t)) == Repeat("Papel", 9)
  {
    var a := PapelRows(rec, t);
    var x := "Papel";
    assert a[0].seccion == x && a[1].seccion == x && a[2].seccion == x;
    assert a[3].seccion == x && a[4].seccion == x && a[5].seccion == x;
    assert a[6].seccion == x && a[7].seccion == x && a[8].seccion == x;
    OneSection(a, x);
  }

  /**
   * The client sheet always comes first; the technical and extras sheets follow exactly when
   * the role is "admin" or "cotizador"; and the client sheet is the same for every role.
   */
  lemma SheetsGatedByRole(row: Dict, role: string, now: string)
    requires QuoteWorkbook(row, role, now).Ok?
    ensures var w := QuoteWorkbook(row, role, now).value;
      && w[0].name == ClientSheetName
      && (|w| > 1 <==> CanSeeDetail(role))
      && (CanSeeDetail(role) ==> |w| == 3 && w[1].name == DetailSheetName && w[2].name == ExtrasSheetName
                                 && |w[1].sheet.rows| == 24)
      && QuoteWorkbook(row, RoleVendedor, now).Ok?
      && QuoteWorkbook(row, RoleVendedor, now).value == [w[0]]
  {
    var x := ExportData(row, now).value;
    WorkbookGated(role, x.client, x.detail, x.extras);
  }

  /** Whether an export raises depends on the record alone, never on the role. */
  lemma FailureIndependentOfRole(row: Dict, r1: string, r2: string, now: string)
    ensures QuoteWorkbook(row, r1, now).Err? <==> QuoteWorkbook(row, r2, now).Err?
    ensures QuoteWorkbook(row, r1, now).Err? ==> QuoteWorkbook(row, r1, now) == QuoteWorkbook(row, r2, now)
  {
  }

  /**
   * Costs never reach a role that fails the test: two records that agree on what the
   * client sheet reads export identically, however their breakdowns differ.
   */
  lemma NoCostLeak(a: Dict, b: Dict, role: string, now: string)
    requires !CanSeeDetail(role)
    requires QuoteWorkbook(a, role, now).Ok? && QuoteWorkbook(b, role, now).Ok?
    requires SameClientSource(a, b)
    ensures QuoteWorkbook(a, role, now) == QuoteWorkbook(b, role, now)
  {
    var x, y := ExportData(a, now).value, ExportData(b, now).value;
    ClientViewOnlyReadsClientSource(a, b);
    WorkbookHidesDetail(role, x.client, x.detail, y.detail, x.extras, y.extras);
  }

  /** The technical reads look at the breakdown, the view and two entries of `inputs` only. */
  lemma ReadTechnicalReads(ra: Record, rb: Record)
    requires ra.breakdown == rb.breakdown && ra.view == rb.view
    requires Agree(ra.inputs, rb.inputs, "hojas_fisicas") && Agree(ra.inputs, rb.inputs, "clicks_maquina")
    ensures ReadTechnical(ra) == ReadTechnical(rb)
  {
  }

  /**
   * The internal costs stored in `inputs` (the applied paper price and the machine clicks)
   * never reach a role that fails the test: replacing one leaves every workbook that is
   * produced as it was, and the paper price cannot even make the export fail.
   */
  lemma StoredCostsStayHidden(row: Dict, m: Dict, k: string, v: Json, role: string, now: string)
    requires !CanSeeDetail(role)
    requires "inputs" in row && row["inputs"] == JObj(m)
    requires k in CostInputKeys
    ensures var row' := row["inputs" := JObj(m[k := v])];
      QuoteWorkbook(row', role, now).Ok? && QuoteWorkbook(row, role, now).Ok?
      ==> QuoteWorkbook(row', role, now) == QuoteWorkbook(row, role, now)
    ensures var row' := row["inputs" := JObj(m[k := v])];
      k == "papel_costo_kg_aplicado" ==> (QuoteWorkbook(row', role, now).Ok? <==> QuoteWorkbook(row, role, now).Ok?)
  {
    var row' := row["inputs" := JObj(m[k := v])];
    ReplacedCostInput(row, m, k, v);
    if QuoteWorkbook(row', role, now).Ok? && QuoteWorkbook(row, role, now).Ok? {
      NoCostLeak(row', row, role, now);
    }
    if k == "papel_costo_kg_aplicado" && ReadRecord(row).Ok? {
      var ra, rb := ReadRecord(row').value, ReadRecord(row).value;
      ClientViewOnlyReadsClientSource(row', row);
      ReadTechnicalReads(ra, rb);
    }
  }
}
