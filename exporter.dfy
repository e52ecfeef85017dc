/**
 * `build_quote_excel_bytes` of lib/exporter.py, the older variant of the Excel export: the
 * client sheet has no paper rows, the technical sheet has a three-row paper section, and
 * the breakdown sections are read with `.get(k, {})` alone, so a section stored as None
 * raises where the newer exporter falls back to `{}`.
 */
module LegacyExporter {
  import opened Wrappers
  import opened PyValues
  import opened RolePermissions
  import opened Sheets
  import opened SeqFacts
  import ExcelExporter

  /** The client rows: header, run length, then prices and notes. */
  function ClientFields(v: ClientView, now: string): Result<seq<Field>, Raised> {
    match BranchFields(v)
    case Err(e) => Err(e)
    case Ok(branch) => Ok(HeaderFields(v, now) + branch + PriceFields(v))
  }

  /** `rows_cliente`, extended with `+=`. */
  method BuildClientRows(v: ClientView, now: string) returns (r: Result<seq<Field>, Raised>)
    ensures r == ClientFields(v, now)
  {
    var rowsCliente := HeaderFields(v, now);
    if v.tipo == JStr("Extendido") {
      var lados := PyInt(v.lados);
      if lados.None? {
        return Err(ConversionError("int(lados)"));
      }
      rowsCliente := rowsCliente + [
        Field("Tiraje (pzas)", Val(v.tirajePiezas)),
        Field("Impresión", Val(JStr(if lados.value == 1 then "Frente" else "Frente y vuelta")))];
    } else {
      rowsCliente := rowsCliente + [
        Field("Tiraje (libros)", Val(v.tirajeLibros)),
        Field("Páginas interiores por libro", Val(v.paginas)),
        Field("Impresión", Val(JStr("Frente y vuelta")))];
    }
    rowsCliente := rowsCliente + [
      Field("Precio unitario", Val(v.precioUnit)),
      Field("Precio total", Val(v.precioTotal)),
      Field("Notas", Val(v.notes))];
    return Ok(rowsCliente);
  }

  /**
   * The reads behind the technical rows.  A missing section is `{}`, but a stored section
   * that is not a dict (None included) raises at its first `.get`.
   */
  function ReadTechnical(rec: Record): (r: Result<Technical, Raised>)
    ensures r.Ok? ==> r.value.hojas == Get(rec.inputs, "hojas_fisicas", Get(r.value.papel, "hojas_fisicas", JNull))
    ensures r.Ok? ==>
      ClicksFallback(Get(rec.inputs, "clicks_maquina", JNull), r.value.hojas, rec.view.tipo, rec.view.lados)
      == Ok(r.value.clicks)
  {
    var papelOpt := AsDict(Get(rec.breakdown, "papel", JObj(map[])));
    if papelOpt.None? then Err(AttributeError("papel.get"))
    else
      var papel := papelOpt.value;
      var hojas := Get(rec.inputs, "hojas_fisicas", Get(papel, "hojas_fisicas", JNull));
      match ClicksFallback(Get(rec.inputs, "clicks_maquina", JNull), hojas, rec.view.tipo, rec.view.lados)
      case Err(e) => Err(e)
      case Ok(clicks) =>
        var impOpt := AsDict(Get(rec.breakdown, "impresion", JObj(map[])));
        if impOpt.None? then Err(AttributeError("imp.get"))
        else
          var adicOpt := AsDict(Get(rec.breakdown, "adicionales", JObj(map[])));
          if adicOpt.None? then Err(AttributeError("adicionales.get"))
          else Ok(Technical(papel, impOpt.value, adicOpt.value, hojas, clicks))
  }

  /** The three "Papel" rows: sheets, stored sheet cost with waste, and paper total. */
  function PapelRows(t: Technical): seq<DetailRow> {
    [DetailRow("Papel", "Hojas físicas", Val(Get(t.papel, "hojas_fisicas", t.hojas))),
     DetailRow("Papel", "Costo hoja (con merma)", Val(Get(t.papel, "costo_hoja_con_merma", JNull))),
     DetailRow("Papel", "Total papel", Val(Get(t.papel, "total", JNull)))]
  }

  /** The technical rows, section by section. */
  function DetailRows(rec: Record, t: Technical): seq<DetailRow> {
    OperacionRows(rec, t) + ImpresionRows(t) + PapelRows(t) + AdicionalesRows(t) + TotalesRows(rec)
  }

  /** The older exporter's three-row "Papel" block. */
  method AddPapelRows(rows: seq<DetailRow>, t: Technical) returns (rows': seq<DetailRow>)
    ensures rows' == rows + PapelRows(t)
  {
    var papel := t.papel;
    rows' := rows + [DetailRow("Papel", "Hojas físicas", Val(Get(papel, "hojas_fisicas", t.hojas)))];
    rows' := rows' + [DetailRow("Papel", "Costo hoja (con merma)", Val(Get(papel, "costo_hoja_con_merma", JNull)))];
    rows' := rows' + [DetailRow("Papel", "Total papel", Val(Get(papel, "total", JNull)))];
  }

  /** `rows_detalle`, filled one `add` at a time, section by section. */
  method BuildDetailRows(rec: Record, t: Technical) returns (rowsDetalle: seq<DetailRow>)
    ensures rowsDetalle == DetailRows(rec, t)
  {
    rowsDetalle := [];
    rowsDetalle := AddOperacionRows(rowsDetalle, rec, t);
    rowsDetalle := AddImpresionRows(rowsDetalle, t);
    rowsDetalle := AddPapelRows(rowsDetalle, t);
    rowsDetalle := AddClosingRows(rowsDetalle, rec, t);
    AppendEmpty(OperacionRows(rec, t));
  }

  /**
   * Everything the exporter reads and builds before it writes, in its order, or the first
   * exception: the role plays no part in it.
   */
  function ExportData(row: Dict, now: string): (r: Result<Export, Raised>)
    ensures r.Ok? ==> |r.value.detail| == 18
    ensures r.Ok? ==> ReadRecord(row).Ok? && ClientFields(ReadRecord(row).value.view, now) == Ok(r.value.client)
  {
    match ReadRecord(row)
    case Err(e) => Err(e)
    case Ok(rec) =>
      match ClientFields(rec.view, now)
      case Err(e) => Err(e)
      case Ok(client) =>
        match ReadTechnical(rec)
        case Err(e) => Err(e)
        case Ok(t) => Ok(Export(client, DetailRows(rec, t), ExtrasItems(t.adicionales)))
  }

  /** The exporter's result: the sheets it writes, or the exception it raises first. */
  function QuoteWorkbook(row: Dict, role: string, now: string): Result<seq<NamedSheet>, Raised> {
    match ExportData(row, now)
    case Err(e) => Err(e)
    case Ok(x) => Ok(Workbook(role, x.client, x.detail, x.extras))
  }

  /** `build_quote_excel_bytes`, with the export time `now` given already formatted. */
  method BuildQuoteExcelBytes(row: Dict, role: string, now: string) returns (r: Result<seq<NamedSheet>, Raised>)
    ensures r == QuoteWorkbook(row, role, now)
  {
    var rr := ReadRecord(row);
    if rr.Err? {
      return Err(rr.error);
    }
    var rec := rr.value;
    var client := BuildClientRows(rec.view, now);
    if client.Err? {
      return Err(client.error);
    }
    var tr := ReadTechnical(rec);
    if tr.Err? {
      return Err(tr.error);
    }
    var detail := BuildDetailRows(rec, tr.value);
    var items := ExtrasItems(tr.value.adicionales);
    var sheets := [NamedSheet(ClientSheetName, ClientSheet(client.value))];
    if CanSeeDetail(role) {
      sheets := sheets + [NamedSheet(DetailSheetName, DetailSheet(detail)), NamedSheet(ExtrasSheetName, ExtrasSheet(items))];
    }
    assert sheets == Workbook(role, client.value, detail, items);
    return Ok(sheets);
  }

  // ---------------------------------------------------------------------------------
  // Properties
  // ---------------------------------------------------------------------------------

  /**
   * The client sheet has 7 header rows, the run-length rows and 3 closing rows: 12 rows for
   * "Extendido", 13 otherwise, and it is the newer exporter's client sheet without its two
   * paper rows.
   */
  lemma ClientSheetShape(v: ClientView, now: string)
    requires ClientFields(v, now).Ok?
    ensures var f := ClientFields(v, now).value;
      && |f| == (if IsExtendido(v) then 12 else 13)
      && f[..7] == HeaderFields(v, now)
      && f[|f| - 3..] == PriceFields(v)
      && ExcelExporter.ClientFields(v, now).Ok?
      && ExcelExporter.ClientFields(v, now).value == f[..|f| - 3] + ExcelExporter.PaperFields(v) + f[|f| - 3..]
  {
    var f := ClientFields(v, now).value;
    var b := BranchFields(v).value;
    assert f == HeaderFields(v, now) + b + PriceFields(v);
    assert f[..|f| - 3] == HeaderFields(v, now) + b;
  }

  /** The technical sheet has 18 rows in section order: Operación 9, Impresión 2, Papel 3, Adicionales 1, Totales 3. */
  lemma DetailSheetShape(rec: Record, t: Technical)
    ensures |DetailRows(rec, t)| == 18
    ensures Sections(DetailRows(rec, t))
         == Repeat("Operación", 9) + Repeat("Impresión", 2) + Repeat("Papel", 3)
            + Repeat("Adicionales", 1) + Repeat("Totales", 3)
  {
    var a := PapelRows(t);
    assert a[0].seccion == "Papel" && a[1].seccion == "Papel" && a[2].seccion == "Papel";
    OneSection(a, "Papel");
    DetailSections(rec, t, a);
  }

  /**
   * The client sheet always comes first; the technical and extras sheets follow exactly when
   * the role is "admin" or "cotizador"; and the client sheet is the same for every role.
   */
  lemma SheetsGatedByRole(row: Dict, role: string, now: string)
    requires QuoteWorkbook(row, role, now).Ok?
    ensures var w := QuoteWorkbook(row, role, now).value;
      && w[0].name == ClientSheetName
      && (|w| > 1 <==> CanSeeDetail(role))
      && (CanSeeDetail(role) ==> |w| == 3 && w[1].name == DetailSheetName && w[2].name == ExtrasSheetName
                                 && |w[1].sheet.rows| == 18)
      && QuoteWorkbook(row, RoleVendedor, now).Ok?
      && QuoteWorkbook(row, RoleVendedor, now).value == [w[0]]
  {
    var x := ExportData(row, now).value;
    WorkbookGated(role, x.client, x.detail, x.extras);
  }

  /**
   * Costs never reach a role that fails the test: two records that agree on what the
   * client sheet reads export identically, however their breakdowns differ.
   */
  lemma NoCostLeak(a: Dict, b: Dict, role: string, now: string)
    requires !CanSeeDetail(role)
    requires QuoteWorkbook(a, role, now).Ok? && QuoteWorkbook(b, role, now).Ok?
    requires SameClientSource(a, b)
    ensures QuoteWorkbook(a, role, now) == QuoteWorkbook(b, role, now)
  {
    var x, y := ExportData(a, now).value, ExportData(b, now).value;
    ClientViewOnlyReadsClientSource(a, b);
    WorkbookHidesDetail(role, x.client, x.detail, y.detail, x.extras, y.extras);
  }

  /** A record holding nothing but a paper section stored as None. */
  const NullPapelRow: Dict := map["breakdown" := JObj(map["papel" := JNull])]

  lemma NullPapelRecord()
    ensures ReadRecord(NullPapelRow).Ok?
    ensures var rec := ReadRecord(NullPapelRow).value;
      && rec.inputs == map[] && rec.breakdown == map["papel" := JNull] && !IsExtendido(rec.view)
  {
  }

  /**
   * A record whose paper section is stored as None makes this exporter raise, for every
   * role, while the newer exporter treats the section as empty.
   */
  lemma NullSectionRaisesOnlyHere(now: string)
    ensures QuoteWorkbook(NullPapelRow, RoleAdmin, now) == Err(AttributeError("papel.get"))
    ensures QuoteWorkbook(NullPapelRow, RoleVendedor, now) == Err(AttributeError("papel.get"))
    ensures ExcelExporter.QuoteWorkbook(NullPapelRow, RoleAdmin, now).Ok?
  {
    NullPapelRaises(now);
    NullPapelAcceptedByNewer(now);
  }

  lemma NullPapelRaises(now: string)
    ensures ExportData(NullPapelRow, now) == Err(AttributeError("papel.get"))
  {
    NullPapelRecord();
    var rec := ReadRecord(NullPapelRow).value;
    assert ClientFields(rec.view, now).Ok?;
    assert ReadTechnical(rec) == Err(AttributeError("papel.get"));
  }

  lemma NullPapelAcceptedByNewer(now: string)
    ensures ExcelExporter.ExportData(NullPapelRow, now).Ok?
  {
    NullPapelRecord();
    var rec := ReadRecord(NullPapelRow).value;
    assert ExcelExporter.ClientFields(rec.view, now).Ok?;
    assert ExcelExporter.ReadTechnical(rec).Ok?;
  }

  /** The technical reads look at the breakdown, the view and two entries of `inputs` only. */
  lemma ReadTechnicalReads(ra: Record, rb: Record)
    requires ra.breakdown == rb.breakdown && ra.view == rb.view
    requires Agree(ra.inputs, rb.inputs, "hojas_fisicas") && Agree(ra.inputs, rb.inputs, "clicks_maquina")
    ensures ReadTechnical(ra) == ReadTechnical(rb)
  {
  }

  /**
   * The internal costs stored in `inputs` never reach a role that fails the test: replacing
   * the applied paper price or the machine clicks leaves every workbook that is produced as it
   * was, and the paper price, which this exporter never reads, cannot make it fail.
   */
  lemma StoredCostsStayHidden(row: Dict, m: Dict, k: string, v: Json, role: string, now: string)
    requires !CanSeeDetail(role)
    requires "inputs" in row && row["inputs"] == JObj(m)
    requires k in CostInputKeys
    ensures var row' := row["inputs" := JObj(m[k := v])];
      QuoteWorkbook(row', role, now).Ok? && QuoteWorkbook(row, role, now).Ok?
      ==> QuoteWorkbook(row', role, now) == QuoteWorkbook(row, role, now)
    ensures var row' := row["inputs" := JObj(m[k := v])];
      k == "papel_costo_kg_aplicado" ==> (QuoteWorkbook(row', role, now).Ok? <==> QuoteWorkbook(row, role, now).Ok?)
  {
    var row' := row["inputs" := JObj(m[k := v])];
    ReplacedCostInput(row, m, k, v);
    if QuoteWorkbook(row', role, now).Ok? && QuoteWorkbook(row, role, now).Ok? {
      NoCostLeak(row', row, role, now);
    }
    if k == "papel_costo_kg_aplicado" && ReadRecord(row).Ok? {
      var ra, rb := ReadRecord(row').value, ReadRecord(row).value;
      ClientViewOnlyReadsClientSource(row', row);
      ReadTechnicalReads(ra, rb);
    }
  }
}
