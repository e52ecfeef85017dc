/**
 * `build_quote_pdf_bytes` of lib/pdf_exporter.py: the client PDF of a stored quote.  The
 * reportlab canvas becomes a `Canvas` object whose drawing calls append to a sequence of
 * operations; number formatting stays abstract (see `Piece`).  Whether the logo file exists
 * is a parameter.
 */
module PdfExporter {
  import opened Wrappers
  import opened PyValues
  import opened SeqFacts
  import Sheets

  /** A letter page in points. */
  const PageW: int := 612
  const PageH: int := 792
  const LogoW: int := 140
  const LogoH: int := 50
  const Margin: int := 50

  /** The drop of the cursor after each drawn line. */
  const LineStep: int := 14

  const Title: string := "Cotización Impresion Digital"
  const Footer: string := "Documento generado por Revoria App — Cotización comercial (sin desglose de costos)."

  /** One canvas call. */
  datatype Op =
    | Image(x: int, y: int, w: int, h: int)  // the logo
    | Font(name: string, size: int)
    | Str(x: int, y: int, text: Text)        // drawString
    | Rule(x1: int, y1: int, x2: int, y2: int)
    | EndPage
    | Saved

  /** The canvas: every call appends its operation. */
  class Canvas {
    var ops: seq<Op>

    constructor ()
      ensures ops == []
    {
      ops := [];
    }

    method DrawImage(x: int, y: int, w: int, h: int)
      modifies this
      ensures ops == old(ops) + [Image(x, y, w, h)]
    {
      ops := ops + [Image(x, y, w, h)];
    }

    method SetFont(name: string, size: int)
      modifies this
      ensures ops == old(ops) + [Font(name, size)]
    {
      ops := ops + [Font(name, size)];
    }

    method DrawString(x: int, y: int, text: Text)
      modifies this
      ensures ops == old(ops) + [Str(x, y, text)]
    {
      ops := ops + [Str(x, y, text)];
    }

    method Line(x1: int, y1: int, x2: int, y2: int)
      modifies this
      ensures ops == old(ops) + [Rule(x1, y1, x2, y2)]
    {
      ops := ops + [Rule(x1, y1, x2, y2)];
    }

    method ShowPage()
      modifies this
      ensures ops == old(ops) + [EndPage]
    {
      ops := ops + [EndPage];
    }

    method Save()
      modifies this
      ensures ops == old(ops) + [Saved]
    {
      ops := ops + [Saved];
    }
  }

  // ---------------------------------------------------------------------------------
  // Texts
  // ---------------------------------------------------------------------------------

  /** `str(v or default)` */
  function StrOr(v: Json, default: Json): Text {
    [Show(Or(v, default))]
  }

  /** `str(v or "")` is empty exactly when `v` is falsy. */
  lemma StrOrBlank(v: Json)
    ensures Blank(StrOr(v, JStr(""))) <==> !Truthy(v)
  {
    assert StrOr(v, JStr(""))[0] == Show(Or(v, JStr("")));
  }

  /** `_fmt_cm`: one decimal and " cm", or "" when `float()` fails. */
  function FmtCm(v: Json): (t: Text)
    ensures Blank(t) <==> PyFloat(v).None?
  {
    match PyFloat(v)
    case None => []
    case Some(x) =>
      var t := [Fixed(x, 1), Lit(" cm")];
      assert !PieceBlank(t[0]);
      t
  }

  /** `_fmt_int`: the integer, or "" when `int()` fails. */
  function FmtInt(v: Json): (t: Text)
    ensures Blank(t) <==> PyInt(v).None?
  {
    match PyInt(v)
    case None => []
    case Some(n) =>
      var t := [Show(JInt(n))];
      assert !PieceBlank(t[0]);
      t
  }

  /** `money`: the currency, " $" and the grouped amount, or "" when `float()` fails. */
  function Money(currency: Text, v: Json, decimals: nat): Text {
    match PyFloat(v)
    case None => []
    case Some(x) => currency + [Lit(" $"), Grouped(x, decimals)]
  }

  /** `f"{name}: {value}"` */
  function Labeled(name: string, value: Text): Text {
    [Lit(name), Lit(": ")] + value
  }

  /** `str(v) == "1"` */
  predicate StrIsOne(v: Json) {
    v == JInt(1) || v == JStr("1")
  }

  /** `tipo == "Extendido"` for `tipo = str(x or "")`. */
  predicate TipoIsExtendido(inputs: Dict) {
    Or(Get(inputs, "tipo_producto", JNull), JStr("")) == JStr("Extendido")
  }

  /** The run-length text: pieces, or books with the interior pages when they are stored. */
  function TirajeText(inputs: Dict): Text {
    if TipoIsExtendido(inputs) then
      FmtInt(Get(inputs, "tiraje_piezas", JNull)) + [Lit(" pzas")]
    else
      var pags := Get(inputs, "paginas_por_libro", JNull);
      FmtInt(Get(inputs, "tiraje_libros", JNull)) + [Lit(" libros")]
      + (if pags != JNull then [Lit(" · ")] + FmtInt(pags) + [Lit(" pág interiores")] else [])
  }

  /** The sides text: "Frente" only for a single-sided "Extendido" job. */
  function ImpresionText(inputs: Dict): string {
    if TipoIsExtendido(inputs) && StrIsOne(Get(inputs, "lados", JNull)) then "Frente" else "Frente y vuelta"
  }

  /**
   * The paper text: a string paper type with its grammage when that converts; any other
   * truthy paper type is shown as is (adding text to it raises, and the error is caught).
   */
  function PapelText(tipoPapel: Json, gramaje: Json): Text {
    match tipoPapel
    case JStr(s) =>
      [Lit(s)]
      + (if gramaje != JNull && PyFloat(gramaje).Some?
         then [Lit(" · "), Fixed(PyFloat(gramaje).value, 0), Lit(" g/m²")] else [])
    case _ => [Show(tipoPapel)]
  }

  // ---------------------------------------------------------------------------------
  // What is drawn
  // ---------------------------------------------------------------------------------

  /** `line(name, value)`: `name: value`, or nothing when the value is empty. */
  function Line(name: string, value: Text): (ts: seq<Text>)
    ensures ts == [] <==> Blank(value)
    ensures ts != [] ==> ts == [Labeled(name, value)]
  {
    if Blank(value) then [] else [Labeled(name, value)]
  }

  /** Texts drawn one below the other at the left margin, starting at height `y`. */
  function DrawLines(y: int, ts: seq<Text>): (ops: seq<Op>)
    ensures |ops| == |ts|
    ensures forall i :: 0 <= i < |ts| ==> ops[i] == Str(Margin, y - LineStep * i, ts[i])
  {
    seq(|ts|, i requires 0 <= i < |ts| => Str(Margin, y - LineStep * i, ts[i]))
  }

  /**
   * The header lines for the stored code, date, author, role, customer and notes: ID, date
   * and the author line when their texts are not empty, customer and notes when truthy.
   */
  function HeaderText(code: Text, at: Text, author: Text, role: Text, customer: Json, notes: Json): seq<Text> {
    (if !Blank(code) then [Labeled("ID", code)] else [])
    + (if !Blank(at) then [Labeled("Fecha", at)] else [])
    + (if !Blank(author) || !Blank(role) then [Labeled("Generó", author + [Lit(" (")] + role + [Lit(")")])] else [])
    + (if Truthy(customer) then [Labeled("Cliente", [Show(customer)])] else [])
    + (if Truthy(notes) then [Labeled("Notas", [Show(notes)])] else [])
  }

  /** The header lines of a stored quote. */
  function HeaderLines(row: Dict): seq<Text> {
    HeaderText(StrOr(Get(row, "quote_code", JNull), JStr("")), StrOr(Get(row, "created_at", JNull), JStr("")),
               StrOr(Get(row, "created_by", JNull), JStr("")), StrOr(Get(row, "created_role", JNull), JStr("")),
               Get(row, "customer_name", JNull), Get(row, "notes", JNull))
  }

  /** The job section's first calls: product, final size, run length when not empty, sides. */
  function DetailHeadText(tipo: Text, medida: Text, tiraje: Text, imp: string): seq<Text> {
    Line("Producto", tipo) + Line("Medida final", medida)
    + (if !Blank(tiraje) then Line("Tiraje", tiraje) else [])
    + Line("Impresión", [Lit(imp)])
  }

  /** `f"{_fmt_cm(ancho)} × {_fmt_cm(alto)}"` */
  function MedidaText(inputs: Dict): Text {
    FmtCm(Get(inputs, "ancho_final_cm", JNull)) + [Lit(" × ")] + FmtCm(Get(inputs, "alto_final_cm", JNull))
  }

  /** The inks line, for a stored `n_tintas` that converts with `int()`. */
  function TintasText(nTintas: Json): seq<Text> {
    if nTintas != JNull && PyInt(nTintas).Some?
    then Line("Tintas", [Lit(if PyInt(nTintas).value == 4 then "CMYK (4)" else "1 tinta")]) else []
  }

  /** The letter factor with four decimals, or nothing when `float()` fails. */
  function FactorText(factor: Json): Text {
    match PyFloat(factor)
    case None => []
    case Some(x) => [Fixed(x, 4)]
  }

  /** The job section's last calls: paper, layout, sheets and the letter factor. */
  function DetailTailText(tipoPapel: Json, gramaje: Json, ppl: Json, orient: Json, hojas: Json, factor: Json)
    : seq<Text>
  {
    (if Truthy(tipoPapel) then Line("Papel", PapelText(tipoPapel, gramaje)) else [])
    + (if ppl != JNull then Line("Cubicación", [Show(ppl), Lit(" por lado ("), Show(orient), Lit(")")]) else [])
    + (if hojas != JNull then Line("Tabloides (papel)", FmtInt(hojas)) else [])
    + (if factor != JNull && PyFloat(factor).Some? then Line("Factor vs carta", FactorText(factor)) else [])
  }

  /**
   * The lines of the job section; `int(n_tintas)` is not guarded and raises on a stored
   * value that does not convert.
   */
  function DetailLines(inputs: Dict): Result<seq<Text>, Raised> {
    var nTintas := Get(inputs, "n_tintas", JNull);
    if nTintas != JNull && PyInt(nTintas).None? then Err(ConversionError("int(n_tintas)"))
    else
      Ok(DetailHeadText(StrOr(Get(inputs, "tipo_producto", JNull), JStr("")), MedidaText(inputs),
                        TirajeText(inputs), ImpresionText(inputs))
         + TintasText(nTintas)
         + DetailTailText(Get(inputs, "tipo_papel", JNull), Get(inputs, "papel_gramaje_gm2", JNull),
                          Get(inputs, "piezas_por_lado", JNull), Get(inputs, "orientacion", JNull),
                          Get(inputs, "hojas_fisicas", JNull), Get(inputs, "factor_carta", JNull)))
  }

  /** The currency shown with the prices, "MXN" by default. */
  function Currency(row: Dict): Text {
    StrOr(Get(row, "currency", JNull), JStr("MXN"))
  }

  /** The two price lines for a currency and the two stored prices. */
  function PriceText(currency: Text, unit: Json, total: Json): seq<Text> {
    Line("Precio unitario", Money(currency, unit, 4)) + Line("Precio total", Money(currency, total, 2))
  }

  function PriceLines(row: Dict): seq<Text> {
    PriceText(Currency(row), Get(row, "price_unit", JNull), Get(row, "price_total", JNull))
  }

  /** The logo when its file exists. */
  function LogoOps(logoExists: bool): seq<Op> {
    if logoExists then [Image(Margin, PageH - Margin - LogoH, LogoW, LogoH)] else []
  }

  /** The title block beside the logo. */
  function TitleOps(): seq<Op> {
    var y := PageH - Margin - LogoH - 20;
    [Font("Helvetica-Bold", 16), Str(Margin + LogoW + 20, y + 10, [Lit(Title)]),
     Font("Helvetica", 10), Str(Margin + LogoW + 20, y - 6, [Lit("Offset Santiago")]),
     Font("Helvetica", 10)]
  }

  /** A rule across the page at `y`, then a bold section title 22 points below it. */
  function SectionOps(y: int, title: string): seq<Op> {
    [Rule(Margin, y, PageW - Margin, y), Font("Helvetica-Bold", 12), Str(Margin, y - 22, [Lit(title)]),
     Font("Helvetica", 10)]
  }

  function FooterOps(): seq<Op> {
    [Font("Helvetica-Oblique", 8), Str(Margin, 40, [Lit(Footer)]), EndPage, Saved]
  }

  /** The height of the first header line. */
  const HeaderTop: int := PageH - Margin - LogoH - 20 - 22

  /** Logo, title, the header lines from `HeaderTop` down and the job section's title 8 points below them. */
  function TopOps(logoExists: bool, header: seq<Text>): seq<Op> {
    LogoOps(logoExists) + TitleOps() + DrawLines(HeaderTop, header)
    + SectionOps(HeaderTop - LineStep * |header| - 8, "Características del trabajo")
  }

  /** The height of the first job line below a header of `header` lines. */
  function BodyTop(header: seq<Text>): int {
    HeaderTop - LineStep * |header| - 8 - 40
  }

  /** The prices section 8 points below the cursor `y`, its lines, and the footer. */
  function BottomOps(y: int, prices: seq<Text>): seq<Op> {
    SectionOps(y - 8, "Precios") + DrawLines(y - 8 - 40, prices) + FooterOps()
  }

  /** The page: the top part, the job lines, then the prices and the footer below the last job line. */
  function Page(logoExists: bool, header: seq<Text>, body: seq<Text>, prices: seq<Text>): seq<Op> {
    TopOps(logoExists, header) + DrawLines(BodyTop(header), body)
    + BottomOps(BodyTop(header) - LineStep * |body|, prices)
  }

  /** The canvas operations of the client PDF, or the exception raised first. */
  function QuotePdf(row: Dict, logoExists: bool): Result<seq<Op>, Raised> {
    match AsDictOr(Get(row, "inputs", JNull))
    case None => Err(AttributeError("inputs.get"))
    case Some(inputs) =>
      match DetailLines(inputs)
      case Err(e) => Err(e)
      case Ok(body) => Ok(Page(logoExists, HeaderLines(row), body, PriceLines(row)))
  }

  // ---------------------------------------------------------------------------------
  // The drawing code
  // ---------------------------------------------------------------------------------

  lemma DrawLinesSnoc(y: int, ts: seq<Text>, t: Text)
    ensures DrawLines(y, ts + [t]) == DrawLines(y, ts) + [Str(Margin, y - LineStep * |ts|, t)]
  {
  }

  /**
   * A `drawString` at the cursor that lowers it by one step.  The ghost arguments carry the
   * texts drawn since the cursor stood at `y0` with the canvas at `base`.
   */
  method DrawText(c: Canvas, y: int, t: Text, ghost y0: int, ghost base: seq<Op>, ghost drawn: seq<Text>)
    returns (y': int, ghost drawn': seq<Text>)
    requires c.ops == base + DrawLines(y0, drawn) && y == y0 - LineStep * |drawn|
    modifies c
    ensures drawn' == drawn + [t]
    ensures c.ops == base + DrawLines(y0, drawn') && y' == y0 - LineStep * |drawn'|
  {
    DrawLinesSnoc(y0, drawn, t);
    c.DrawString(Margin, y, t);
    drawn' := drawn + [t];
    y' := y - LineStep;
  }

  /** The `line` helper: draws `name: value` and lowers the cursor only when the value is not empty. */
  method DrawLine(c: Canvas, y: int, name: string, value: Text,
                  ghost y0: int, ghost base: seq<Op>, ghost drawn: seq<Text>)
    returns (y': int, ghost drawn': seq<Text>)
    requires c.ops == base + DrawLines(y0, drawn) && y == y0 - LineStep * |drawn|
    modifies c
    ensures drawn' == drawn + Line(name, value)
    ensures c.ops == base + DrawLines(y0, drawn') && y' == y0 - LineStep * |drawn'|
  {
    y', drawn' := y, drawn;
    if !Blank(value) {
      y', drawn' := DrawText(c, y, Labeled(name, value), y0, base, drawn);
    } else {
      AppendEmpty(drawn);
    }
  }

  /** A `line` call behind the test `when`. */
  method DrawLineWhen(c: Canvas, y: int, when: bool, name: string, value: Text,
                      ghost y0: int, ghost base: seq<Op>, ghost drawn: seq<Text>)
    returns (y': int, ghost drawn': seq<Text>)
    requires c.ops == base + DrawLines(y0, drawn) && y == y0 - LineStep * |drawn|
    modifies c
    ensures drawn' == drawn + (if when then Line(name, value) else [])
    ensures c.ops == base + DrawLines(y0, drawn') && y' == y0 - LineStep * |drawn'|
  {
    y', drawn' := y, drawn;
    if when {
      y', drawn' := DrawLine(c, y, name, value, y0, base, drawn);
    } else {
      AppendEmpty(drawn);
    }
  }

  /** A `drawString` and step down behind the test `when`. */
  method DrawTextWhen(c: Canvas, y: int, when: bool, t: Text, ghost y0: int, ghost base: seq<Op>, ghost drawn: seq<Text>)
    returns (y': int, ghost drawn': seq<Text>)
    requires c.ops == base + DrawLines(y0, drawn) && y == y0 - LineStep * |drawn|
    modifies c
    ensures drawn' == drawn + (if when then [t] else [])
    ensures c.ops == base + DrawLines(y0, drawn') && y' == y0 - LineStep * |drawn'|
  {
    y', drawn' := y, drawn;
    if when {
      y', drawn' := DrawText(c, y, t, y0, base, drawn);
    } else {
      AppendEmpty(drawn);
    }
  }

  /** The header drawn from the values read from the row. */
  method DrawHeaderText(c: Canvas, y: int, code: Text, at: Text, author: Text, role: Text, customer: Json, notes: Json)
    returns (y': int)
    modifies c
    ensures c.ops == old(c.ops) + DrawLines(y, HeaderText(code, at, author, role, customer, notes))
    ensures y' == y - LineStep * |HeaderText(code, at, author, role, customer, notes)|
  {
    ghost var base := c.ops;
    ghost var drawn: seq<Text>;
    y', drawn := DrawTextWhen(c, y, !Blank(code), Labeled("ID", code), y, base, []);
    y', drawn := DrawTextWhen(c, y', !Blank(at), Labeled("Fecha", at), y, base, drawn);
    y', drawn := DrawTextWhen(c, y', !Blank(author) || !Blank(role),
                              Labeled("Generó", author + [Lit(" (")] + role + [Lit(")")]), y, base, drawn);
    y', drawn := DrawTextWhen(c, y', Truthy(customer), Labeled("Cliente", [Show(customer)]), y, base, drawn);
    y', drawn := DrawTextWhen(c, y', Truthy(notes), Labeled("Notas", [Show(notes)]), y, base, drawn);
    AppendEmpty(if !Blank(code) then [Labeled("ID", code)] else []);
  }

  /** The header lines, each drawn and followed by a step down when its test holds. */
  method DrawHeader(c: Canvas, y: int, row: Dict) returns (y': int)
    modifies c
    ensures c.ops == old(c.ops) + DrawLines(y, HeaderLines(row))
    ensures y' == y - LineStep * |HeaderLines(row)|
  {
    var quoteCode := StrOr(Get(row, "quote_code", JNull), JStr(""));
    var createdAt := StrOr(Get(row, "created_at", JNull), JStr(""));
    var createdBy := StrOr(Get(row, "created_by", JNull), JStr(""));
    var createdRole := StrOr(Get(row, "created_role", JNull), JStr(""));
    var customerName := Get(row, "customer_name", JNull);
    var notes := Get(row, "notes", JNull);
    y' := DrawHeaderText(c, y, quoteCode, createdAt, createdBy, createdRole, customerName, notes);
  }

  /** The first four `line` calls of the job section. */
  method DrawDetailHead(c: Canvas, y: int, tipo: Text, medida: Text, tirajeTxt: Text, impTxt: string,
                        ghost y0: int, ghost base: seq<Op>, ghost drawn: seq<Text>)
    returns (y': int, ghost drawn': seq<Text>)
    requires c.ops == base + DrawLines(y0, drawn) && y == y0 - LineStep * |drawn|
    modifies c
    ensures drawn' == drawn + DetailHeadText(tipo, medida, tirajeTxt, impTxt)
    ensures c.ops == base + DrawLines(y0, drawn') && y' == y0 - LineStep * |drawn'|
  {
    y', drawn' := DrawLine(c, y, "Producto", tipo, y0, base, drawn);
    y', drawn' := DrawLine(c, y', "Medida final", medida, y0, base, drawn');
    y', drawn' := DrawLineWhen(c, y', !Blank(tirajeTxt), "Tiraje", tirajeTxt, y0, base, drawn');
    y', drawn' := DrawLine(c, y', "Impresión", [Lit(impTxt)], y0, base, drawn');
    AppendGroups(drawn, Line("Producto", tipo), Line("Medida final", medida),
                 if !Blank(tirajeTxt) then Line("Tiraje", tirajeTxt) else [], Line("Impresión", [Lit(impTxt)]));
  }

  /** The last four `line` calls of the job section, each behind its own test. */
  method DrawDetailTail(c: Canvas, y: int, tipoPapel: Json, gramaje: Json, ppl: Json, orient: Json,
                        hojas: Json, factor: Json, ghost y0: int, ghost base: seq<Op>, ghost drawn: seq<Text>)
    returns (y': int, ghost drawn': seq<Text>)
    requires c.ops == base + DrawLines(y0, drawn) && y == y0 - LineStep * |drawn|
    modifies c
    ensures drawn' == drawn + DetailTailText(tipoPapel, gramaje, ppl, orient, hojas, factor)
    ensures c.ops == base + DrawLines(y0, drawn') && y' == y0 - LineStep * |drawn'|
  {
    var cubicacion := [Show(ppl), Lit(" por lado ("), Show(orient), Lit(")")];
    y', drawn' := DrawLineWhen(c, y, Truthy(tipoPapel), "Papel", PapelText(tipoPapel, gramaje), y0, base, drawn);
    y', drawn' := DrawLineWhen(c, y', ppl != JNull, "Cubicación", cubicacion, y0, base, drawn');
    y', drawn' := DrawLineWhen(c, y', hojas != JNull, "Tabloides (papel)", FmtInt(hojas), y0, base, drawn');
    // `float(factor_carta)` raising inside the `try` skips the call
    y', drawn' := DrawLineWhen(c, y', factor != JNull && PyFloat(factor).Some?, "Factor vs carta",
                               FactorText(factor), y0, base, drawn');
    AppendGroups(drawn,
                 if Truthy(tipoPapel) then Line("Papel", PapelText(tipoPapel, gramaje)) else [],
                 if ppl != JNull then Line("Cubicación", cubicacion) else [],
                 if hojas != JNull then Line("Tabloides (papel)", FmtInt(hojas)) else [],
                 if factor != JNull && PyFloat(factor).Some? then Line("Factor vs carta", FactorText(factor)) else []);
  }

  /** The job section's `line` calls; raises where `int(n_tintas)` does. */
  method DrawDetails(c: Canvas, y: int, inputs: Dict) returns (r: Result<int, Raised>)
    modifies c
    ensures r.Err? <==> DetailLines(inputs).Err?
    ensures r.Err? ==> r.error == DetailLines(inputs).error
    ensures r.Ok? ==> c.ops == old(c.ops) + DrawLines(y, DetailLines(inputs).value)
                      && r.value == y - LineStep * |DetailLines(inputs).value|
  {
    ghost var base := c.ops;
    var tipo := StrOr(Get(inputs, "tipo_producto", JNull), JStr(""));
    var medida := MedidaText(inputs);
    var tirajeTxt := TirajeText(inputs);
    var impTxt := ImpresionText(inputs);
    var nTintas := Get(inputs, "n_tintas", JNull);
    var tipoPapel := Get(inputs, "tipo_papel", JNull);
    var gramaje := Get(inputs, "papel_gramaje_gm2", JNull);
    var ppl := Get(inputs, "piezas_por_lado", JNull);
    var orient := Get(inputs, "orientacion", JNull);
    var hojas := Get(inputs, "hojas_fisicas", JNull);
    var factor := Get(inputs, "factor_carta", JNull);
    var y1, drawn := DrawDetailHead(c, y, tipo, medida, tirajeTxt, impTxt, y, base, []);
    AppendEmpty(DetailHeadText(tipo, medida, tirajeTxt, impTxt));
    if nTintas != JNull {
      var n := PyInt(nTintas);
      if n.None? {
        return Err(ConversionError("int(n_tintas)"));
      }
      ghost var before := drawn;
      y1, drawn := DrawLine(c, y1, "Tintas", [Lit(if n.value == 4 then "CMYK (4)" else "1 tinta")], y, base, drawn);
      assert drawn == before + TintasText(nTintas);
    } else {
      AppendEmpty(drawn);
    }
    ghost var expected := DetailHeadText(tipo, medida, tirajeTxt, impTxt) + TintasText(nTintas)
                          + DetailTailText(tipoPapel, gramaje, ppl, orient, hojas, factor);
    assert DetailLines(inputs) == Ok(expected);
    assert drawn == DetailHeadText(tipo, medida, tirajeTxt, impTxt) + TintasText(nTintas);
    y1, drawn := DrawDetailTail(c, y1, tipoPapel, gramaje, ppl, orient, hojas, factor, y, base, drawn);
    assert drawn == expected;
    return Ok(y1);
  }

  /** The two price lines. */
  method DrawPrices(c: Canvas, y: int, row: Dict) returns (y': int)
    modifies c
    ensures c.ops == old(c.ops) + DrawLines(y, PriceLines(row))
    ensures y' == y - LineStep * |PriceLines(row)|
  {
    ghost var base := c.ops;
    var currency := StrOr(Get(row, "currency", JNull), JStr("MXN"));
    ghost var drawn: seq<Text>;
    y', drawn := DrawLine(c, y, "Precio unitario", Money(currency, Get(row, "price_unit", JNull), 4), y, base, []);
    y', drawn := DrawLine(c, y', "Precio total", Money(currency, Get(row, "price_total", JNull), 2), y, base, drawn);
    AppendEmpty(Line("Precio unitario", Money(currency, Get(row, "price_unit", JNull), 4)));
  }

  /** The logo, when its file exists, and the title block beside it. */
  method DrawTitle(c: Canvas, logoExists: bool) returns (y: int)
    modifies c
    ensures c.ops == old(c.ops) + LogoOps(logoExists) + TitleOps()
    ensures y == HeaderTop
  {
    if logoExists {
      c.DrawImage(Margin, PageH - Margin - LogoH, LogoW, LogoH);
    }
    y := PageH - Margin - LogoH - 20;
    c.SetFont("Helvetica-Bold", 16);
    c.DrawString(Margin + LogoW + 20, y + 10, [Lit(Title)]);
    c.SetFont("Helvetica", 10);
    c.DrawString(Margin + LogoW + 20, y - 6, [Lit("Offset Santiago")]);
    y := y - 22;
    c.SetFont("Helvetica", 10);
  }

  /** The rule 8 points below the cursor and the section title; the cursor ends 48 points lower. */
  method DrawSection(c: Canvas, y: int, title: string) returns (y': int)
    modifies c
    ensures c.ops == old(c.ops) + SectionOps(y - 8, title)
    ensures y' == y - 8 - 40
  {
    y' := y - 8;
    c.Line(Margin, y', PageW - Margin, y');
    y' := y' - 22;
    c.SetFont("Helvetica-Bold", 12);
    c.DrawString(Margin, y', [Lit(title)]);
    y' := y' - 18;
    c.SetFont("Helvetica", 10);
  }

  /** The footer, the end of the page and the end of the document. */
  method DrawFooter(c: Canvas)
    modifies c
    ensures c.ops == old(c.ops) + FooterOps()
  {
    c.SetFont("Helvetica-Oblique", 8);
    c.DrawString(Margin, 40, [Lit(Footer)]);
    c.ShowPage();
    c.Save();
  }

  /** Everything above the job lines: logo, title, header and the job section's title. */
  method DrawTop(c: Canvas, row: Dict, logoExists: bool) returns (y: int)
    modifies c
    ensures c.ops == old(c.ops) + TopOps(logoExists, HeaderLines(row))
    ensures y == BodyTop(HeaderLines(row))
  {
    ghost var before := c.ops;
    y := DrawTitle(c, logoExists);
    y := DrawHeader(c, y, row);
    y := DrawSection(c, y, "Características del trabajo");
    AppendGroups(before, LogoOps(logoExists), TitleOps(), DrawLines(HeaderTop, HeaderLines(row)),
                 SectionOps(HeaderTop - LineStep * |HeaderLines(row)| - 8, "Características del trabajo"));
  }

  /** Everything below the job lines: the prices section and the footer. */
  method DrawBottom(c: Canvas, y: int, row: Dict)
    modifies c
    ensures c.ops == old(c.ops) + BottomOps(y, PriceLines(row))
  {
    ghost var before := c.ops;
    var y' := DrawSection(c, y, "Precios");
    y' := DrawPrices(c, y', row);
    DrawFooter(c);
    AppendGroups3(before, SectionOps(y - 8, "Precios"), DrawLines(y - 8 - 40, PriceLines(row)), FooterOps());
  }

  /** `build_quote_pdf_bytes`: the operations the canvas receives, or the exception raised. */
  method BuildQuotePdfBytes(row: Dict, logoExists: bool) returns (r: Result<seq<Op>, Raised>)
    ensures r == QuotePdf(row, logoExists)
  {
    var inputsOpt := AsDictOr(Get(row, "inputs", JNull));
    if inputsOpt.None? {
      return Err(AttributeError("inputs.get"));
    }
    var inputs := inputsOpt.value;
    var c := new Canvas();
    var y := DrawTop(c, row, logoExists);
    ghost var top := c.ops;
    AppendEmpty(TopOps(logoExists, HeaderLines(row)));
    var d := DrawDetails(c, y, inputs);
    if d.Err? {
      return Err(d.error);
    }
    ghost var body := DetailLines(inputs).value;
    ghost var middle := c.ops;
    DrawBottom(c, d.value, row);
    PageFromParts(logoExists, HeaderLines(row), body, PriceLines(row), top, y, middle, d.value);
    return Ok(c.ops);
  }

  /** The three drawing stages, glued together, are the page. */
  lemma PageFromParts(logoExists: bool, h: seq<Text>, b: seq<Text>, p: seq<Text>,
                      top: seq<Op>, y: int, middle: seq<Op>, y2: int)
    requires top == TopOps(logoExists, h) && y == BodyTop(h)
    requires middle == top + DrawLines(y, b) && y2 == y - LineStep * |b|
    ensures middle + BottomOps(y2, p) == Page(logoExists, h, b, p)
  {
  }

  // ---------------------------------------------------------------------------------
  // Properties
  // ---------------------------------------------------------------------------------

  /** Some drawn line carries the label `name`. */
  predicate Shows(ts: seq<Text>, name: string) {
    exists i :: 0 <= i < |ts| && |ts[i]| > 0 && ts[i][0] == Lit(name)
  }

  lemma ShowsAppend(a: seq<Text>, b: seq<Text>, name: string)
    ensures Shows(a + b, name) <==> Shows(a, name) || Shows(b, name)
  {
    if Shows(a + b, name) {
      var i :| 0 <= i < |a + b| && |(a + b)[i]| > 0 && (a + b)[i][0] == Lit(name);
      if i >= |a| {
        assert b[i - |a|] == (a + b)[i];
      }
    }
    if Shows(a, name) {
      var i :| 0 <= i < |a| && |a[i]| > 0 && a[i][0] == Lit(name);
      assert (a + b)[i] == a[i];
    }
    if Shows(b, name) {
      var i :| 0 <= i < |b| && |b[i]| > 0 && b[i][0] == Lit(name);
      assert (a + b)[|a| + i] == b[i];
    }
  }

  lemma ShowsLabeled(when: bool, tag: string, value: Text, name: string)
    ensures Shows(if when then [Labeled(tag, value)] else [], name) <==> when && tag == name
  {
    if when {
      assert [Labeled(tag, value)][0][0] == Lit(tag);
    }
  }

  lemma ShowsLine(when: bool, tag: string, value: Text, name: string)
    ensures Shows(if when then Line(tag, value) else [], name) <==> when && !Blank(value) && tag == name
  {
    ShowsLabeled(when && !Blank(value), tag, value, name);
  }

  /** Which labels the header texts show, for values already turned into texts. */
  lemma HeaderTextShows(code: Text, at: Text, author: Text, role: Text, customer: Json, notes: Json, name: string)
    ensures Shows(HeaderText(code, at, author, role, customer, notes), name)
        <==> (!Blank(code) && name == "ID") || (!Blank(at) && name == "Fecha")
             || ((!Blank(author) || !Blank(role)) && name == "Generó")
             || (Truthy(customer) && name == "Cliente") || (Truthy(notes) && name == "Notas")
    ensures |HeaderText(code, at, author, role, customer, notes)| <= 5
  {
    var h1 := if !Blank(code) then [Labeled("ID", code)] else [];
    var h2 := if !Blank(at) then [Labeled("Fecha", at)] else [];
    var h3 := if !Blank(author) || !Blank(role)
              then [Labeled("Generó", author + [Lit(" (")] + role + [Lit(")")])] else [];
    var h4 := if Truthy(customer) then [Labeled("Cliente", [Show(customer)])] else [];
    var h5 := if Truthy(notes) then [Labeled("Notas", [Show(notes)])] else [];
    ShowsAppend(h1 + h2 + h3 + h4, h5, name);
    ShowsAppend(h1 + h2 + h3, h4, name);
    ShowsAppend(h1 + h2, h3, name);
    ShowsAppend(h1, h2, name);
    ShowsLabeled(!Blank(code), "ID", code, name);
    ShowsLabeled(!Blank(at), "Fecha", at, name);
    ShowsLabeled(!Blank(author) || !Blank(role), "Generó", author + [Lit(" (")] + role + [Lit(")")], name);
    ShowsLabeled(Truthy(customer), "Cliente", [Show(customer)], name);
    ShowsLabeled(Truthy(notes), "Notas", [Show(notes)], name);
  }

  /**
   * The header shows the ID, the date, the author line, the customer and the notes exactly when
   * the stored value (for the author line: either stored value) is truthy.
   */
  lemma HeaderShowsWhatIsStored(row: Dict)
    ensures Shows(HeaderLines(row), "ID") <==> Truthy(Get(row, "quote_code", JNull))
    ensures Shows(HeaderLines(row), "Fecha") <==> Truthy(Get(row, "created_at", JNull))
    ensures Shows(HeaderLines(row), "Generó")
        <==> Truthy(Get(row, "created_by", JNull)) || Truthy(Get(row, "created_role", JNull))
    ensures Shows(HeaderLines(row), "Cliente") <==> Truthy(Get(row, "customer_name", JNull))
    ensures Shows(HeaderLines(row), "Notas") <==> Truthy(Get(row, "notes", JNull))
    ensures |HeaderLines(row)| <= 5
  {
    var code := StrOr(Get(row, "quote_code", JNull), JStr(""));
    var at := StrOr(Get(row, "created_at", JNull), JStr(""));
    var author := StrOr(Get(row, "created_by", JNull), JStr(""));
    var role := StrOr(Get(row, "created_role", JNull), JStr(""));
    var customer := Get(row, "customer_name", JNull);
    var notes := Get(row, "notes", JNull);
    StrOrBlank(Get(row, "quote_code", JNull));
    StrOrBlank(Get(row, "created_at", JNull));
    StrOrBlank(Get(row, "created_by", JNull));
    StrOrBlank(Get(row, "created_role", JNull));
    HeaderTextShows(code, at, author, role, customer, notes, "ID");
    HeaderTextShows(code, at, author, role, customer, notes, "Fecha");
    HeaderTextShows(code, at, author, role, customer, notes, "Generó");
    HeaderTextShows(code, at, author, role, customer, notes, "Cliente");
    HeaderTextShows(code, at, author, role, customer, notes, "Notas");
  }

  /** Which labels the first job lines show, for values already turned into texts. */
  lemma DetailHeadShows(tipo: Text, medida: Text, tiraje: Text, imp: string, name: string)
    ensures Shows(DetailHeadText(tipo, medida, tiraje, imp), name)
        <==> (!Blank(tipo) && name == "Producto") || (!Blank(medida) && name == "Medida final")
             || (!Blank(tiraje) && name == "Tiraje") || (imp != "" && name == "Impresión")
    ensures |DetailHeadText(tipo, medida, tiraje, imp)| <= 4
  {
    assert Blank([Lit(imp)]) <==> imp == "" by {
      assert [Lit(imp)][0] == Lit(imp);
    }
    ShowsAppend(Line("Producto", tipo) + Line("Medida final", medida)
                + (if !Blank(tiraje) then Line("Tiraje", tiraje) else []), Line("Impresión", [Lit(imp)]), name);
    ShowsAppend(Line("Producto", tipo) + Line("Medida final", medida),
                if !Blank(tiraje) then Line("Tiraje", tiraje) else [], name);
    ShowsAppend(Line("Producto", tipo), Line("Medida final", medida), name);
    ShowsLine(true, "Producto", tipo, name);
    ShowsLine(true, "Medida final", medida, name);
    ShowsLine(!Blank(tiraje), "Tiraje", tiraje, name);
    ShowsLine(true, "Impresión", [Lit(imp)], name);
  }

  lemma PapelNotBlank(tipoPapel: Json, gramaje: Json)
    requires Truthy(tipoPapel)
    ensures !Blank(PapelText(tipoPapel, gramaje))
  {
    assert !PieceBlank(PapelText(tipoPapel, gramaje)[0]);
  }

  lemma FactorNotBlank(factor: Json)
    ensures PyFloat(factor).Some? ==> !Blank(FactorText(factor))
  {
    if PyFloat(factor).Some? {
      assert !PieceBlank(FactorText(factor)[0]);
    }
  }

  /** Which labels the last job lines show. */
  lemma DetailTailShows(tipoPapel: Json, gramaje: Json, ppl: Json, orient: Json, hojas: Json, factor: Json,
                        name: string)
    ensures Shows(DetailTailText(tipoPapel, gramaje, ppl, orient, hojas, factor), name)
        <==> (Truthy(tipoPapel) && name == "Papel") || (ppl != JNull && name == "Cubicación")
             || (hojas != JNull && PyInt(hojas).Some? && name == "Tabloides (papel)")
             || (factor != JNull && PyFloat(factor).Some? && name == "Factor vs carta")
    ensures |DetailTailText(tipoPapel, gramaje, ppl, orient, hojas, factor)| <= 4
  {
    var papel := PapelText(tipoPapel, gramaje);
    var cubicacion := [Show(ppl), Lit(" por lado ("), Show(orient), Lit(")")];
    if Truthy(tipoPapel) {
      PapelNotBlank(tipoPapel, gramaje);
    }
    assert !Blank(cubicacion) by {
      assert !PieceBlank(cubicacion[1]);
    }
    FactorNotBlank(factor);
    var p1 := if Truthy(tipoPapel) then Line("Papel", papel) else [];
    var p2 := if ppl != JNull then Line("Cubicación", cubicacion) else [];
    var p3 := if hojas != JNull then Line("Tabloides (papel)", FmtInt(hojas)) else [];
    var p4 := if factor != JNull && PyFloat(factor).Some? then Line("Factor vs carta", FactorText(factor)) else [];
    ShowsAppend(p1 + p2 + p3, p4, name);
    ShowsAppend(p1 + p2, p3, name);
    ShowsAppend(p1, p2, name);
    ShowsLine(Truthy(tipoPapel), "Papel", papel, name);
    ShowsLine(ppl != JNull, "Cubicación", cubicacion, name);
    ShowsLine(hojas != JNull, "Tabloides (papel)", FmtInt(hojas), name);
    ShowsLine(factor != JNull && PyFloat(factor).Some?, "Factor vs carta", FactorText(factor), name);
  }

  /** The inks line shows exactly when `n_tintas` is stored (it converts, or the export raised). */
  lemma TintasShows(nTintas: Json, name: string)
    requires nTintas != JNull ==> PyInt(nTintas).Some?
    ensures Shows(TintasText(nTintas), name) <==> nTintas != JNull && name == "Tintas"
    ensures |TintasText(nTintas)| <= 1
  {
    if nTintas != JNull {
      var v: Text := [Lit(if PyInt(nTintas).value == 4 then "CMYK (4)" else "1 tinta")];
      assert !PieceBlank(v[0]);
      ShowsLine(true, "Tintas", v, name);
    }
  }

  lemma MedidaNotBlank(inputs: Dict)
    ensures !Blank(MedidaText(inputs))
  {
    var a := FmtCm(Get(inputs, "ancho_final_cm", JNull));
    assert MedidaText(inputs)[|a|] == Lit(" × ");
  }

  /** The run-length text always holds its unit, so the guard in front of its `line` call never fails. */
  lemma TirajeNotBlank(inputs: Dict)
    ensures !Blank(TirajeText(inputs))
  {
    if TipoIsExtendido(inputs) {
      var n := FmtInt(Get(inputs, "tiraje_piezas", JNull));
      assert TirajeText(inputs)[|n|] == Lit(" pzas");
    } else {
      var n := FmtInt(Get(inputs, "tiraje_libros", JNull));
      assert TirajeText(inputs)[|n|] == Lit(" libros");
    }
  }

  /** A formatted integer holds no literal text. */
  lemma FmtIntHasNoLit(v: Json, s: string)
    ensures Lit(s) !in FmtInt(v)
  {
  }

  /**
   * The job texts: "Extendido" counts pieces and is single-sided exactly when `lados` reads
   * "1"; anything else counts books, names the interior pages exactly when they are stored,
   * and is always double-sided.  A drawn inks line reads "CMYK (4)" exactly for four inks.
   */
  lemma JobTextDecisions(inputs: Dict)
    ensures var tiraje := TirajeText(inputs);
      TipoIsExtendido(inputs) ==>
        && Lit(" pzas") in tiraje && Lit(" libros") !in tiraje
        && (ImpresionText(inputs) == "Frente" <==> StrIsOne(Get(inputs, "lados", JNull)))
    ensures var tiraje := TirajeText(inputs);
      !TipoIsExtendido(inputs) ==>
        && Lit(" libros") in tiraje && Lit(" pzas") !in tiraje
        && (Lit(" pág interiores") in tiraje <==> Get(inputs, "paginas_por_libro", JNull) != JNull)
        && ImpresionText(inputs) == "Frente y vuelta"
    ensures var n := Get(inputs, "n_tintas", JNull);
      && (TintasText(n) != [] <==> n != JNull && PyInt(n).Some?)
      && (TintasText(n) != [] ==>
            (Lit("CMYK (4)") in TintasText(n)[0] <==> PyInt(n).value == 4)
            && (Lit("1 tinta") in TintasText(n)[0] <==> PyInt(n).value != 4))
  {
    var piezas := Get(inputs, "tiraje_piezas", JNull);
    var libros := Get(inputs, "tiraje_libros", JNull);
    var pags := Get(inputs, "paginas_por_libro", JNull);
    FmtIntHasNoLit(piezas, " libros");
    FmtIntHasNoLit(libros, " pzas");
    FmtIntHasNoLit(pags, " pzas");
    FmtIntHasNoLit(libros, " pág interiores");
    FmtIntHasNoLit(pags, " pág interiores");
    var n := Get(inputs, "n_tintas", JNull);
    if n != JNull && PyInt(n).Some? {
      var ink := [Lit(if PyInt(n).value == 4 then "CMYK (4)" else "1 tinta")];
      assert !PieceBlank(ink[0]);
    }
  }

  /** Which labels the job section of a produced PDF shows. */
  lemma DetailLinesShow(inputs: Dict, name: string)
    requires DetailLines(inputs).Ok?
    ensures Shows(DetailLines(inputs).value, name)
        <==> name == "Medida final" || name == "Tiraje" || name == "Impresión"
             || (Truthy(Get(inputs, "tipo_producto", JNull)) && name == "Producto")
             || (Get(inputs, "n_tintas", JNull) != JNull && name == "Tintas")
             || (Truthy(Get(inputs, "tipo_papel", JNull)) && name == "Papel")
             || (Get(inputs, "piezas_por_lado", JNull) != JNull && name == "Cubicación")
             || (Get(inputs, "hojas_fisicas", JNull) != JNull && PyInt(Get(inputs, "hojas_fisicas", JNull)).Some?
                 && name == "Tabloides (papel)")
             || (Get(inputs, "factor_carta", JNull) != JNull && PyFloat(Get(inputs, "factor_carta", JNull)).Some?
                 && name == "Factor vs carta")
    ensures |DetailLines(inputs).value| <= 9
  {
    var tipo := StrOr(Get(inputs, "tipo_producto", JNull), JStr(""));
    var medida := MedidaText(inputs);
    var tiraje := TirajeText(inputs);
    var imp := ImpresionText(inputs);
    var nTintas := Get(inputs, "n_tintas", JNull);
    var head := DetailHeadText(tipo, medida, tiraje, imp);
    var ink := TintasText(nTintas);
    var tail := DetailTailText(Get(inputs, "tipo_papel", JNull), Get(inputs, "papel_gramaje_gm2", JNull),
                               Get(inputs, "piezas_por_lado", JNull), Get(inputs, "orientacion", JNull),
                               Get(inputs, "hojas_fisicas", JNull), Get(inputs, "factor_carta", JNull));
    assert DetailLines(inputs).value == head + ink + tail;
    StrOrBlank(Get(inputs, "tipo_producto", JNull));
    MedidaNotBlank(inputs);
    TirajeNotBlank(inputs);
    ShowsAppend(head + ink, tail, name);
    ShowsAppend(head, ink, name);
    DetailHeadShows(tipo, medida, tiraje, imp, name);
    TintasShows(nTintas, name);
    DetailTailShows(Get(inputs, "tipo_papel", JNull), Get(inputs, "papel_gramaje_gm2", JNull),
                    Get(inputs, "piezas_por_lado", JNull), Get(inputs, "orientacion", JNull),
                    Get(inputs, "hojas_fisicas", JNull), Get(inputs, "factor_carta", JNull), name);
  }

  /**
   * The job section of a PDF that is produced: final size, run length and sides always;
   * the product, inks, paper, layout, sheet count and letter factor exactly when stored
   * (and, for the last two, convertible).
   */
  lemma DetailsShowWhatIsStored(inputs: Dict)
    requires DetailLines(inputs).Ok?
    ensures var body := DetailLines(inputs).value;
      && Shows(body, "Medida final") && Shows(body, "Tiraje") && Shows(body, "Impresión")
      && (Shows(body, "Producto") <==> Truthy(Get(inputs, "tipo_producto", JNull)))
      && (Shows(body, "Tintas") <==> Get(inputs, "n_tintas", JNull) != JNull)
      && (Shows(body, "Papel") <==> Truthy(Get(inputs, "tipo_papel", JNull)))
      && (Shows(body, "Cubicación") <==> Get(inputs, "piezas_por_lado", JNull) != JNull)
      && (Shows(body, "Tabloides (papel)")
          <==> Get(inputs, "hojas_fisicas", JNull) != JNull && PyInt(Get(inputs, "hojas_fisicas", JNull)).Some?)
      && (Shows(body, "Factor vs carta")
          <==> Get(inputs, "factor_carta", JNull) != JNull && PyFloat(Get(inputs, "factor_carta", JNull)).Some?)
      && |body| <= 9
  {
    DetailLinesShow(inputs, "Medida final");
    DetailLinesShow(inputs, "Tiraje");
    DetailLinesShow(inputs, "Impresión");
    DetailLinesShow(inputs, "Producto");
    DetailLinesShow(inputs, "Tintas");
    DetailLinesShow(inputs, "Papel");
    DetailLinesShow(inputs, "Cubicación");
    DetailLinesShow(inputs, "Tabloides (papel)");
    DetailLinesShow(inputs, "Factor vs carta");
  }

  lemma MoneyBlank(currency: Text, v: Json, decimals: nat)
    ensures Blank(Money(currency, v, decimals)) <==> PyFloat(v).None?
  {
    if PyFloat(v).Some? {
      assert Money(currency, v, decimals)[|currency| + 1] == Grouped(PyFloat(v).value, decimals);
    }
  }

  /**
   * The prices section shows each price exactly when it converts with `float()`, and the
   * currency is "MXN" unless a truthy one is stored.
   */
  lemma PricesShowWhatConverts(row: Dict)
    ensures Shows(PriceLines(row), "Precio unitario") <==> PyFloat(Get(row, "price_unit", JNull)).Some?
    ensures Shows(PriceLines(row), "Precio total") <==> PyFloat(Get(row, "price_total", JNull)).Some?
    ensures |PriceLines(row)| <= 2
    ensures !Truthy(Get(row, "currency", JNull)) ==> Currency(row) == [Show(JStr("MXN"))]
    ensures Truthy(Get(row, "currency", JNull)) ==> Currency(row) == [Show(Get(row, "currency", JNull))]
  {
    var cur := Currency(row);
    var unit := Money(cur, Get(row, "price_unit", JNull), 4);
    var total := Money(cur, Get(row, "price_total", JNull), 2);
    MoneyBlank(cur, Get(row, "price_unit", JNull), 4);
    MoneyBlank(cur, Get(row, "price_total", JNull), 2);
    forall name | name in ["Precio unitario", "Precio total"]
      ensures Shows(PriceLines(row), name)
          <==> (!Blank(unit) && name == "Precio unitario") || (!Blank(total) && name == "Precio total")
    {
      ShowsAppend(Line("Precio unitario", unit), Line("Precio total", total), name);
      ShowsLine(true, "Precio unitario", unit, name);
      ShowsLine(true, "Precio total", total, name);
    }
  }

  /** The top-level keys the PDF reads besides `inputs`. */
  const PdfKeys: set<string> :=
    {"quote_code", "created_at", "created_by", "created_role", "customer_name", "notes",
     "price_unit", "price_total", "currency"}

  /** The keys of `inputs` the PDF reads: the job's characteristics only. */
  const PdfInputKeys: set<string> :=
    {"tipo_producto", "ancho_final_cm", "alto_final_cm", "factor_carta", "lados", "n_tintas",
     "tipo_papel", "papel_gramaje_gm2", "piezas_por_lado", "orientacion", "hojas_fisicas",
     "tiraje_piezas", "tiraje_libros", "paginas_por_libro"}

  /** Two rows that agree on the keys above and on the keys above of their `inputs` dicts. */
  predicate SamePdfSource(a: Dict, b: Dict) {
    && (forall k :: k in PdfKeys ==> Sheets.Agree(a, b, k))
    && match (AsDictOr(Get(a, "inputs", JNull)), AsDictOr(Get(b, "inputs", JNull)))
       case (Some(ia), Some(ib)) => forall k :: k in PdfInputKeys ==> Sheets.Agree(ia, ib, k)
       case (None, None) => true
       case _ => false
  }

  /** The job lines read nothing of `inputs` but the keys above. */
  lemma DetailLinesReads(a: Dict, b: Dict)
    requires forall k :: k in PdfInputKeys ==> Sheets.Agree(a, b, k)
    ensures DetailLines(a) == DetailLines(b)
  {
    forall k | k in PdfInputKeys
      ensures Get(a, k, JNull) == Get(b, k, JNull)
    {
      Sheets.AgreeGet(a, b, k, JNull);
    }
    assert TipoIsExtendido(a) == TipoIsExtendido(b);
    assert TirajeText(a) == TirajeText(b);
    assert MedidaText(a) == MedidaText(b);
  }

  /**
   * The PDF depends on nothing but the keys above: the stored cost breakdown, the
   * configuration snapshot and the cost entries of `inputs` never reach the client document.
   */
  lemma PdfReadsOnlyItsKeys(a: Dict, b: Dict, logoExists: bool)
    requires SamePdfSource(a, b)
    ensures QuotePdf(a, logoExists) == QuotePdf(b, logoExists)
  {
    forall k | k in PdfKeys
      ensures Get(a, k, JNull) == Get(b, k, JNull)
    {
      Sheets.AgreeGet(a, b, k, JNull);
    }
    assert HeaderLines(a) == HeaderLines(b);
    assert PriceLines(a) == PriceLines(b);
    match (AsDictOr(Get(a, "inputs", JNull)), AsDictOr(Get(b, "inputs", JNull)))
    case (Some(ia), Some(ib)) => DetailLinesReads(ia, ib);
    case (None, None) =>
  }

  /** Replacing the breakdown or the configuration snapshot of a stored quote leaves its PDF as it was. */
  lemma NoCostsInThePdf(row: Dict, breakdown: Json, snapshot: Json, logoExists: bool)
    ensures QuotePdf(row["breakdown" := breakdown]["config_snapshot" := snapshot], logoExists)
         == QuotePdf(row, logoExists)
  {
    var other := row["breakdown" := breakdown]["config_snapshot" := snapshot];
    forall k | k in PdfKeys
      ensures Sheets.Agree(other, row, k)
    {
      assert k != "breakdown" && k != "config_snapshot";
    }
    assert Get(other, "inputs", JNull) == Get(row, "inputs", JNull);
    PdfReadsOnlyItsKeys(other, row, logoExists);
  }

  /**
   * Replacing the applied paper price or the machine clicks stored in `inputs` leaves the
   * PDF as it was: neither is a key the PDF reads.
   */
  lemma StoredCostsOutOfPdf(row: Dict, m: Dict, k: string, v: Json, logoExists: bool)
    requires "inputs" in row && row["inputs"] == JObj(m)
    requires k in Sheets.CostInputKeys
    ensures QuotePdf(row["inputs" := JObj(m[k := v])], logoExists) == QuotePdf(row, logoExists)
  {
    var other := row["inputs" := JObj(m[k := v])];
    forall j | j in PdfKeys
      ensures Sheets.Agree(other, row, j)
    {
      assert j != "inputs";
    }
    assert AsDictOr(Get(other, "inputs", JNull)) == Some(m[k := v]);
    var ib := AsDictOr(Get(row, "inputs", JNull)).value;
    assert ib == m || (m == map[] && ib == map[]);
    forall j | j in PdfInputKeys
      ensures Sheets.Agree(m[k := v], ib, j)
    {
      assert j != k;
    }
    PdfReadsOnlyItsKeys(other, row, logoExists);
  }

  /**
   * The export fails exactly when `inputs` is a truthy value that is not a dict (its first
   * `.get` raises) or when a stored `n_tintas` does not convert with `int()`.
   */
  lemma PdfFailsExactlyWhen(row: Dict, logoExists: bool)
    ensures var inputs := AsDictOr(Get(row, "inputs", JNull));
      && (QuotePdf(row, logoExists).Err?
          <==> inputs.None?
               || (Get(inputs.value, "n_tintas", JNull) != JNull && PyInt(Get(inputs.value, "n_tintas", JNull)).None?))
      && (inputs.None? ==> QuotePdf(row, logoExists) == Err(AttributeError("inputs.get")))
      && (inputs.Some? && QuotePdf(row, logoExists).Err?
          ==> QuotePdf(row, logoExists) == Err(ConversionError("int(n_tintas)")))
  {
  }

  /** Every text operation lies between `lo` and `hi`. */
  predicate TextWithin(ops: seq<Op>, lo: int, hi: int) {
    forall i :: 0 <= i < |ops| && ops[i].Str? ==> lo <= ops[i].y <= hi
  }

  lemma TextWithinAppend(a: seq<Op>, b: seq<Op>, lo: int, hi: int)
    requires TextWithin(a, lo, hi) && TextWithin(b, lo, hi)
    ensures TextWithin(a + b, lo, hi)
  {
    forall i | 0 <= i < |a + b| && (a + b)[i].Str?
      ensures lo <= (a + b)[i].y <= hi
    {
      if i >= |a| {
        assert (a + b)[i] == b[i - |a|];
      }
    }
  }

  lemma DrawLinesWithin(y: int, ts: seq<Text>, lo: int, hi: int)
    requires y <= hi && lo <= y - LineStep * (|ts| - 1)
    ensures TextWithin(DrawLines(y, ts), lo, hi)
  {
    forall i | 0 <= i < |ts|
      ensures lo <= y - LineStep * i <= hi
    {
      assert LineStep * i <= LineStep * (|ts| - 1);
    }
  }

  /**
   * With at most five header lines, nine job lines and two price lines, every text of the
   * page lies between the footer's height and the top margin: the single page never
   * overflows.
   */
  lemma PageFits(logoExists: bool, header: seq<Text>, body: seq<Text>, prices: seq<Text>)
    requires |header| <= 5 && |body| <= 9 && |prices| <= 2
    ensures TextWithin(Page(logoExists, header, body, prices), 40, PageH - Margin)
  {
    var y1 := HeaderTop - LineStep * |header| - 8;
    var y := BodyTop(header) - LineStep * |body|;
    DrawLinesWithin(HeaderTop, header, 40, PageH - Margin);
    DrawLinesWithin(BodyTop(header), body, 40, PageH - Margin);
    DrawLinesWithin(y - 8 - 40, prices, 40, PageH - Margin);
    assert TextWithin(LogoOps(logoExists), 40, PageH - Margin);
    assert TextWithin(TitleOps(), 40, PageH - Margin);
    assert TextWithin(SectionOps(y1, "Características del trabajo"), 40, PageH - Margin);
    assert TextWithin(SectionOps(y - 8, "Precios"), 40, PageH - Margin);
    assert TextWithin(FooterOps(), 40, PageH - Margin);
    TextWithinAppend(LogoOps(logoExists), TitleOps(), 40, PageH - Margin);
    TextWithinAppend(LogoOps(logoExists) + TitleOps(), DrawLines(HeaderTop, header), 40, PageH - Margin);
    TextWithinAppend(LogoOps(logoExists) + TitleOps() + DrawLines(HeaderTop, header),
                     SectionOps(y1, "Características del trabajo"), 40, PageH - Margin);
    TextWithinAppend(TopOps(logoExists, header), DrawLines(BodyTop(header), body), 40, PageH - Margin);
    TextWithinAppend(SectionOps(y - 8, "Precios"), DrawLines(y - 8 - 40, prices), 40, PageH - Margin);
    TextWithinAppend(SectionOps(y - 8, "Precios") + DrawLines(y - 8 - 40, prices), FooterOps(), 40, PageH - Margin);
    TextWithinAppend(TopOps(logoExists, header) + DrawLines(BodyTop(header), body), BottomOps(y, prices),
                     40, PageH - Margin);
  }

  /** The page ends with the page break and the save. */
  lemma PageEnds(logoExists: bool, header: seq<Text>, body: seq<Text>, prices: seq<Text>)
    ensures var ops := Page(logoExists, header, body, prices);
      |ops| >= 2 && ops[|ops| - 2] == EndPage && ops[|ops| - 1] == Saved
  {
    var y := BodyTop(header) - LineStep * |body|;
    var ops := Page(logoExists, header, body, prices);
    var rest := TopOps(logoExists, header) + DrawLines(BodyTop(header), body)
                + SectionOps(y - 8, "Precios") + DrawLines(y - 8 - 40, prices);
    AppendGroups3(TopOps(logoExists, header) + DrawLines(BodyTop(header), body),
                  SectionOps(y - 8, "Precios"), DrawLines(y - 8 - 40, prices), FooterOps());
    assert ops == rest + FooterOps();
    assert ops[|ops| - 1] == FooterOps()[3];
    assert ops[|ops| - 2] == FooterOps()[2];
  }

  /** A produced PDF is one page whose texts all fit on it, closed by the page end and the save. */
  lemma QuotePdfFitsOnePage(row: Dict, logoExists: bool)
    requires QuotePdf(row, logoExists).Ok?
    ensures var ops := QuotePdf(row, logoExists).value;
      && TextWithin(ops, 40, PageH - Margin)
      && |ops| >= 2 && ops[|ops| - 2] == EndPage && ops[|ops| - 1] == Saved
  {
    var inputs := AsDictOr(Get(row, "inputs", JNull)).value;
    var body := DetailLines(inputs).value;
    assert QuotePdf(row, logoExists).value == Page(logoExists, HeaderLines(row), body, PriceLines(row));
    HeaderShowsWhatIsStored(row);
    DetailLinesShow(inputs, "");
    PricesShowWhatConverts(row);
    PageFits(logoExists, HeaderLines(row), body, PriceLines(row));
    PageEnds(logoExists, HeaderLines(row), body, PriceLines(row));
  }
}
