/**
 * The pricing logic of the quote page (pages/1_Cotizador.py): the area factor against a
 * letter sheet, the layout of pieces on the usable print area, the rejection rules, units
 * and physical sheets, printing, paper and manual extra costs, and the final prices.
 * The page's widgets become parameters; Python floats are reals.
 */
module Cotizador {
  import opened Wrappers
  import opened PyValues
  import opened SeqFacts

  // ---------------------------------------------------------------------------------
  // Constants
  // ---------------------------------------------------------------------------------

  /** The letter sheet whose area is the billing unit ("Carta-lado"), in cm. */
  const CartaW: real := 21.5
  const CartaH: real := 28.0
  const AreaCarta: real := CartaW * CartaH

  /** Prepress defaults: press sheet, usable area, bleed and gutter (cm), and the default trim size. */
  const DefaultHojaW: real := 48.0
  const DefaultHojaH: real := 33.0
  const DefaultAreaW: real := 47.4
  const DefaultAreaH: real := 32.4
  const DefaultBleed: real := 0.3
  const DefaultGutter: real := 0.2
  const DefaultAncho: real := 21.5
  const DefaultAlto: real := 28.0

  // ---------------------------------------------------------------------------------
  // Area factor
  // ---------------------------------------------------------------------------------

  /** `factor_vs_carta`: the job's trim area measured in letter sheets. */
  function FactorVsCarta(ancho: real, alto: real): (f: real)
    ensures f * AreaCarta == ancho * alto
  {
    (ancho * alto) / AreaCarta
  }

  /** The letter sheet itself has factor one, and the factor is linear in each dimension. */
  lemma FactorOfCartaIsOne(k: real, ancho: real, alto: real)
    ensures AreaCarta == 602.0
    ensures FactorVsCarta(CartaW, CartaH) == 1.0
    ensures FactorVsCarta(k * ancho, alto) == k * FactorVsCarta(ancho, alto)
    ensures FactorVsCarta(ancho, k * alto) == k * FactorVsCarta(ancho, alto)
  {
  }

  // ---------------------------------------------------------------------------------
  // Layout ("cubicación")
  // ---------------------------------------------------------------------------------

  datatype Orientation = Normal | Rotated | Invalid

  /** The orientation labels the page shows. */
  function OrientationLabel(o: Orientation): string {
    match o
    case Normal => "Normal"
    case Rotated => "Rotado 90°"
    case Invalid => "Inválido"
  }

  /** `(piezas_por_lado, orientacion, w_eff, h_eff)` */
  datatype Layout = Layout(count: int, orientation: Orientation, wEff: real, hEff: real)

  /** Pieces of effective size `we` by `he` placed in a grid on an `aw` by `ah` area: `int(aw // we) * int(ah // he)`. */
  function GridFit(aw: real, ah: real, we: real, he: real): int
    requires we > 0.0 && he > 0.0
  {
    (aw / we).Floor * (ah / he).Floor
  }

  /**
   * `calc_piezas_por_lado`.  The effective piece is the trim plus bleed on both sides plus one
   * gutter.  When it is not positive the result is Invalid with no pieces.  Otherwise the
   * count is the larger of the normal grid and, when rotation is allowed, the rotated grid
   * (a disallowed rotation counts as 0 pieces); Rotated is reported only on a strictly
   * larger rotated count, so ties stay Normal.
   */
  function CalcPiezasPorLado(
    areaW: real, areaH: real, piezaW: real, piezaH: real,
    gutter: real, bleed: real, allowRotate: bool): (l: Layout)
    ensures l.wEff == piezaW + 2.0 * bleed + gutter
    ensures l.hEff == piezaH + 2.0 * bleed + gutter
    ensures l.orientation == Invalid <==> (l.wEff <= 0.0 || l.hEff <= 0.0)
    ensures l.orientation == Invalid ==> l.count == 0
    ensures l.orientation != Invalid ==>
      var fit1 := GridFit(areaW, areaH, l.wEff, l.hEff);
      var fit2 := if allowRotate then GridFit(areaW, areaH, l.hEff, l.wEff) else 0;
      && l.count >= fit1 && l.count >= fit2
      && (l.count == fit1 || l.count == fit2)
      && (l.orientation == Rotated <==> fit2 > fit1)
      && (l.orientation == Normal ==> l.count == fit1)
  {
    var wEff := piezaW + 2.0 * bleed + gutter;
    var hEff := piezaH + 2.0 * bleed + gutter;
    if wEff <= 0.0 || hEff <= 0.0 then
      Layout(0, Invalid, wEff, hEff)
    else
      var fit1 := (areaW / wEff).Floor * (areaH / hEff).Floor;
      var fit2 := if allowRotate then (areaW / hEff).Floor * (areaH / wEff).Floor else 0;
      if fit2 > fit1 then Layout(fit2, Rotated, wEff, hEff)
      else Layout(fit1, Normal, wEff, hEff)
  }

  /** `(a // b)` for `b > 0` is the integer `n` with `n*b <= a < (n+1)*b`. */
  lemma FloorDivIs(a: real, b: real, n: int)
    requires b > 0.0
    requires n as real * b <= a < (n + 1) as real * b
    ensures (a / b).Floor == n
  {
    var q := a / b;
    DivMulCancel(a, b);
    MulMonotone(q, n as real, b);
    MulMonotone((n + 1) as real, q, b);
    assert n as real <= q < (n + 1) as real;
  }

  lemma DivMulCancel(a: real, b: real)
    requires b > 0.0
    ensures (a / b) * b == a
  {
  }

  /** Strict order is kept by a positive factor. */
  lemma MulMonotone(x: real, y: real, b: real)
    requires b > 0.0
    ensures x < y ==> x * b < y * b
  {
    if x < y {
      assert x * b - y * b == (x - y) * b;
    }
  }

  lemma MulNonNegative(a: real, b: real)
    ensures a >= 0.0 && b >= 0.0 ==> a * b >= 0.0
  {
  }

  /**
   * The grid count means what it says: with `nx` columns of width `we` fitting in `aw`
   * while `nx + 1` do not, and likewise `ny` rows, the grid holds `nx * ny` pieces.
   */
  lemma GridFitCountsColumnsAndRows(aw: real, ah: real, we: real, he: real, nx: int, ny: int)
    requires we > 0.0 && he > 0.0
    requires nx as real * we <= aw < (nx + 1) as real * we
    requires ny as real * he <= ah < (ny + 1) as real * he
    ensures GridFit(aw, ah, we, he) == nx * ny
  {
    FloorDivIs(aw, we, nx);
    FloorDivIs(ah, he, ny);
  }

  lemma FloorOfNonNegative(a: real, b: real)
    requires a >= 0.0 && b > 0.0
    ensures (a / b).Floor >= 0
  {
    assert a / b >= 0.0;
  }

  /** On a non-negative area the count is never negative. */
  lemma LayoutCountNonNegative(
    areaW: real, areaH: real, piezaW: real, piezaH: real,
    gutter: real, bleed: real, allowRotate: bool)
    requires areaW >= 0.0 && areaH >= 0.0
    ensures CalcPiezasPorLado(areaW, areaH, piezaW, piezaH, gutter, bleed, allowRotate).count >= 0
  {
    var l := CalcPiezasPorLado(areaW, areaH, piezaW, piezaH, gutter, bleed, allowRotate);
    if l.orientation != Invalid {
      FloorOfNonNegative(areaW, l.wEff);
      FloorOfNonNegative(areaH, l.hEff);
      var fit1 := GridFit(areaW, areaH, l.wEff, l.hEff);
      assert fit1 >= 0;
    }
  }

  /** On a non-negative area with rotation off, the layout is always the normal grid. */
  lemma NoRotationMeansNormal(
    areaW: real, areaH: real, piezaW: real, piezaH: real, gutter: real, bleed: real)
    requires areaW >= 0.0 && areaH >= 0.0
    requires piezaW + 2.0 * bleed + gutter > 0.0 && piezaH + 2.0 * bleed + gutter > 0.0
    ensures var l := CalcPiezasPorLado(areaW, areaH, piezaW, piezaH, gutter, bleed, false);
      l.orientation == Normal
      && l.count == GridFit(areaW, areaH, l.wEff, l.hEff)
  {
    var l := CalcPiezasPorLado(areaW, areaH, piezaW, piezaH, gutter, bleed, false);
    FloorOfNonNegative(areaW, l.wEff);
    FloorOfNonNegative(areaH, l.hEff);
  }

  /**
   * With the page's defaults the effective piece is 22.3 by 28.8 cm and two pieces fit
   * normally (2 by 1) against one rotated (1 by 1).
   */
  lemma DefaultLayout()
    ensures CalcPiezasPorLado(DefaultAreaW, DefaultAreaH, DefaultAncho, DefaultAlto,
                              DefaultGutter, DefaultBleed, true)
         == Layout(2, Normal, 22.3, 28.8)
  {
    FloorDivIs(47.4, 22.3, 2);
    FloorDivIs(32.4, 28.8, 1);
    FloorDivIs(47.4, 28.8, 1);
    FloorDivIs(32.4, 22.3, 1);
  }

  /**
   * The usable-area inputs have no lower bound on the page.  A negative width with
   * rotation off makes the normal grid negative, so the disallowed rotation's 0 wins and
   * the layout reads "Rotado 90°" with no pieces; two negative dimensions multiply into a
   * positive count (here 6 pieces).
   */
  lemma NegativeAreaLayouts()
    ensures CalcPiezasPorLado(-1.0, DefaultAreaH, DefaultAncho, DefaultAlto,
                              DefaultGutter, DefaultBleed, false)
         == Layout(0, Rotated, 22.3, 28.8)
    ensures CalcPiezasPorLado(-DefaultAreaW, -DefaultAreaH, DefaultAncho, DefaultAlto,
                              DefaultGutter, DefaultBleed, true)
         == Layout(6, Normal, 22.3, 28.8)
  {
    FloorDivIs(-1.0, 22.3, -1);
    FloorDivIs(32.4, 28.8, 1);
    FloorDivIs(-47.4, 22.3, -3);
    FloorDivIs(-32.4, 28.8, -2);
    FloorDivIs(-47.4, 28.8, -2);
    FloorDivIs(-32.4, 22.3, -2);
  }

  // ---------------------------------------------------------------------------------
  // Paper cost of one press sheet
  // ---------------------------------------------------------------------------------

  /** `(area_m2, peso_hoja_kg, costo_hoja)` */
  datatype SheetPaper = SheetPaper(areaM2: real, pesoKg: real, costoHoja: real)

  /**
   * `paper_cost_for_sheet`: the sheet's area in m², its weight in kg from the grammage in
   * g/m², and its cost from the price per kg; in cm and g that is
   * `w * h * gramaje * costo_kg / 10^7`.
   */
  function PaperCostForSheet(wCm: real, hCm: real, gramaje: real, costoKg: real): (p: SheetPaper)
    ensures p.areaM2 * 10000.0 == wCm * hCm
    ensures p.pesoKg * 10000000.0 == wCm * hCm * gramaje
    ensures p.costoHoja * 10000000.0 == wCm * hCm * gramaje * costoKg
    ensures wCm >= 0.0 && hCm >= 0.0 && gramaje >= 0.0 && costoKg >= 0.0 ==> p.costoHoja >= 0.0
  {
    var wM := wCm / 100.0;
    var hM := hCm / 100.0;
    var areaM2 := wM * hM;
    var pesoKg := areaM2 * gramaje / 1000.0;
    SheetPaper(areaM2, pesoKg, pesoKg * costoKg)
  }

  // ---------------------------------------------------------------------------------
  // Product kinds, rejection rules, units and sheets
  // ---------------------------------------------------------------------------------

  datatype Product = Extendido | Libro

  /** The product names of the page's selector. */
  function ProductLabel(p: Product): string {
    match p
    case Extendido => "Extendido"
    case Libro => "Libro / Folleto (interiores)"
  }

  /** Why pricing stops before any cost is computed. */
  datatype Rejection =
    | DoesNotFit      // not a single piece fits the usable area
    | TooLargeToFold  // a book page with bleed exceeds half the usable area

  /** The trim area with bleed that the fold rule compares; the gutter is not part of it. */
  function FoldArea(ancho: real, alto: real, bleed: real): real {
    (ancho + 2.0 * bleed) * (alto + 2.0 * bleed)
  }

  /**
   * The restriction checks: no piece fits, or (books only) the trim-plus-bleed area exceeds
   * half the usable area.  Both rules run in order and the later message wins.
   */
  function RestrictionCheck(
    product: Product, areaW: real, areaH: real,
    ancho: real, alto: real, bleed: real, piezasPorLado: int): (r: Option<Rejection>)
    ensures r == Some(TooLargeToFold)
        <==> product == Libro && FoldArea(ancho, alto, bleed) > 0.5 * (areaW * areaH)
    ensures r == Some(DoesNotFit)
        <==> piezasPorLado <= 0 && !(product == Libro && FoldArea(ancho, alto, bleed) > 0.5 * (areaW * areaH))
    ensures r == None
        <==> piezasPorLado > 0 && !(product == Libro && FoldArea(ancho, alto, bleed) > 0.5 * (areaW * areaH))
  {
    var areaHuella := areaW * areaH;
    var motivo := if piezasPorLado <= 0 then Some(DoesNotFit) else None;
    if product == Libro && FoldArea(ancho, alto, bleed) > 0.5 * areaHuella then Some(TooLargeToFold)
    else motivo
  }

  /** The run length read after the checks: pieces and sides, or books and interior pages. */
  datatype Tiraje =
    | Piezas(piezas: int, lados: int)
    | Libros(libros: int, paginas: int)

  function ProductOf(t: Tiraje): Product {
    if t.Piezas? then Extendido else Libro
  }

  /** The ranges the page's widgets allow. */
  predicate ValidTiraje(t: Tiraje) {
    match t
    case Piezas(n, lados) => n >= 1 && (lados == 1 || lados == 2)
    case Libros(libros, paginas) => libros >= 1 && paginas >= 1
  }

  /** The quantity the unit price is per: pieces, or books (never pages). */
  function BillingQuantity(t: Tiraje): int {
    match t
    case Piezas(n, _) => n
    case Libros(libros, _) => libros
  }

  /** What goes onto paper: pieces, or the total of interior pages. */
  function PrintDemand(t: Tiraje): int {
    match t
    case Piezas(n, _) => n
    case Libros(libros, paginas) => libros * paginas
  }

  /** Billable letter-sides: `piezas * factor * lados`, or `paginas_totales * factor` for books. */
  function BillableUnits(t: Tiraje, factor: real): (u: real)
    ensures t.Libros? || t.lados == 1 ==> u == PrintDemand(t) as real * factor
    ensures t.Piezas? && t.lados == 2 ==> u == 2.0 * (PrintDemand(t) as real * factor)
  {
    match t
    case Piezas(n, lados) => n as real * factor * lados as real
    case Libros(libros, paginas) => (libros * paginas) as real * factor
  }

  /** Pieces or pages one press sheet yields: one side's worth single-sided, both sides otherwise. */
  function SheetYield(t: Tiraje, piezasPorLado: int): (y: int)
    ensures ValidTiraje(t) ==> y == piezasPorLado * (if t.Piezas? then t.lados else 2)
    ensures ValidTiraje(t) && piezasPorLado > 0 ==> y >= piezasPorLado
  {
    match t
    case Piezas(_, lados) => if lados == 1 then piezasPorLado else piezasPorLado * 2
    case Libros(_, _) => piezasPorLado * 2
  }

  /** `math.ceil(a / b)` on integers. */
  function CeilDiv(a: int, b: int): (q: int)
    requires b > 0
    ensures (q - 1) * b < a <= q * b
  {
    if a % b == 0 then a / b else a / b + 1
  }

  /** `hojas_fisicas`: the fewest sheets whose yield covers the demand. */
  function PhysicalSheets(t: Tiraje, piezasPorLado: int): (h: int)
    requires piezasPorLado > 0
    ensures (h - 1) * SheetYield(t, piezasPorLado) < PrintDemand(t) <= h * SheetYield(t, piezasPorLado)
  {
    CeilDiv(PrintDemand(t), SheetYield(t, piezasPorLado))
  }

  /** A book prints like single-sided pieces for billing and like double-sided pieces for paper. */
  lemma BooksAsPages(libros: int, paginas: int, factor: real, piezasPorLado: int)
    requires piezasPorLado > 0
    ensures BillableUnits(Libros(libros, paginas), factor) == BillableUnits(Piezas(libros * paginas, 1), factor)
    ensures PhysicalSheets(Libros(libros, paginas), piezasPorLado)
         == PhysicalSheets(Piezas(libros * paginas, 2), piezasPorLado)
  {
  }

  /** With at least one piece or page to print, at least one sheet is used. */
  lemma SheetsAtLeastOne(t: Tiraje, piezasPorLado: int)
    requires ValidTiraje(t) && piezasPorLado > 0
    ensures PhysicalSheets(t, piezasPorLado) >= 1
  {
    var h := PhysicalSheets(t, piezasPorLado);
    var y := SheetYield(t, piezasPorLado);
    assert PrintDemand(t) >= 1 by {
      if t.Libros? {
        assert t.libros * t.paginas >= 1 * 1;
      }
    }
    assert y > 0;
    IntSign(h, y);
  }

  lemma IntSign(h: int, y: int)
    requires y > 0
    ensures h <= 0 ==> h * y <= 0
  {
  }

  // ---------------------------------------------------------------------------------
  // Costs
  // ---------------------------------------------------------------------------------

  /** Per-letter-side rates: labour and depreciation, ink, click, and the coverage surcharge. */
  datatype PrintRates = PrintRates(moDep: real, tinta: real, click: real, cobertura: real)

  predicate NonNegativeRates(r: PrintRates) {
    r.moDep >= 0.0 && r.tinta >= 0.0 && r.click >= 0.0 && r.cobertura >= 0.0
  }

  /** The four printing cost components and their sum. */
  datatype PrintingCost = PrintingCost(moDep: real, tinta: real, click: real, cobertura: real, total: real)

  /** Printing cost: each rate times the units, summed; `cobertura` is an additive rate, not a ratio. */
  function PrintingCostOf(units: real, rates: PrintRates): (c: PrintingCost)
    ensures c.total == units * (rates.moDep + rates.tinta + rates.click + rates.cobertura)
    ensures c.moDep + c.tinta + c.click + c.cobertura == c.total
    ensures units >= 0.0 && NonNegativeRates(rates) ==> c.total >= 0.0
  {
    var costoMoDep := units * rates.moDep;
    var costoTinta := units * rates.tinta;
    var costoClick := units * rates.click;
    var costoCobertura := units * rates.cobertura;
    MulNonNegative(units, rates.moDep);
    MulNonNegative(units, rates.tinta);
    MulNonNegative(units, rates.click);
    MulNonNegative(units, rates.cobertura);
    PrintingCost(costoMoDep, costoTinta, costoClick, costoCobertura,
                 costoMoDep + costoTinta + costoClick + costoCobertura)
  }

  /** `costo_papel = hojas_fisicas * costo_hoja * (1 + merma)` */
  function PaperCost(hojas: int, costoHoja: real, merma: real): (c: real)
    ensures hojas >= 0 && costoHoja >= 0.0 && merma >= 0.0 ==> c >= hojas as real * costoHoja >= 0.0
  {
    var base := hojas as real * costoHoja;
    if hojas >= 0 && costoHoja >= 0.0 && merma >= 0.0 then
      MulNonNegative(hojas as real, costoHoja);
      MulNonNegative(base, merma);
      assert base * (1.0 + merma) == base + base * merma;
      base * (1.0 + merma)
    else
      base * (1.0 + merma)
  }

  /** More waste never makes paper cheaper, and with no waste the cost is sheets times sheet cost. */
  lemma PaperCostMonotoneInMerma(hojas: int, costoHoja: real, m1: real, m2: real)
    requires hojas >= 0 && costoHoja >= 0.0 && m1 <= m2
    ensures PaperCost(hojas, costoHoja, m1) <= PaperCost(hojas, costoHoja, m2)
    ensures PaperCost(hojas, costoHoja, 0.0) == hojas as real * costoHoja
  {
    var base := hojas as real * costoHoja;
    assert base >= 0.0;
    assert base * (1.0 + m1) <= base * (1.0 + m2) by {
      assert base * (1.0 + m2) - base * (1.0 + m1) == base * (m2 - m1);
      assert base * (m2 - m1) >= 0.0;
    }
  }

  /** `(subtotal_costos, precio_total, precio_unitario)` */
  datatype Totals = Totals(subtotal: real, precioTotal: real, precioUnitario: real)

  /**
   * Subtotal of printing, paper and extras; the price adds the margin on top; the unit price
   * is the price per billed piece or book.
   */
  function TotalsOf(impresion: real, papel: real, adicionales: real, margen: real, piezas: int): (t: Totals)
    requires piezas >= 1
    ensures t.subtotal == impresion + papel + adicionales
    ensures t.precioTotal == t.subtotal * (1.0 + margen)
    ensures t.precioUnitario * piezas as real == t.precioTotal
    ensures t.subtotal >= 0.0 && margen >= 0.0 ==> t.precioTotal >= t.subtotal
  {
    var subtotal := impresion + papel + adicionales;
    var total := subtotal * (1.0 + margen);
    Totals(subtotal, total, total / piezas as real)
  }

  // ---------------------------------------------------------------------------------
  // Manual extra costs
  // ---------------------------------------------------------------------------------

  /** One `{"Concepto": ..., "Importe": ...}` row of the extra costs. */
  datatype ExtraRow = ExtraRow(concepto: string, importe: real)

  /** The rows the page starts with. */
  const DefaultExtras: seq<ExtraRow> :=
    [ExtraRow("Encuadernación", 0.0), ExtraRow("Barniz / Lam", 0.0), ExtraRow("Flete", 0.0)]

  /** Whether a row counts: its stripped concept is not empty. */
  predicate Named(r: ExtraRow) {
    Strip(r.concepto) != ""
  }

  /** `total_adicionales`: the sum of the amounts of the named rows. */
  function NamedTotal(rows: seq<ExtraRow>): real {
    if rows == [] then 0.0
    else
      var last := rows[|rows| - 1];
      NamedTotal(rows[..|rows| - 1]) + (if Named(last) then last.importe else 0.0)
  }

  /** Each row as the loop writes it back: concept stripped, amount kept. */
  function Synced(entered: seq<ExtraRow>): (rows: seq<ExtraRow>)
    ensures |rows| == |entered|
  {
    seq(|entered|, i requires 0 <= i < |entered| => ExtraRow(Strip(entered[i].concepto), entered[i].importe))
  }

  /** Non-negative amounts (the amount widget's minimum is 0) give a non-negative total. */
  lemma {:induction false} NamedTotalNonNegative(rows: seq<ExtraRow>)
    requires forall i :: 0 <= i < |rows| ==> rows[i].importe >= 0.0
    ensures NamedTotal(rows) >= 0.0
  {
    if rows != [] {
      NamedTotalNonNegative(rows[..|rows| - 1]);
    }
  }

  /** Rows without a concept do not count, wherever they stand. */
  lemma {:induction false} NamedTotalAppend(a: seq<ExtraRow>, b: seq<ExtraRow>)
    ensures NamedTotal(a + b) == NamedTotal(a) + NamedTotal(b)
  {
    if b != [] {
      assert (a + b)[..|a + b| - 1] == a + b[..|b| - 1];
      NamedTotalAppend(a, b[..|b| - 1]);
    } else {
      assert a + b == a;
    }
  }

  /** Removing a row subtracts exactly its contribution. */
  lemma NamedTotalRemove(rows: seq<ExtraRow>, i: nat)
    requires i < |rows|
    ensures NamedTotal(rows[..i] + rows[i + 1..])
         == NamedTotal(rows) - (if Named(rows[i]) then rows[i].importe else 0.0)
  {
    var front, x, back := rows[..i], [rows[i]], rows[i + 1..];
    SplitAt(rows, i);
    NamedTotalAppend(front, x + back);
    NamedTotalAppend(x, back);
    NamedTotalAppend(front, back);
    NamedTotalSingle(rows[i]);
  }

  lemma NamedTotalSingle(r: ExtraRow)
    ensures NamedTotal([r]) == if Named(r) then r.importe else 0.0
  {
    assert [r][..0] == [];
  }

  /** Writing the stripped rows back does not change the total of the next pass. */
  lemma {:induction false} SyncedKeepsTotal(entered: seq<ExtraRow>)
    ensures NamedTotal(Synced(entered)) == NamedTotal(entered)
  {
    if entered != [] {
      var n := |entered| - 1;
      assert Synced(entered)[..n] == Synced(entered[..n]);
      StripIdempotent(entered[n].concepto);
      SyncedKeepsTotal(entered[..n]);
    }
  }

  /**
   * `st.session_state.costos_adicionales`: the list of extra-cost rows the page keeps
   * between reruns, with its add, clear and delete buttons and the loop that writes the
   * widgets' values back and sums the named rows.
   */
  class AdditionalCosts {
    var rows: seq<ExtraRow>

    constructor ()
      ensures rows == DefaultExtras
    {
      rows := DefaultExtras;
    }

    /** "Agregar concepto": append an empty row. */
    method AddConcept()
      modifies this
      ensures rows == old(rows) + [ExtraRow("", 0.0)]
      ensures NamedTotal(rows) == NamedTotal(old(rows))
    {
      rows := rows + [ExtraRow("", 0.0)];
      assert rows[..|rows| - 1] == old(rows);
    }

    /** "Borrar adicionales": drop every row. */
    method ClearAll()
      modifies this
      ensures rows == []
    {
      rows := [];
    }

    /** The per-row delete button: `pop(i)`. */
    method Remove(i: nat)
      requires i < |rows|
      modifies this
      ensures rows == old(rows)[..i] + old(rows)[i + 1..]
      ensures NamedTotal(rows) == NamedTotal(old(rows)) - (if Named(old(rows)[i]) then old(rows)[i].importe else 0.0)
    {
      NamedTotalRemove(rows, i);
      rows := rows[..i] + rows[i + 1..];
    }

    /**
     * The loop over the rows: row `i` takes the concept (stripped) and amount its widgets
     * hold, `entered[i]`, and the amount is added when the concept is not empty.
     */
    method SyncAndTotal(entered: seq<ExtraRow>) returns (total: real)
      requires |entered| == |rows|
      modifies this
      ensures rows == Synced(entered)
      ensures total == NamedTotal(entered)
    {
      total := 0.0;
      var i := 0;
      while i < |rows|
        invariant 0 <= i <= |rows| == |entered|
        invariant rows[..i] == Synced(entered)[..i]
        invariant total == NamedTotal(entered[..i])
      {
        var concepto := Strip(entered[i].concepto);
        var importe := entered[i].importe;
        rows := rows[i := ExtraRow(concepto, importe)];
        if concepto != "" {
          total := total + importe;
        }
        assert entered[..i + 1][..i] == entered[..i];
        i := i + 1;
      }
      assert entered[..i] == entered;
    }
  }

  // ---------------------------------------------------------------------------------
  // The whole page
  // ---------------------------------------------------------------------------------

  /** The page's inputs: sidebar rates, trim size, sheet and layout parameters, and the run. */
  datatype PageInputs = PageInputs(
    rates: PrintRates,
    papelCostoKg: real, papelGramaje: real, merma: real, margen: real,
    anchoFinal: real, altoFinal: real,
    hojaW: real, hojaH: real, areaW: real, areaH: real,
    bleed: real, gutter: real, allowRotate: bool,
    tiraje: Tiraje)

  /** Everything the page computes for an accepted job. */
  datatype Quote = Quote(
    factor: real, layout: Layout, units: real, hojas: int,
    printing: PrintingCost, sheet: SheetPaper, paperCost: real,
    adicionales: real, totals: Totals)

  function LayoutOf(inp: PageInputs): Layout {
    CalcPiezasPorLado(inp.areaW, inp.areaH, inp.anchoFinal, inp.altoFinal,
                      inp.gutter, inp.bleed, inp.allowRotate)
  }

  function RejectionOf(inp: PageInputs): Option<Rejection> {
    RestrictionCheck(ProductOf(inp.tiraje), inp.areaW, inp.areaH,
                     inp.anchoFinal, inp.altoFinal, inp.bleed, LayoutOf(inp).count)
  }

  /**
   * The costs and prices of an accepted job laid out `layout.count` pieces per side: the
   * letter factor of the trim size, the billable units of the run, the fewest sheets that
   * cover the demand, printing as units times the rates, the sheet's paper cost with the
   * waste on top, the named extras, and the margin on the subtotal, which the unit price
   * times the billed quantity gives back.
   */
  function PriceJob(inp: PageInputs, entered: seq<ExtraRow>, layout: Layout): (q: Quote)
    requires ValidTiraje(inp.tiraje) && layout.count > 0
    ensures q.factor == FactorVsCarta(inp.anchoFinal, inp.altoFinal)
    ensures q.layout == layout
    ensures q.units == BillableUnits(inp.tiraje, q.factor)
    ensures q.hojas == PhysicalSheets(inp.tiraje, layout.count)
    ensures q.printing == PrintingCostOf(q.units, inp.rates)
    ensures q.sheet == PaperCostForSheet(inp.hojaW, inp.hojaH, inp.papelGramaje, inp.papelCostoKg)
    ensures q.paperCost == PaperCost(q.hojas, q.sheet.costoHoja, inp.merma)
    ensures q.adicionales == NamedTotal(entered)
    ensures q.totals == TotalsOf(q.printing.total, q.paperCost, q.adicionales, inp.margen, BillingQuantity(inp.tiraje))
  {
    var factor := FactorVsCarta(inp.anchoFinal, inp.altoFinal);
    var units := BillableUnits(inp.tiraje, factor);
    var hojas := PhysicalSheets(inp.tiraje, layout.count);
    var printing := PrintingCostOf(units, inp.rates);
    var sheet := PaperCostForSheet(inp.hojaW, inp.hojaH, inp.papelGramaje, inp.papelCostoKg);
    var paper := PaperCost(hojas, sheet.costoHoja, inp.merma);
    var adicionales := NamedTotal(entered);
    var totals := TotalsOf(printing.total, paper, adicionales, inp.margen, BillingQuantity(inp.tiraje));
    Quote(factor, layout, units, hojas, printing, sheet, paper, adicionales, totals)
  }

  /**
   * The page from inputs to prices, with `entered` the extra-cost rows as their widgets
   * hold them.  A rejected job produces no costs at all; an accepted one has sheets that
   * cover the demand, prices that multiply back to the total, and the named extras' sum.
   */
  function Cotizar(inp: PageInputs, entered: seq<ExtraRow>): (r: Result<Quote, Rejection>)
    requires ValidTiraje(inp.tiraje)
    ensures r.Err? <==> RejectionOf(inp).Some?
    ensures r.Err? ==> r.error == RejectionOf(inp).value
    ensures r.Ok? ==> LayoutOf(inp).count > 0 && r.value == PriceJob(inp, entered, LayoutOf(inp))
  {
    var layout := LayoutOf(inp);
    match RejectionOf(inp)
    case Some(motivo) => Err(motivo)
    case None => Ok(PriceJob(inp, entered, layout))
  }

  /** A priced job's sheets cover the demand, and one sheet fewer would not. */
  lemma PricedSheets(inp: PageInputs, entered: seq<ExtraRow>, layout: Layout)
    requires ValidTiraje(inp.tiraje) && layout.count > 0
    ensures var q := PriceJob(inp, entered, layout);
      var y := SheetYield(inp.tiraje, layout.count);
      (q.hojas - 1) * y < PrintDemand(inp.tiraje) <= q.hojas * y
  {
  }

  /**
   * A priced job's costs: the letter factor of its trim size, the billable units of its
   * run, the sheet's paper cost with the waste on top, and the named extras.
   */
  lemma PricedCosts(inp: PageInputs, entered: seq<ExtraRow>, layout: Layout)
    requires ValidTiraje(inp.tiraje) && layout.count > 0
    ensures var q := PriceJob(inp, entered, layout);
      && q.factor == FactorVsCarta(inp.anchoFinal, inp.altoFinal)
      && q.units == BillableUnits(inp.tiraje, q.factor)
      && q.sheet == PaperCostForSheet(inp.hojaW, inp.hojaH, inp.papelGramaje, inp.papelCostoKg)
      && q.paperCost == PaperCost(q.hojas, q.sheet.costoHoja, inp.merma)
      && q.adicionales == NamedTotal(entered)
  {
  }

  /** A priced job's printing cost is its units times the sum of the four rates. */
  lemma PricedPrinting(inp: PageInputs, entered: seq<ExtraRow>, layout: Layout)
    requires ValidTiraje(inp.tiraje) && layout.count > 0
    ensures var q := PriceJob(inp, entered, layout);
      q.printing.total == q.units * (inp.rates.moDep + inp.rates.tinta + inp.rates.click + inp.rates.cobertura)
  {
    var q := PriceJob(inp, entered, layout);
    assert q.printing == PrintingCostOf(q.units, inp.rates);
  }

  /**
   * A priced job's prices: the subtotal adds printing, paper and extras, the margin goes on
   * top, and the unit price times the billed pieces or books gives the total back.
   */
  lemma PricedTotals(inp: PageInputs, entered: seq<ExtraRow>, layout: Layout)
    requires ValidTiraje(inp.tiraje) && layout.count > 0
    ensures var q := PriceJob(inp, entered, layout);
      && q.totals.subtotal == q.printing.total + q.paperCost + q.adicionales
      && q.totals.precioTotal == q.totals.subtotal * (1.0 + inp.margen)
      && q.totals.precioUnitario * BillingQuantity(inp.tiraje) as real == q.totals.precioTotal
  {
  }

  /** The page's default sidebar and layout values with a given run. */
  function DefaultInputs(t: Tiraje): PageInputs {
    PageInputs(PrintRates(0.06, 0.39, 0.35, 0.10), 21.0, 130.0, 0.0, 0.40,
               DefaultAncho, DefaultAlto, DefaultHojaW, DefaultHojaH, DefaultAreaW, DefaultAreaH,
               DefaultBleed, DefaultGutter, true, t)
  }

  /**
   * With the page's defaults, 1000 double-sided letter pieces bill 2000 letter-sides,
   * cost 1800 to print and take 250 sheets at two pieces per side.
   */
  lemma DefaultQuote()
    ensures var r := Cotizar(DefaultInputs(Piezas(1000, 2)), DefaultExtras);
      && r.Ok?
      && r.value.units == 2000.0
      && r.value.printing.total == 1800.0
      && r.value.layout.count == 2
      && r.value.hojas == 250
      && r.value.adicionales == 0.0
  {
    var inp := DefaultInputs(Piezas(1000, 2));
    DefaultLayout();
    assert LayoutOf(inp).count == 2;
    assert RejectionOf(inp) == None;
    FactorOfCartaIsOne(1.0, DefaultAncho, DefaultAlto);
    var factor := FactorVsCarta(inp.anchoFinal, inp.altoFinal);
    assert factor == 1.0;
    assert BillableUnits(inp.tiraje, factor) == 2000.0;
    assert PhysicalSheets(inp.tiraje, 2) == 250;
    DefaultExtrasTotal();
  }

  lemma DefaultExtrasTotal()
    ensures NamedTotal(DefaultExtras) == 0.0
  {
    var e := DefaultExtras;
    assert e[..2][..1] == e[..1];
    assert e[..1][..0] == [];
    assert NamedTotal(e[..1]) == 0.0;
    assert NamedTotal(e[..2]) == 0.0;
  }

  // ---------------------------------------------------------------------------------
  // The copyable quote text
  // ---------------------------------------------------------------------------------

  /** Whether the text lists a row: a concept and a positive amount. */
  predicate Listed(r: ExtraRow) {
    Strip(r.concepto) != "" && r.importe > 0.0
  }

  /** The rows the text lists, in order. */
  function ListedExtras(rows: seq<ExtraRow>): (l: seq<ExtraRow>)
    ensures forall i :: 0 <= i < |l| ==> Listed(l[i]) && l[i] in rows
    ensures forall i :: 0 <= i < |rows| && Listed(rows[i]) ==> rows[i] in l
  {
    if rows == [] then []
    else
      var init := ListedExtras(rows[..|rows| - 1]);
      var last := rows[|rows| - 1];
      assert forall i :: 0 <= i < |rows| - 1 ==> rows[i] == rows[..|rows| - 1][i];
      if Listed(last) then init + [last] else init
  }

  /** A row added at the end is listed after the others exactly when it is listed itself. */
  lemma ListedExtrasSnoc(rows: seq<ExtraRow>, r: ExtraRow)
    ensures ListedExtras(rows + [r]) == ListedExtras(rows) + (if Listed(r) then [r] else [])
  {
    var rs := rows + [r];
    assert rs[..|rs| - 1] == rows;
    assert rs[|rs| - 1] == r;
  }

  /** The listed rows of two lists joined are the listed rows of each, in order. */
  lemma {:induction false} ListedExtrasAppend(a: seq<ExtraRow>, b: seq<ExtraRow>)
    ensures ListedExtras(a + b) == ListedExtras(a) + ListedExtras(b)
  {
    if b == [] {
      assert a + b == a;
    } else {
      var init, last := b[..|b| - 1], b[|b| - 1];
      var tail := if Listed(last) then [last] else [];
      assert b == init + [last];
      assert a + b == (a + init) + [last];
      ListedExtrasSnoc(a + init, last);
      ListedExtrasSnoc(init, last);
      ListedExtrasAppend(a, init);
      assert ListedExtras(a) + ListedExtras(init) + tail == ListedExtras(a) + (ListedExtras(init) + tail);
    }
  }

  /** A single row is listed by itself exactly when it has a concept and a positive amount. */
  lemma ListedExtrasSingle(r: ExtraRow)
    ensures ListedExtras([r]) == if Listed(r) then [r] else []
  {
    assert [r][..0] == [];
  }

  /**
   * With non-negative amounts, the extras section appears (the total is positive) exactly
   * when some row is listed.
   */
  lemma {:induction false} ExtrasSectionIffListed(rows: seq<ExtraRow>)
    requires forall i :: 0 <= i < |rows| ==> rows[i].importe >= 0.0
    ensures NamedTotal(rows) > 0.0 <==> ListedExtras(rows) != []
  {
    if rows != [] {
      var init := rows[..|rows| - 1];
      ExtrasSectionIffListed(init);
      NamedTotalNonNegative(init);
    }
  }

  /** The bullet line of a listed extra. */
  function BulletLine(r: ExtraRow): Text {
    [Lit("  • "), Lit(Strip(r.concepto)), Lit(": $"), Grouped(r.importe, 2)]
  }

  /** The bullets of the text: the bullet line of each listed row, in order. */
  function BulletLines(rows: seq<ExtraRow>): (ls: seq<Text>)
    ensures |ls| == |ListedExtras(rows)|
    ensures forall k :: 0 <= k < |ls| ==> ls[k] == BulletLine(ListedExtras(rows)[k])
  {
    if rows == [] then []
    else
      var last := rows[|rows| - 1];
      BulletLines(rows[..|rows| - 1]) + (if Listed(last) then [BulletLine(last)] else [])
  }

  /** The text's lines up to the paper cost. */
  function TextHead(inp: PageInputs, q: Quote): seq<Text> {
    var t := inp.tiraje;
    [[Lit("Cotización Revoria")],
     [Lit("- Tipo de producto: "), Lit(ProductLabel(ProductOf(t)))],
     [Lit("- Medida final: "), Fixed(inp.anchoFinal, 2), Lit(" x "), Fixed(inp.altoFinal, 2), Lit(" cm")],
     [Lit("- Tiraje: "), Grouped(BillingQuantity(t) as real, 0),
      Lit(if t.Piezas? then " pzas" else " libros")]]
    + (match t
       case Piezas(_, lados) => [[Lit("- Impresión: "), Lit(if lados == 1 then "Frente" else "Frente y vuelta")]]
       case Libros(_, paginas) => [[Lit("- Páginas interiores por libro: "), Show(JInt(paginas))]])
    + [[Lit("- Cubicación: "), Show(JInt(q.layout.count)), Lit(" por lado ("),
        Lit(OrientationLabel(q.layout.orientation)), Lit(") | Huella "),
        Fixed(inp.areaW, 1), Lit(" x "), Fixed(inp.areaH, 1), Lit(" cm")],
       [Lit("- Hoja impresión: "), Fixed(inp.hojaW, 1), Lit(" x "), Fixed(inp.hojaH, 1), Lit(" cm")],
       [Lit("- Costo de impresión: $"), Grouped(q.printing.total, 2)],
       [Lit("- Papel: "), Fixed(inp.papelGramaje, 0), Lit(" g/m² @ $"), Grouped(inp.papelCostoKg, 2),
        Lit("/kg (merma "), Fixed(inp.merma * 100.0, 1), Lit("%)")],
       [Lit("- Costo de papel: $"), Grouped(q.paperCost, 2)]]
  }

  /** The text's closing lines. */
  function TextTail(inp: PageInputs, q: Quote): seq<Text> {
    [[Lit("- Subtotal costos (antes de margen): $"), Grouped(q.totals.subtotal, 2)],
     [Lit("- Margen aplicado: "), Fixed(inp.margen * 100.0, 1), Lit("%")],
     [Lit("- Precio unitario: $"), Grouped(q.totals.precioUnitario, 4)],
     [Lit("- Precio total: $"), Grouped(q.totals.precioTotal, 2)]]
  }

  /**
   * The copyable text, one element per line: the head, then, when the extras total is
   * positive, a heading and one bullet per row with a concept and a positive amount, then
   * the totals.
   */
  method QuoteText(inp: PageInputs, q: Quote, rows: seq<ExtraRow>) returns (texto: seq<Text>)
    ensures texto == TextHead(inp, q)
                     + (if q.adicionales > 0.0 then [[Lit("- Costos adicionales:")]] + BulletLines(rows) else [])
                     + TextTail(inp, q)
  {
    texto := TextHead(inp, q);
    if q.adicionales > 0.0 {
      texto := texto + [[Lit("- Costos adicionales:")]];
      ghost var start := texto;
      texto := AppendBullets(texto, rows);
      assert texto == start + BulletLines(rows);
    }
    texto := texto + TextTail(inp, q);
  }

  /** Row `i`'s turn of the loop adds its bullet when the row is listed. */
  lemma BulletLinesStep(rows: seq<ExtraRow>, i: nat)
    requires i < |rows|
    ensures BulletLines(rows[..i + 1]) == BulletLines(rows[..i]) + (if Listed(rows[i]) then [BulletLine(rows[i])] else [])
  {
    assert rows[..i + 1][..i] == rows[..i];
  }

  /** The loop over the rows: one bullet per listed row, appended in order. */
  method AppendBullets(texto: seq<Text>, rows: seq<ExtraRow>) returns (out: seq<Text>)
    ensures out == texto + BulletLines(rows)
  {
    out := texto;
    var i := 0;
    while i < |rows|
      invariant 0 <= i <= |rows|
      invariant out == texto + BulletLines(rows[..i])
    {
      var r := rows[i];
      BulletLinesStep(rows, i);
      if Strip(r.concepto) != "" && r.importe > 0.0 {
        out := out + [BulletLine(r)];
      }
      i := i + 1;
    }
    assert rows[..i] == rows;
  }
}
