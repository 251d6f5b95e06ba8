/** Tables and their cells: how a cell's own fill, alignment and inset
    overrides are merged with the table-wide values when the grid is built,
    how the gutter arguments are parsed, how arbitrary content becomes a cell,
    and the localized caption name.

    Paint (`P`), alignment (`A`), lengths (`L`), track sizings (`T`) and every
    element that is not a table cell (`E`) are type parameters: the model
    never looks inside them. */
module Table {
  import opened Foundations

  /** Content as far as tables need to tell it apart: whether it is a packed
      table cell. The link model keeps its own view of content (text, links,
      styles), since neither part looks at what the other distinguishes. */
  datatype Content<E, P, A, L> =
    | Empty                                 // `Content::default()`
    | Element(elem: E)                      // any element other than a table cell
    | CellElem(cell: CellFields<E, P, A, L>)  // a packed `table.cell`

  /** The fields of a `table.cell`: its body and its three overrides. */
  datatype CellFields<E, P, A, L> = CellFields(
    body: Content<E, P, A, L>,
    fill: Smart<Option<P>>,
    align: Smart<A>,
    inset: Smart<Sides<Option<L>>>)

  /** A resolved cell as the layout engine receives it: the packed cell and
      its final fill, which is no longer tri-state. */
  datatype Cell<E, P, A, L> = Cell(body: Content<E, P, A, L>, fill: Option<P>)

  /** The fields of `TableCell::new(body)`: every override is `Auto`. */
  function NewFields<E, P, A, L>(body: Content<E, P, A, L>): (r: CellFields<E, P, A, L>)
    ensures r.body == body && r.fill.Auto? && r.align.Auto? && r.inset.Auto?
  {
    CellFields(body, Auto, Auto, Auto)
  }

  // ---------------------------------------------------------------------------
  // Resolution of one cell against the table's values
  // ---------------------------------------------------------------------------

  /** The cell's fill when it sets one (even an explicit "no fill"), the
      table's fill at this position otherwise. */
  function ResolveFill<P>(cell: Smart<Option<P>>, table: Option<P>): (r: Option<P>)
    ensures cell.Custom? ==> r == cell.value
    ensures cell == Custom(None) ==> r == None
    ensures cell.Auto? ==> r == table
  {
    cell.UnwrapOr(table)
  }

  /** The alignment stored back into the cell. When the table's alignment is
      explicit the cell's own alignment is folded onto it; when the table's is
      `Auto` the cell's passes through untouched, to be folded with the outer
      alignment only when the cell is displayed. */
  function ResolveAlign<A>(cell: Smart<A>, table: Smart<A>, fold: (A, A) -> A): (r: Smart<A>)
    ensures table.Auto? ==> r == cell
    ensures table.Custom? ==> r.Custom?
    ensures table.Custom? && cell.Auto? ==> r == table
    ensures table.Custom? && cell.Custom? ==> r == Custom(fold(cell.value, table.value))
  {
    match table
    case Custom(a) => Custom(cell.MapOr(a, inner => fold(inner, a)))
    case Auto => cell
  }

  /** The inset stored back into the cell: the cell's sides that are set,
      the table's for the others; every side of the result is set. */
  function ResolveInset<L>(cell: Smart<Sides<Option<L>>>, table: Sides<L>): (r: Sides<Option<L>>)
    ensures AllSome(r)
    ensures cell.Auto? ==> r == Sides(Some(table.left), Some(table.top), Some(table.right), Some(table.bottom))
    ensures cell.Custom? ==>
      && r.left == Some(cell.value.left.UnwrapOr(table.left))
      && r.top == Some(cell.value.top.UnwrapOr(table.top))
      && r.right == Some(cell.value.right.UnwrapOr(table.right))
      && r.bottom == Some(cell.value.bottom.UnwrapOr(table.bottom))
  {
    cell.MapOr(table, inner => FoldSides(inner, table)).Map(x => Some(x))
  }

  /** The cell's fields after resolution: its body is kept, the fill becomes
      explicit, the inset explicit and complete. */
  function Resolved<E, P, A, L>(c: CellFields<E, P, A, L>, fill: Option<P>, align: Smart<A>,
                                inset: Sides<L>, fold: (A, A) -> A): (r: CellFields<E, P, A, L>)
    ensures r.body == c.body
    ensures r.fill == Custom(ResolveFill(c.fill, fill))
    ensures r.align == ResolveAlign(c.align, align, fold)
    ensures r.inset == Custom(ResolveInset(c.inset, inset)) && AllSome(r.inset.value)
  {
    CellFields(c.body, Custom(ResolveFill(c.fill, fill)), ResolveAlign(c.align, align, fold),
               Custom(ResolveInset(c.inset, inset)))
  }

  /** The cell's fields coerced from arbitrary content: a packed cell is taken
      as it is, anything else becomes the body of a cell without overrides. */
  function CellFromContent<E, P, A, L>(value: Content<E, P, A, L>): (r: CellFields<E, P, A, L>)
    ensures value.CellElem? ==> r == value.cell
    ensures !value.CellElem? ==> r == NewFields(value)
  {
    match value
    case CellElem(fields) => fields
    case _ => NewFields(value)
  }

  /** A `table.cell` element. Its overrides are fields that resolution
      overwrites in place before the cell is packed. */
  class TableCell<E, P, A, L> {
    var body: Content<E, P, A, L>
    var fill: Smart<Option<P>>
    var align: Smart<A>
    var inset: Smart<Sides<Option<L>>>

    /** The element's current fields as a value. */
    function Fields(): CellFields<E, P, A, L>
      reads this
    {
      CellFields(body, fill, align, inset)
    }

    /** The element packed into content. */
    function Pack(): Content<E, P, A, L>
      reads this
    {
      CellElem(Fields())
    }

    /** `TableCell::new(body)`. */
    constructor (body: Content<E, P, A, L>)
      ensures Fields() == NewFields(body)
    {
      this.body := body;
      fill, align, inset := Auto, Auto, Auto;
    }

    /** `TableCell::default()`: a cell with empty content and no overrides. */
    constructor Default()
      ensures Fields() == NewFields(Empty)
    {
      body := Empty;
      fill, align, inset := Auto, Auto, Auto;
    }

    /** A copy of a cell that was packed into content. */
    constructor Clone(fields: CellFields<E, P, A, L>)
      ensures Fields() == fields
    {
      body, fill, align, inset := fields.body, fields.fill, fields.align, fields.inset;
    }

    method PushFill(fill: Smart<Option<P>>)
      modifies this`fill
      ensures this.fill == fill
    {
      this.fill := fill;
    }

    method PushAlign(align: Smart<A>)
      modifies this`align
      ensures this.align == align
    {
      this.align := align;
    }

    method PushInset(inset: Smart<Sides<Option<L>>>)
      modifies this`inset
      ensures this.inset == inset
    {
      this.inset := inset;
    }

    /** Resolves this cell against the table's fill at its position, the
        table's alignment and the table's inset, writes the resolved values
        back into the cell and packs it. The column and row indices are not
        used: neither the new fields nor the result depend on them. */
    method ResolveCell(x: nat, y: nat, fill: Option<P>, align: Smart<A>, inset: Sides<L>,
                       fold: (A, A) -> A) returns (cell: Cell<E, P, A, L>)
      modifies this
      ensures Fields() == Resolved(old(Fields()), fill, align, inset, fold)
      ensures this.fill == Custom(cell.fill)
      ensures cell == Cell(Pack(), ResolveFill(old(this.fill), fill))
    {
      var resolvedFill := this.fill.UnwrapOr(fill);
      PushFill(Custom(resolvedFill));
      match align {
        case Custom(a) =>
          PushAlign(Custom(this.align.MapOr(a, inner => fold(inner, a))));
        case Auto =>
          PushAlign(this.align);
      }
      PushInset(Custom(this.inset.MapOr(inset, inner => FoldSides(inner, inset)).Map(x => Some(x))));
      cell := Cell(Pack(), resolvedFill);
    }
  }

  /** `From<Content> for TableCell`: the cell a child of the table becomes. */
  method FromContent<E, P, A, L>(value: Content<E, P, A, L>) returns (cell: TableCell<E, P, A, L>)
    ensures fresh(cell)
    ensures cell.Fields() == CellFromContent(value)
  {
    if value.CellElem? {
      cell := new TableCell<E, P, A, L>.Clone(value.cell);
    } else {
      cell := new TableCell<E, P, A, L>(value);
    }
  }

  /** Resolving an already resolved cell again keeps its fill and its inset,
      whatever the table's values are the second time. */
  lemma ResolveTwiceKeepsFillAndInset<E, P, A, L>(
    c: CellFields<E, P, A, L>, fill1: Option<P>, align1: Smart<A>, inset1: Sides<L>,
    fill2: Option<P>, align2: Smart<A>, inset2: Sides<L>, fold: (A, A) -> A)
    ensures var once := Resolved(c, fill1, align1, inset1, fold);
            var twice := Resolved(once, fill2, align2, inset2, fold);
            twice.fill == once.fill && twice.inset == once.inset && twice.body == c.body
  {
  }

  /** A packed cell coerced back into a cell gives the same fields. */
  lemma PackedCellRoundTrip<E, P, A, L>(c: CellFields<E, P, A, L>)
    ensures CellFromContent(CellElem(c)) == c
  {
  }

  /** A table with inset 5 on every side and a cell that sets only its top
      inset to 10: the cell's resolved inset is 5, 10, 5, 5 (left, top,
      right, bottom). */
  lemma InsetExample<L>(five: L, ten: L)
    ensures ResolveInset(Custom(Sides(None, Some(ten), None, None)), Splat(five))
         == Sides(Some(five), Some(ten), Some(five), Some(five))
  {
  }

  /** A striped table, `fill: (col, _) => if calc.odd(col) { gray } else { white }`:
      a cell without its own fill is gray in column 1 and white in column 0. */
  lemma StripedFillExample<P>(gray: P, white: P, row: nat)
    ensures var striped := (col: nat, row: nat) => if col % 2 == 1 then Some(gray) else Some(white);
            ResolveFill(Auto, striped(1, row)) == Some(gray) &&
            ResolveFill(Auto, striped(0, row)) == Some(white)
  {
  }

  /** The table's default inset: 5pt on every side (`fivePt` stands for that length). */
  function DefaultInset<L>(fivePt: L): (r: Sides<Option<L>>)
    ensures AllSome(r)
    ensures r.left.value == fivePt && r.top.value == fivePt
    ensures r.right.value == fivePt && r.bottom.value == fivePt
  {
    Splat(Some(fivePt))
  }

  // ---------------------------------------------------------------------------
  // Gutter arguments
  // ---------------------------------------------------------------------------

  /** The parsed column and row gutters; `None` leaves the field unset. */
  datatype Gutters<T> = Gutters(column: Option<T>, row: Option<T>)

  /** The `gutter`, `column-gutter` and `row-gutter` named arguments, read in
      that order: the specific gutter takes precedence over `gutter`, and the
      first malformed argument is the error. */
  function ParseGutters<T>(gutter: Arg<T>, columnGutter: Arg<T>, rowGutter: Arg<T>): (r: Result<Gutters<T>>)
    ensures r.Ok? <==> !gutter.Malformed? && !columnGutter.Malformed? && !rowGutter.Malformed?
    ensures gutter.Malformed? ==> r == Err(InvalidArgument("gutter"))
    ensures !gutter.Malformed? && columnGutter.Malformed? ==> r == Err(InvalidArgument("column-gutter"))
    ensures !gutter.Malformed? && !columnGutter.Malformed? && rowGutter.Malformed? ==>
      r == Err(InvalidArgument("row-gutter"))
    ensures r.Ok? ==>
      r.value.column == (if columnGutter.Given? then Some(columnGutter.value)
                         else if gutter.Given? then Some(gutter.value) else None)
    ensures r.Ok? ==>
      r.value.row == (if rowGutter.Given? then Some(rowGutter.value)
                      else if gutter.Given? then Some(gutter.value) else None)
  {
    match Named(gutter, "gutter")
    case Err(e) => Err(e)
    case Ok(g) =>
      match Named(columnGutter, "column-gutter")
      case Err(e) => Err(e)
      case Ok(column) =>
        match Named(rowGutter, "row-gutter")
        case Err(e) => Err(e)
        case Ok(row) => Ok(Gutters(column.OrElse(g), row.OrElse(g)))
  }

  // ---------------------------------------------------------------------------
  // Localized name
  // ---------------------------------------------------------------------------

  /** The languages the caption name is localized for; `OtherLang` is any
      other language, and its code must not name one of the languages listed
      before it (those have their own constructor). */
  datatype Lang =
    | Albanian | Arabic | Bokmal | Chinese | Czech | Danish | Dutch | Estonian
    | Filipino | Finnish | French | German | Greek | Hungarian | Italian | Nynorsk
    | Polish | Portuguese | Romanian | Russian | Serbian | Slovenian | Spanish
    | Swedish | Turkish | Ukrainian | Vietnamese | Japanese | English
    | OtherLang(code: string)

  /** The localized name of a table, used in figure captions. The region is
      not consulted; English and every language not listed get "Table". */
  function LocalName(lang: Lang, region: Option<string>): (r: string)
    ensures lang.English? || lang.OtherLang? ==> r == "Table"
    ensures |r| > 0
  {
    match lang
    case Albanian => "Tabel"
    case Arabic => "جدول"
    case Bokmal => "Tabell"
    case Chinese => "表"
    case Czech => "Tabulka"
    case Danish => "Tabel"
    case Dutch => "Tabel"
    case Estonian => "Tabel"
    case Filipino => "Talaan"
    case Finnish => "Taulukko"
    case French => "Tableau"
    case German => "Tabelle"
    case Greek => "Πίνακας"
    case Hungarian => "Táblázat"
    case Italian => "Tabella"
    case Nynorsk => "Tabell"
    case Polish => "Tabela"
    case Portuguese => "Tabela"
    case Romanian => "Tabelul"
    case Russian => "Таблица"
    case Serbian => "Табела"
    case Slovenian => "Tabela"
    case Spanish => "Tabla"
    case Swedish => "Tabell"
    case Turkish => "Tablo"
    case Ukrainian => "Таблиця"
    case Vietnamese => "Bảng"
    case Japanese => "表"
    case _ => "Table"
  }

  /** "Table" is the fallback name and no listed language's own name, and
      the region never changes the name. */
  lemma LocalNameFallback(lang: Lang, region: Option<string>, other: Option<string>)
    ensures LocalName(lang, region) == "Table" <==> lang.English? || lang.OtherLang?
    ensures LocalName(lang, region) == LocalName(lang, other)
  {
  }
}
