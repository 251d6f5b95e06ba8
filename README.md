# Table cells and links in typst's content model

This project is a Dafny model of two pieces of typst's content model.

- **Table cells** (`crates/typst/src/model/table.rs`, module `Table`). When the grid is built, each
  `table.cell` merges its own `fill`, `align` and `inset` overrides with the table's values. A
  `Smart` value is `Auto` ("inherit") or `Custom(v)` ("explicit"). The cell's fill wins when it
  is explicit, and an explicit "no fill" (`Custom(None)`) is not the same as `Auto`. The
  alignment is folded only when the table's alignment is explicit. The inset is merged side by
  side. The resolved values are written back into the cell (a class with mutable fields), and
  the cell is then packed into a `Cell` with its final fill. The module also covers:
  - the precedence of the `column-gutter` / `row-gutter` arguments over `gutter`;
  - how arbitrary content becomes a cell;
  - the default inset;
  - the localized caption name.
- **Links** (`crates/typst/src/model/link.rs`, module `Link`), which covers:
  - the text of a bare URL link, with leading `mailto:` and then `tel:` removed (a loop over the
    two prefixes);
  - the parse rule that lets the body be omitted only for URL destinations;
  - the display of a link for a concrete destination, a label that resolves, and a label that
    does not;
  - the casts of `Destination` and `LinkTarget` to and from script values.

Module `Foundations` holds the shared wrappers: `Option`, the argument parser's `Result` and
`Arg`, `Smart`, and `Sides` with its side-by-side fold.

Paint, alignment, lengths, track sizings and table content other than cells are type
parameters. The model never looks inside them. Alignment's own fold is passed in as a function
`fold(inner, outer)`. A label lookup is passed in as its outcome, an `Option<Location>`.

The stored alignment stays tri-state only when the table's alignment is `Auto`. With an
explicit table alignment it is always `Custom` (`table.rs:300-303`), and `ResolveAlign` states
this.

## Model

| member | source | states |
|---|---|---|
| `Foundations.Named` | crates/typst/src/model/table.rs:71-78 | a named argument that is absent is `None`; one that is given is `Some` of its value; a malformed one is an error naming the argument |
| `Foundations.FoldSides` | crates/typst/src/model/table.rs:310 | each side of the fold is the inner side when it is set, else the outer side |
| `Foundations.FoldSidesIdempotent` | crates/typst/src/model/table.rs:310 | folding the same inner value a second time changes nothing |
| `Foundations.FoldSidesComplete` | crates/typst/src/model/table.rs:310 | an inner value with every side set wins over any outer value |
| `Foundations.FoldSidesEmpty` | crates/typst/src/model/table.rs:310 | an inner value with no side set leaves the outer value unchanged |
| `Table.NewFields` | crates/typst/src/model/table.rs:328 | a new cell keeps the given body and has every override `Auto` |
| `Table.ResolveFill` | crates/typst/src/model/table.rs:298 | an explicit cell fill wins for any table fill, and `Custom(None)` gives no fill; with `Auto`, the result is exactly the table's fill at that position |
| `Table.ResolveAlign` | crates/typst/src/model/table.rs:300-308 | with a table alignment of `Auto`, the cell's alignment passes through unchanged; with an explicit table alignment `a`, the result is always `Custom`: it is `Custom(a)` for a cell with `Auto`, and `Custom(fold(c, a))` for a cell with `Custom(c)` |
| `Table.ResolveInset` | crates/typst/src/model/table.rs:309-311 | a cell inset of `Auto` gives the table's inset; an explicit one gives, per side, the cell's side when set and the table's otherwise; every side of the result is set |
| `Table.Resolved` | crates/typst/src/model/table.rs:298-311 | after resolution the body is kept, the fill is `Custom` of the resolved fill, the alignment is the resolved alignment, and the inset is `Custom` of the side-by-side merge, with every side set |
| `Table.CellFromContent` | crates/typst/src/model/table.rs:323-330 | content that is already a cell gives that cell's fields unchanged; any other content becomes the body of a cell with every override `Auto` |
| `Table.TableCell.constructor` | crates/typst/src/model/table.rs:328 | `TableCell::new(body)` has the body and every override `Auto` |
| `Table.TableCell.Default` | crates/typst/src/model/table.rs:282-286 | the default cell has empty content and every override `Auto` |
| `Table.TableCell.Clone` | crates/typst/src/model/table.rs:326-327 | the copy of a packed cell has exactly that cell's fields |
| `Table.TableCell.PushFill` | crates/typst/src/model/table.rs:299 | sets the fill field and no other field |
| `Table.TableCell.PushAlign` | crates/typst/src/model/table.rs:300-308 | sets the alignment field and no other field |
| `Table.TableCell.PushInset` | crates/typst/src/model/table.rs:309-311 | sets the inset field and no other field |
| `Table.TableCell.ResolveCell` | crates/typst/src/model/table.rs:288-314 | the cell's new fields are the resolved fields of its old ones, and the stored fill is `Custom` of the returned cell's fill; the returned cell is the packed resolved cell with the resolved fill; neither the new state nor the result mentions the two position indices |
| `Table.FromContent` | crates/typst/src/model/table.rs:323-330 | returns a fresh cell whose fields are those of the coerced content |
| `Table.ResolveTwiceKeepsFillAndInset` | crates/typst/src/model/table.rs:298-311 | resolving an already resolved cell again, against any table values, keeps its body, fill and inset |
| `Table.PackedCellRoundTrip` | crates/typst/src/model/table.rs:325-327 | a cell packed into content and coerced back has the same fields |
| `Table.InsetExample` | crates/typst/src/model/table.rs:309-311 | a table inset of 5 on every side with a cell override of 10 on top only resolves to 5, 10, 5, 5 (left, top, right, bottom) |
| `Table.StripedFillExample` | crates/typst/src/model/table.rs:88-101 | with the striped fill function, a cell without its own fill gets gray in column 1 and white in column 0 |
| `Table.DefaultInset` | crates/typst/src/model/table.rs:154-156 | the default table inset has the 5pt length on every side |
| `Table.ParseGutters` | crates/typst/src/model/table.rs:70-78 | the column gutter is `column-gutter` if given, else `gutter`, else unset, and likewise for the row gutter; parsing fails exactly when some argument is malformed, and the error names the first malformed one in the order `gutter`, `column-gutter`, `row-gutter` |
| `Table.LocalName` | crates/typst/src/model/table.rs:205-238 | English and every unlisted language give "Table"; the name is never empty |
| `Table.LocalNameFallback` | crates/typst/src/model/table.rs:205-238 | the name is "Table" exactly for English and the unlisted languages, since no listed language's own name is "Table"; the region never changes the name |
| `Link.TrimStartMatches` | crates/typst/src/model/link.rs:114 | the result is a suffix of the input; for a non-empty prefix it no longer starts with the prefix; an input that does not start with the prefix is returned as it is |
| `Link.TrimStartMatchesRemovesCopies` | crates/typst/src/model/link.rs:114 | the input is some number of copies of the prefix followed by the trimmed result |
| `Link.TrimStartMatchesOfCopies` | crates/typst/src/model/link.rs:114 | copies of a non-empty prefix followed by text that does not start with it trim to exactly that text |
| `Link.BodyFromUrl` | crates/typst/src/model/link.rs:111-118 | the body is the text of the URL with all leading `mailto:` and then all leading `tel:` removed; the loop keeps the text a suffix of the URL, so the check on its length only returns the same text |
| `Link.StripSchemesIsSuffix` | crates/typst/src/model/link.rs:112-115 | the body text is a suffix of the URL and never begins with `tel:` |
| `Link.StripSchemesKeepsOtherUrls` | crates/typst/src/model/link.rs:116-117 | a URL that starts with neither `mailto:` nor `tel:` is its own body text |
| `Link.StripSchemesCharacterization` | crates/typst/src/model/link.rs:112-115 | the body text is `r` exactly when the URL is some `mailto:` copies, then some `tel:` copies, then `r`, where `r` does not start with `tel:` and the part after the `mailto:` copies does not start with `mailto:` |
| `Link.MailtoExample` | crates/typst/src/model/link.rs:36-39 | `mailto:hello@typst.app` has body text `hello@typst.app` |
| `Link.HttpsExample` | crates/typst/src/model/link.rs:71-72 | `https://example.com` has the whole URL as its body text |
| `Link.TelBeforeMailtoExample` | crates/typst/src/model/link.rs:113-115 | `tel:mailto:x` has body text `mailto:x`, because `mailto:` is stripped before `tel:` |
| `Link.FromUrl` | crates/typst/src/model/link.rs:86-89 | the element links to `Url(url)`, and its body is the text of the URL with its schemes stripped, which is a suffix of the URL and does not begin with `tel:` |
| `Link.DestinationToValue` | crates/typst/src/model/link.rs:162-166 | a destination becomes a string, position or location value |
| `Link.DestinationFromValue` | crates/typst/src/model/link.rs:167-169 | exactly string, position and location values cast to a destination, and the destination converts back to the same value |
| `Link.LinkTargetToValue` | crates/typst/src/model/link.rs:129-132 | a target becomes a label value exactly when it is a label |
| `Link.LinkTargetFromValue` | crates/typst/src/model/link.rs:133-134 | every string, position, location or label value casts to a target, and no other value does; a label value gives `Label` and the others give `Dest`; the target converts back to the same value |
| `Link.DestinationRoundTrip` | crates/typst/src/model/link.rs:160-170 | casting a destination to a value and back gives the same variant and payload |
| `Link.LinkTargetRoundTrip` | crates/typst/src/model/link.rs:127-135 | casting a target to a value and back gives the same target |
| `Link.ParseLink` | crates/typst/src/model/link.rs:62-81 | a missing destination and one that does not cast are errors; parsing succeeds exactly when the body is given, or is absent and the destination is a URL; a given body is kept; an absent body gives the element `from_url` builds; otherwise the error is an invalid or missing body |
| `Link.ParseBareUrl` | crates/typst/src/model/link.rs:74-89 | `link(url)` without a body parses to `LinkElem::from_url(url)` |
| `Link.Show` | crates/typst/src/model/link.rs:94-108 | the output always has hyphenation set to `Custom(false)`; a destination target links the body to exactly that destination; a label that the lookup finds links the body to that element's location; a label that is not found gives the plain body |
| `Link.ShowDestIgnoresLookup` | crates/typst/src/model/link.rs:96-97 | a destination target is displayed the same whatever the lookup would find |
| `Link.ShowFoundLabelIsLocationLink` | crates/typst/src/model/link.rs:98-103 | a label found at `loc` is displayed exactly like a link to `Destination::Location(loc)` |
| `Link.ShowBareUrl` | crates/typst/src/model/link.rs:86-108 | a bare URL link displays its body text linked to the URL, with hyphenation off |

## Left out

- `Table.TableCell.ResolveCell`: the source takes the cell by value (`mut self`, `table.rs:290`), so a resolved cell is consumed and cannot be resolved again. The class object stays usable after resolution, so that consumption is not modelled. `ResolveTwiceKeepsFillAndInset` is about the values only.
- Table layout (`Layout for TableElem`, `table.rs:169-203`), `CellGrid::resolve` and `GridLayouter`: the layout engine and its track and gutter arithmetic are not part of this model.
- Celled properties (`Celled`: a constant, an array or a function of the column and row): the model receives the table's fill and alignment already evaluated at the cell's position, so `Celled` evaluation and its errors are not modelled.
- Strokes (`table.rs:130-133,184`) and the arithmetic of `Rel<Length>` and `Abs`: lengths are floating point values, kept opaque.
- The style chain: the cell's `fill`, `align` and `inset` getters are modelled as reading the cell's own fields, so `set table.cell(...)` rules are not modelled. Folding the style chain onto the table's default inset, by which the table's inset reaches `resolve_cell` complete, is macro-generated and is not modelled either.
- `Sides<Option<T>>::fold` and `Align::fold` are not part of this model. The first is modelled by its per-side meaning (the inner side if set, else the outer). The second is a function parameter.
- `Show for TableCell` (`table.rs:317-321`): it calls `show_grid_cell`, which is not part of this model.
- Packing into content, `Content::linked` and `Content::styled` are constructors of the abstract `Content` types (`CellElem`, `Linked`, `Styled`).
- `engine.delayed` and the introspector: the lookup is an input (`Option<Location>`, the location of the element found). Not modelled: handing the lookup error to the delayed diagnostics, the retry of the lookup in later layout passes, the dangling-label diagnostic once layout settles, and the `unwrap` of the found element's location.
- The dictionary form of `Position`, its cast, and the cast of a value to `Content` for the body: a position value and an already cast body argument are inputs.
- `From<Destination> for LinkTarget` (`link.rs:137-141`) is the `Dest` constructor itself. `Repr for Destination` (`link.rs:154-158`) is debug formatting. Neither is modelled separately.
- Languages are an enumeration of the ones `local_name` lists plus `OtherLang`, because their ISO codes are not part of this model. Nothing stops `OtherLang` from carrying the code of a listed language; its doc comment says it must not. The region argument is accepted and ignored, as in the source.
- `BodyFromUrl`: the length comparison is made on characters rather than UTF-8 bytes. The trimmed text is always a suffix of the URL, so the two comparisons agree.
- `Foundations.Named`: `args.named` takes the last of repeated named arguments and fails if any copy is malformed. `Arg<T>` models a single occurrence, so repeated named arguments are not modelled.
- Macro plumbing: the `#[elem]` and `#[parse]` expansion, `cast!`, and the `typst_macros::time` instrumentation.
