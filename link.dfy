/** Links: the text a bare URL link shows, the parse rule for the link's
    arguments, how a link is displayed for each kind of target, and the
    conversions of targets and destinations to and from values. */
module Link {
  import opened Foundations

  /** A user-chosen identifier attached to some element of the document. */
  datatype Label = Label(name: string)

  /** An element's location handle, stable across layout passes; opaque. */
  datatype Location = Loc(hash: nat)

  /** A point on a page: the page number, counted from one, and the
      coordinates relative to the page's top left corner. */
  datatype Position = Pos(page: PageNumber, x: real, y: real)

  /** Page numbers start at one. */
  type PageNumber = n: nat | n >= 1 witness 1

  /** What a link points to. */
  datatype Destination =
    | Url(url: string)
    | Position(position: Position)
    | Location(location: Location)

  /** What the author links to: a destination, or a label still to be looked up. */
  datatype LinkTarget = Dest(dest: Destination) | Label(key: Label)

  /** Content as far as links need it: text, a linked body and a styled
      body. `Other` stands for any other content the author writes as a
      link's body. The table model keeps its own view of content (whether it
      is a packed cell), since neither part looks at what the other
      distinguishes. */
  datatype Content =
    | Text(text: string)
    | Linked(body: Content, dest: Destination)
    | Styled(child: Content, hyphenate: Smart<bool>)
    | Other(id: nat)

  /** A link element: its target and its body. */
  datatype LinkElem = LinkElem(dest: LinkTarget, body: Content)

  // ---------------------------------------------------------------------------
  // The body of a bare URL link
  // ---------------------------------------------------------------------------

  predicate StartsWith(s: string, prefix: string) {
    |prefix| <= |s| && s[..|prefix|] == prefix
  }

  predicate IsSuffix(suffix: string, s: string) {
    |suffix| <= |s| && s[|s| - |suffix|..] == suffix
  }

  /** `prefix` written `k` times in a row. */
  function Repeat(prefix: string, k: nat): string {
    if k == 0 then [] else prefix + Repeat(prefix, k - 1)
  }

  /** `str::trim_start_matches`: every leading occurrence of `prefix` removed.
      An empty prefix removes nothing. */
  function TrimStartMatches(s: string, prefix: string): (r: string)
    ensures IsSuffix(r, s)
    ensures |prefix| > 0 ==> !StartsWith(r, prefix)
    ensures !StartsWith(s, prefix) ==> r == s
    decreases |s|
  {
    if |prefix| > 0 && StartsWith(s, prefix) then TrimStartMatches(s[|prefix|..], prefix) else s
  }

  /** How many leading copies of `prefix` trimming removes. */
  function TrimCount(s: string, prefix: string): nat
    decreases |s|
  {
    if |prefix| > 0 && StartsWith(s, prefix) then 1 + TrimCount(s[|prefix|..], prefix) else 0
  }

  /** What trimming removes is exactly a run of leading copies of the prefix. */
  lemma {:induction false} TrimStartMatchesRemovesCopies(s: string, prefix: string)
    ensures s == Repeat(prefix, TrimCount(s, prefix)) + TrimStartMatches(s, prefix)
    decreases |s|
  {
    if |prefix| > 0 && StartsWith(s, prefix) {
      var rest := s[|prefix|..];
      var k := TrimCount(rest, prefix);
      var t := TrimStartMatches(rest, prefix);
      TrimStartMatchesRemovesCopies(rest, prefix);
      calc {
        s;
        prefix + rest;
        prefix + (Repeat(prefix, k) + t);
        (prefix + Repeat(prefix, k)) + t;
        Repeat(prefix, k + 1) + t;
      }
    } else {
      assert Repeat(prefix, 0) + s == s;
    }
  }

  /** Conversely, whatever follows a run of copies of the prefix, and does
      not itself start with it, is what trimming leaves. */
  lemma {:induction false} TrimStartMatchesOfCopies(prefix: string, k: nat, t: string)
    requires |prefix| > 0 && !StartsWith(t, prefix)
    ensures TrimStartMatches(Repeat(prefix, k) + t, prefix) == t
  {
    if k > 0 {
      var u := Repeat(prefix, k - 1) + t;
      var s := prefix + u;
      assert Repeat(prefix, k) + t == s;
      assert s[..|prefix|] == prefix && s[|prefix|..] == u;
      TrimStartMatchesOfCopies(prefix, k - 1, t);
    } else {
      assert Repeat(prefix, k) + t == t;
    }
  }

  const Mailto: string := "mailto:"
  const Tel: string := "tel:"

  /** The schemes stripped from a bare link's text, in the order they are stripped. */
  const Schemes: seq<string> := [Mailto, Tel]

  /** The text of a bare URL link: all leading `mailto:` removed, then all
      leading `tel:`. */
  function StripSchemes(url: string): string {
    TrimStartMatches(TrimStartMatches(url, Mailto), Tel)
  }

  /** Trimming with each prefix of `prefixes` in turn. */
  function TrimEach(s: string, prefixes: seq<string>): string {
    if prefixes == [] then s
    else TrimStartMatches(TrimEach(s, prefixes[..|prefixes| - 1]), prefixes[|prefixes| - 1])
  }

  /** `body_from_url`: strips the schemes prefix by prefix and keeps the
      shorter text only if something was stripped. */
  method BodyFromUrl(url: string) returns (body: Content)
    ensures body == Text(StripSchemes(url))
  {
    var text := url;
    for i := 0 to |Schemes|
      invariant IsSuffix(text, url)
      invariant text == TrimEach(url, Schemes[..i])
    {
      assert Schemes[..i + 1][..i] == Schemes[..i];
      text := TrimStartMatches(text, Schemes[i]);
    }
    assert Schemes[..|Schemes|] == Schemes;
    assert Schemes[..1] == [Mailto];
    var shorter := |text| < |url|;
    body := Text(if shorter then text else url);
  }

  /** The link text is what is left of the URL after leading scheme prefixes. */
  lemma StripSchemesIsSuffix(url: string)
    ensures IsSuffix(StripSchemes(url), url)
    ensures !StartsWith(StripSchemes(url), Tel)
  {
  }

  /** A URL that starts with neither scheme is shown as it is. */
  lemma StripSchemesKeepsOtherUrls(url: string)
    requires !StartsWith(url, Mailto) && !StartsWith(url, Tel)
    ensures StripSchemes(url) == url
  {
  }

  /** `StripSchemes(url) == r` holds exactly when the URL is some copies of
      `mailto:`, then some copies of `tel:`, then `r`, where `r` does not
      start with `tel:` and what follows the `mailto:` copies does not start
      with `mailto:`. */
  lemma StripSchemesCharacterization(url: string, r: string)
    ensures StripSchemes(url) == r <==>
      exists i: nat, j: nat ::
        && url == Repeat(Mailto, i) + (Repeat(Tel, j) + r)
        && !StartsWith(r, Tel)
        && !StartsWith(Repeat(Tel, j) + r, Mailto)
  {
    var once := TrimStartMatches(url, Mailto);
    if StripSchemes(url) == r {
      var i, j := TrimCount(url, Mailto), TrimCount(once, Tel);
      TrimStartMatchesRemovesCopies(url, Mailto);
      TrimStartMatchesRemovesCopies(once, Tel);
      assert url == Repeat(Mailto, i) + (Repeat(Tel, j) + r);
    }
    if exists i: nat, j: nat ::
        && url == Repeat(Mailto, i) + (Repeat(Tel, j) + r)
        && !StartsWith(r, Tel)
        && !StartsWith(Repeat(Tel, j) + r, Mailto)
    {
      var i: nat, j: nat :|
        && url == Repeat(Mailto, i) + (Repeat(Tel, j) + r)
        && !StartsWith(r, Tel)
        && !StartsWith(Repeat(Tel, j) + r, Mailto);
      TrimStartMatchesOfCopies(Mailto, i, Repeat(Tel, j) + r);
      TrimStartMatchesOfCopies(Tel, j, r);
    }
  }

  /** A string whose `i`-th character differs from the prefix's does not start with it. */
  lemma DiffersAt(s: string, prefix: string, i: nat)
    requires i < |s| && i < |prefix| && s[i] != prefix[i]
    ensures !StartsWith(s, prefix)
  {
  }

  /** `link("mailto:hello@typst.app")` shows `hello@typst.app`. */
  lemma MailtoExample()
    ensures StripSchemes("mailto:hello@typst.app") == "hello@typst.app"
  {
    var rest := "hello@typst.app";
    DiffersAt(rest, Mailto, 0);
    DiffersAt(rest, Tel, 0);
    assert Repeat(Mailto, 1) + rest == "mailto:hello@typst.app";
    TrimStartMatchesOfCopies(Mailto, 1, rest);
  }

  /** `link("https://example.com")` shows the whole URL: no other scheme is stripped. */
  lemma HttpsExample()
    ensures StripSchemes("https://example.com") == "https://example.com"
  {
    DiffersAt("https://example.com", Mailto, 0);
    DiffersAt("https://example.com", Tel, 0);
    StripSchemesKeepsOtherUrls("https://example.com");
  }

  /** `mailto:` is stripped before `tel:`, so a `mailto:` behind a `tel:` stays. */
  lemma TelBeforeMailtoExample()
    ensures StripSchemes("tel:mailto:x") == "mailto:x"
  {
    var rest := "mailto:x";
    DiffersAt("tel:mailto:x", Mailto, 0);
    DiffersAt(rest, Tel, 0);
    assert Repeat(Tel, 1) + rest == "tel:mailto:x";
    TrimStartMatchesOfCopies(Tel, 1, rest);
  }

  /** `LinkElem::from_url`: a link to the URL whose body is the URL's text. */
  function FromUrl(url: string): (r: LinkElem)
    ensures r.dest == Dest(Url(url))
    ensures r.body == Text(StripSchemes(url))
    ensures r.body.Text? && IsSuffix(r.body.text, url) && !StartsWith(r.body.text, Tel)
  {
    StripSchemesIsSuffix(url);
    LinkElem(Dest(Url(url)), Text(StripSchemes(url)))
  }

  // ---------------------------------------------------------------------------
  // Values and casts
  // ---------------------------------------------------------------------------

  /** A script value, as far as the casts distinguish it. */
  datatype Value =
    | Str(s: string)
    | PositionValue(position: Position)
    | LocationValue(location: Location)
    | LabelValue(key: Label)
    | OtherValue(typeName: string)

  function DestinationToValue(d: Destination): (v: Value)
    ensures v.Str? || v.PositionValue? || v.LocationValue?
  {
    match d
    case Url(s) => Str(s)
    case Position(p) => PositionValue(p)
    case Location(l) => LocationValue(l)
  }

  /** A string, a position or a location casts to a destination; any other
      value does not, and a cast value converts back to the value it came from. */
  function DestinationFromValue(v: Value): (r: Option<Destination>)
    ensures r.Some? <==> v.Str? || v.PositionValue? || v.LocationValue?
    ensures r.Some? ==> DestinationToValue(r.value) == v
  {
    match v
    case Str(s) => Some(Url(s))
    case PositionValue(p) => Some(Position(p))
    case LocationValue(l) => Some(Location(l))
    case _ => None
  }

  function LinkTargetToValue(t: LinkTarget): (v: Value)
    ensures t.Label? <==> v.LabelValue?
  {
    match t
    case Dest(d) => DestinationToValue(d)
    case Label(l) => LabelValue(l)
  }

  /** A value casts to a target when it casts to a destination (tried first)
      or is a label; a cast target converts back to the value it came from. */
  function LinkTargetFromValue(v: Value): (r: Option<LinkTarget>)
    ensures r.Some? <==> !v.OtherValue?
    ensures r.Some? ==> LinkTargetToValue(r.value) == v
    ensures r.Some? ==> (r.value.Label? <==> v.LabelValue?)
  {
    match DestinationFromValue(v)
    case Some(d) => Some(Dest(d))
    case None => if v.LabelValue? then Some(LinkTarget.Label(v.key)) else None
  }

  /** Casting a destination to a value and back gives the same destination. */
  lemma DestinationRoundTrip(d: Destination)
    ensures DestinationFromValue(DestinationToValue(d)) == Some(d)
  {
  }

  /** Casting a target to a value and back gives the same target. */
  lemma LinkTargetRoundTrip(t: LinkTarget)
    ensures LinkTargetFromValue(LinkTargetToValue(t)) == Some(t)
  {
  }

  // ---------------------------------------------------------------------------
  // Parsing the arguments
  // ---------------------------------------------------------------------------

  predicate IsUrlTarget(t: LinkTarget) {
    t.Dest? && t.dest.Url?
  }

  /** `link(dest, body)`: the destination is required; the body may be
      omitted only when the destination is a URL, and then it is the URL's
      text. */
  function ParseLink(destination: Option<Value>, body: Arg<Content>): (r: Result<LinkElem>)
    ensures destination.None? ==> r == Err(MissingArgument("destination"))
    ensures destination.Some? && LinkTargetFromValue(destination.value).None? ==>
      r == Err(InvalidArgument("destination"))
    ensures r.Ok? ==> destination.Some? && LinkTargetFromValue(destination.value) == Some(r.value.dest)
    ensures r.Ok? <==>
      && destination.Some? && LinkTargetFromValue(destination.value).Some?
      && (body.Given? || (body.Absent? && IsUrlTarget(LinkTargetFromValue(destination.value).value)))
    ensures r.Ok? && body.Given? ==> r.value.body == body.value
    ensures r.Ok? && body.Absent? ==> r.value == FromUrl(r.value.dest.dest.url)
    ensures r.Err? && destination.Some? && LinkTargetFromValue(destination.value).Some? ==>
      r == (if body.Malformed? then Err(InvalidArgument("body")) else Err(MissingArgument("body")))
  {
    match destination
    case None => Err(MissingArgument("destination"))
    case Some(v) =>
      match LinkTargetFromValue(v)
      case None => Err(InvalidArgument("destination"))
      case Some(dest) =>
        match body
        case Given(b) => Ok(LinkElem(dest, b))
        case Malformed => Err(InvalidArgument("body"))
        case Absent =>
          if IsUrlTarget(dest) then Ok(FromUrl(dest.dest.url)) else Err(MissingArgument("body"))
  }

  /** `link("…")` with no body is the same element as `LinkElem::from_url`. */
  lemma ParseBareUrl(url: string)
    ensures ParseLink(Some(Str(url)), Absent) == Ok(FromUrl(url))
  {
  }

  // ---------------------------------------------------------------------------
  // Display
  // ---------------------------------------------------------------------------

  /** Display of a link. A destination is attached at once. A label is
      resolved through `lookup`, the location of the element the document's
      index finds for it: when there is one, the body links to that location;
      when there is none, the body is shown unlinked. On every path
      hyphenation is turned off. */
  function Show(elem: LinkElem, lookup: Option<Location>): (r: Content)
    ensures r.Styled? && r.hyphenate == Custom(false)
    ensures elem.dest.Dest? ==> r.child == Linked(elem.body, elem.dest.dest)
    ensures elem.dest.Label? && lookup.Some? ==> r.child == Linked(elem.body, Location(lookup.value))
    ensures elem.dest.Label? && lookup.None? ==> r.child == elem.body
  {
    var linked :=
      match elem.dest
      case Dest(d) => Linked(elem.body, d)
      case Label(_) =>
        match lookup
        case Some(loc) => Linked(elem.body, Location(loc))
        case None => elem.body;
    Styled(linked, Custom(false))
  }

  /** A concrete destination is attached without consulting the lookup. */
  lemma ShowDestIgnoresLookup(d: Destination, body: Content, a: Option<Location>, b: Option<Location>)
    ensures Show(LinkElem(Dest(d), body), a) == Show(LinkElem(Dest(d), body), b)
  {
  }

  /** A label that resolves displays exactly like a link to the location
      the label resolved to. */
  lemma ShowFoundLabelIsLocationLink(l: Label, body: Content, loc: Location, any: Option<Location>)
    ensures Show(LinkElem(LinkTarget.Label(l), body), Some(loc)) == Show(LinkElem(Dest(Location(loc)), body), any)
  {
  }

  /** A bare URL link displays its URL's text linked to the URL. */
  lemma ShowBareUrl(url: string, lookup: Option<Location>)
    ensures Show(FromUrl(url), lookup) == Styled(Linked(Text(StripSchemes(url)), Url(url)), Custom(false))
  {
  }
}
