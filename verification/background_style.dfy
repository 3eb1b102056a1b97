/**
 * The background style resolver: `hexToRgba` and `generateBackgroundStyle`
 * of components/background-customizer.tsx. A solid background becomes one
 * `rgba(...)` colour; a gradient becomes a `linear-gradient`,
 * `radial-gradient` or `conic-gradient` whose colour stops are listed in
 * ascending position order (a stable sort).
 */
module BackgroundStyle {
  import opened ChatTypes
  import opened Text

  // ---------------------------------------------------------------------
  // #RRGGBB colours
  // ---------------------------------------------------------------------

  predicate IsHexDigit(c: char) {
    ('0' <= c <= '9') || ('a' <= c <= 'f') || ('A' <= c <= 'F')
  }

  /** The value `parseInt(_, 16)` gives a single hex digit, in either case. */
  function HexDigitValue(c: char): (v: nat)
    requires IsHexDigit(c)
    ensures v < 16
  {
    if '0' <= c <= '9' then (c as int) - ('0' as int)
    else if 'a' <= c <= 'f' then (c as int) - ('a' as int) + 10
    else (c as int) - ('A' as int) + 10
  }

  /** `#` followed by six hex digits: the hex notation of CSS Color Module Level 4, section 5.2. */
  predicate WellFormedHex(h: string) {
    |h| == 7 && h[0] == '#' && forall k :: 1 <= k < 7 ==> IsHexDigit(h[k])
  }

  /** `parseInt(h.slice(at, at + 2), 16)`: one colour channel. */
  function Channel(h: string, at: nat): (v: nat)
    requires WellFormedHex(h)
    requires at == 1 || at == 3 || at == 5
    ensures v <= 255
  {
    16 * HexDigitValue(h[at]) + HexDigitValue(h[at + 1])
  }

  /** An opacity printed the way JavaScript prints the number `tenths / 10`. */
  function OpacityText(o: Opacity): string {
    NatToString(o.tenths / 10) +
    (if o.tenths % 10 == 0 then "" else "." + [DigitChar(o.tenths % 10)])
  }

  /** A CSS function call `head` + `args` + `)` starts with `head` and ends with the parenthesis. */
  lemma Wrapped(head: string, args: string)
    ensures var call := head + args + ")";
      StartsWith(call, head) && call[|call| - 1] == ')'
  {
    var call := head + args + ")";
    assert call[..|head|] == head;
  }

  /** `hexToRgba(hex, opacity)` for a well-formed `#RRGGBB` colour. */
  function HexToRgba(hex: string, opacity: Opacity): (r: string)
    requires WellFormedHex(hex)
    ensures StartsWith(r, "rgba(") && |r| > 0 && r[|r| - 1] == ')'
  {
    var args := NatToString(Channel(hex, 1)) + ", " + NatToString(Channel(hex, 3)) + ", " +
      NatToString(Channel(hex, 5)) + ", " + OpacityText(opacity);
    Wrapped("rgba(", args);
    "rgba(" + args + ")"
  }

  /** The lower-case hex digit of `d`, as a colour picker writes it. */
  function HexDigitChar(d: nat): (c: char)
    requires d < 16
    ensures IsHexDigit(c) && HexDigitValue(c) == d
  {
    if d < 10 then (('0' as int) + d) as char else (('a' as int) + d - 10) as char
  }

  /** The `#rrggbb` text of a colour given by its three channels. */
  function ColorHex(r: nat, g: nat, b: nat): (h: string)
    requires r < 256 && g < 256 && b < 256
  {
    "#" + [HexDigitChar(r / 16), HexDigitChar(r % 16)] + [HexDigitChar(g / 16), HexDigitChar(g % 16)] +
    [HexDigitChar(b / 16), HexDigitChar(b % 16)]
  }

  /**
   * Writing a colour as `#rrggbb` and reading it back with `hexToRgba`
   * recovers the three channels exactly.
   */
  lemma ColorHexRoundTrip(r: nat, g: nat, b: nat, o: Opacity)
    requires r < 256 && g < 256 && b < 256
    ensures WellFormedHex(ColorHex(r, g, b))
    ensures Channel(ColorHex(r, g, b), 1) == r
    ensures Channel(ColorHex(r, g, b), 3) == g
    ensures Channel(ColorHex(r, g, b), 5) == b
    ensures HexToRgba(ColorHex(r, g, b), o) ==
      "rgba(" + NatToString(r) + ", " + NatToString(g) + ", " + NatToString(b) + ", " + OpacityText(o) + ")"
  {
    var h := ColorHex(r, g, b);
    assert h[1] == HexDigitChar(r / 16) && h[2] == HexDigitChar(r % 16);
    assert h[3] == HexDigitChar(g / 16) && h[4] == HexDigitChar(g % 16);
    assert h[5] == HexDigitChar(b / 16) && h[6] == HexDigitChar(b % 16);
  }

  // ---------------------------------------------------------------------
  // The stable sort by position (`.sort((a, b) => a.position - b.position)`)
  // ---------------------------------------------------------------------

  /** Each stop's position is at most the next one's. */
  predicate SortedByPosition(s: seq<ColorStop>) {
    forall i :: 0 <= i < |s| - 1 ==> s[i].position <= s[i + 1].position
  }

  /** Inserts `x` in front of the first stop whose position is not below its own. */
  function Insert(x: ColorStop, t: seq<ColorStop>): (r: seq<ColorStop>)
    ensures |r| == |t| + 1
    ensures multiset(r) == multiset(t) + multiset{x}
    ensures r[0] == x || (t != [] && r[0] == t[0])
    ensures SortedByPosition(t) ==> SortedByPosition(r)
    decreases |t|
  {
    if t == [] || x.position <= t[0].position then [x] + t
    else
      assert t == [t[0]] + t[1..];
      [t[0]] + Insert(x, t[1..])
  }

  /** The stops ordered by ascending position; a permutation of the input. */
  function SortStops(s: seq<ColorStop>): (r: seq<ColorStop>)
    ensures |r| == |s|
    ensures multiset(r) == multiset(s)
    ensures SortedByPosition(r)
  {
    if s == [] then []
    else
      assert s == [s[0]] + s[1..];
      Insert(s[0], SortStops(s[1..]))
  }

  /** One step of the sort: the head is inserted into the sorted tail. */
  lemma SortCons(s: seq<ColorStop>)
    requires s != []
    ensures SortStops(s) == Insert(s[0], SortStops(s[1..]))
  {
  }

  /** A stop not above the head goes in front. */
  lemma InsertAtHead(x: ColorStop, t: seq<ColorStop>)
    requires t == [] || x.position <= t[0].position
    ensures Insert(x, t) == [x] + t
  {
  }

  /** A stop above the head goes into the tail. */
  lemma InsertAfterHead(x: ColorStop, t: seq<ColorStop>)
    requires t != [] && x.position > t[0].position
    ensures Insert(x, t) == [t[0]] + Insert(x, t[1..])
  {
  }

  /** The stops of `s` at position `p`, in their order in `s`. */
  function OfPosition(s: seq<ColorStop>, p: int): seq<ColorStop> {
    if s == [] then []
    else (if s[0].position == p then [s[0]] else []) + OfPosition(s[1..], p)
  }

  lemma {:induction false} InsertKeepsRuns(x: ColorStop, t: seq<ColorStop>, p: int)
    ensures OfPosition(Insert(x, t), p) == (if x.position == p then [x] else []) + OfPosition(t, p)
    decreases |t|
  {
    if t == [] || x.position <= t[0].position {
      assert ([x] + t)[1..] == t;
    } else {
      var rest := Insert(x, t[1..]);
      InsertKeepsRuns(x, t[1..], p);
      assert Insert(x, t) == [t[0]] + rest;
      assert ([t[0]] + rest)[1..] == rest;
      assert OfPosition(Insert(x, t), p) == (if t[0].position == p then [t[0]] else []) + OfPosition(rest, p);
      assert OfPosition(t, p) == (if t[0].position == p then [t[0]] else []) + OfPosition(t[1..], p);
      assert x.position != p || t[0].position != p;
    }
  }

  /**
   * The sort is stable: the stops sharing any one position keep their
   * relative order.
   */
  lemma {:induction false} SortKeepsRuns(s: seq<ColorStop>, p: int)
    ensures OfPosition(SortStops(s), p) == OfPosition(s, p)
  {
    if s != [] {
      SortKeepsRuns(s[1..], p);
      InsertKeepsRuns(s[0], SortStops(s[1..]), p);
    }
  }

  /** Sorting stops that are already in order changes nothing. */
  lemma {:induction false} SortOfSorted(s: seq<ColorStop>)
    requires SortedByPosition(s)
    ensures SortStops(s) == s
  {
    if s != [] {
      SortOfSorted(s[1..]);
      assert s == [s[0]] + s[1..];
    }
  }

  lemma RunOfHead(s: seq<ColorStop>)
    requires s != []
    ensures OfPosition(s, s[0].position) != []
  {
  }

  lemma {:induction false} RunAtOrAboveHead(s: seq<ColorStop>, p: int)
    requires SortedByPosition(s) && s != []
    requires OfPosition(s, p) != []
    ensures s[0].position <= p
  {
    if s[0].position != p {
      RunAtOrAboveHead(s[1..], p);
    }
  }

  /** Two sorted sequences with the same runs start alike, and their tails have the same runs. */
  lemma HeadsAgree(a: seq<ColorStop>, b: seq<ColorStop>)
    requires SortedByPosition(a) && SortedByPosition(b) && a != [] && b != []
    requires forall p :: OfPosition(a, p) == OfPosition(b, p)
    ensures a[0] == b[0]
    ensures forall p :: OfPosition(a[1..], p) == OfPosition(b[1..], p)
  {
    RunOfHead(a);
    RunOfHead(b);
    RunAtOrAboveHead(b, a[0].position);
    RunAtOrAboveHead(a, b[0].position);
    var m := a[0].position;
    var runA, runB := OfPosition(a, m), OfPosition(b, m);
    assert runA == [a[0]] + OfPosition(a[1..], m);
    assert runB == [b[0]] + OfPosition(b[1..], m);
    assert OfPosition(a[1..], m) == runA[1..] == runB[1..] == OfPosition(b[1..], m);
    forall p ensures OfPosition(a[1..], p) == OfPosition(b[1..], p) {
      if p != m {
        assert OfPosition(a, p) == OfPosition(a[1..], p);
        assert OfPosition(b, p) == OfPosition(b[1..], p);
      }
    }
  }

  /** A sorted sequence of stops is determined by its runs of equal position. */
  lemma {:induction false} SortedUnique(a: seq<ColorStop>, b: seq<ColorStop>)
    requires SortedByPosition(a) && SortedByPosition(b)
    requires forall p :: OfPosition(a, p) == OfPosition(b, p)
    ensures a == b
    decreases |a|
  {
    if a == [] || b == [] {
      if a != [] {
        RunOfHead(a);
        assert false;
      }
      if b != [] {
        RunOfHead(b);
        assert false;
      }
    } else {
      HeadsAgree(a, b);
      SortedUnique(a[1..], b[1..]);
      assert a == [a[0]] + a[1..] && b == [b[0]] + b[1..];
    }
  }

  /**
   * The sorted order depends only on which stops sit at each position and in
   * what relative order: two inputs that agree on that sort alike, whatever
   * else their order.
   */
  lemma SortDependsOnlyOnRuns(s1: seq<ColorStop>, s2: seq<ColorStop>)
    requires forall p :: OfPosition(s1, p) == OfPosition(s2, p)
    ensures SortStops(s1) == SortStops(s2)
  {
    forall p ensures OfPosition(SortStops(s1), p) == OfPosition(SortStops(s2), p) {
      SortKeepsRuns(s1, p);
      SortKeepsRuns(s2, p);
    }
    SortedUnique(SortStops(s1), SortStops(s2));
  }

  // ---------------------------------------------------------------------
  // Rendering the stops and the whole background
  // ---------------------------------------------------------------------

  predicate ColorsWellFormed(stops: seq<ColorStop>) {
    forall c :: c in stops ==> WellFormedHex(c.color)
  }

  /** One rendered stop: `"rgba(r, g, b, o) p%"`. */
  function StopEntry(c: ColorStop): string
    requires WellFormedHex(c.color)
  {
    HexToRgba(c.color, c.opacity) + " " + IntToString(c.position) + "%"
  }

  /** `stops.map(StopEntry)`. */
  function Entries(stops: seq<ColorStop>): (r: seq<string>)
    requires ColorsWellFormed(stops)
    ensures |r| == |stops|
    ensures forall i :: 0 <= i < |stops| ==> r[i] == StopEntry(stops[i])
  {
    if stops == [] then [] else [StopEntry(stops[0])] + Entries(stops[1..])
  }

  /** `parts.join(sep)`. */
  function Join(parts: seq<string>, sep: string): string {
    if parts == [] then ""
    else if |parts| == 1 then parts[0]
    else parts[0] + sep + Join(parts[1..], sep)
  }

  lemma SortKeepsWellFormed(stops: seq<ColorStop>)
    requires ColorsWellFormed(stops)
    ensures ColorsWellFormed(SortStops(stops))
  {
    var sorted := SortStops(stops);
    forall c | c in sorted ensures WellFormedHex(c.color) {
      assert c in multiset(sorted);
    }
  }

  /** The comma-separated stop list of a gradient, in ascending position order. */
  function ColorList(stops: seq<ColorStop>): (r: string)
    requires ColorsWellFormed(stops)
    ensures stops == [] ==> r == ""
    ensures |stops| == 1 ==> r == StopEntry(stops[0])
  {
    SortKeepsWellFormed(stops);
    Join(Entries(SortStops(stops)), ", ")
  }

  /**
   * The colour list renders the stops in the one stable ascending order:
   * whatever sorted arrangement `t` keeps the stops of every position in
   * their input order, the list is the entries of `t`, joined.
   */
  lemma ColorListIsStableOrder(stops: seq<ColorStop>, t: seq<ColorStop>)
    requires ColorsWellFormed(stops) && ColorsWellFormed(t) && SortedByPosition(t)
    requires forall p :: OfPosition(t, p) == OfPosition(stops, p)
    ensures ColorList(stops) == Join(Entries(t), ", ")
  {
    forall p ensures OfPosition(SortStops(stops), p) == OfPosition(t, p) {
      SortKeepsRuns(stops, p);
    }
    SortedUnique(SortStops(stops), t);
  }

  /** What `generateBackgroundStyle` needs to avoid `NaN`: the colours in effect are `#RRGGBB`. */
  predicate Renderable(bg: BackgroundSettings) {
    match bg.kind
    case Solid => WellFormedHex(bg.solidColor)
    case Gradient => ColorsWellFormed(bg.gradientColors)
  }

  /** The CSS `background` value `generateBackgroundStyle(bg)` produces. */
  function GenerateBackgroundStyle(bg: BackgroundSettings): (r: string)
    requires Renderable(bg)
    ensures |r| > 0 && r[|r| - 1] == ')'
    ensures bg.kind == Solid ==> StartsWith(r, "rgba(")
    ensures bg.kind == Gradient && bg.gradientType == Linear ==> StartsWith(r, "linear-gradient(")
    ensures bg.kind == Gradient && bg.gradientType == Radial ==> StartsWith(r, "radial-gradient(circle, ")
    ensures bg.kind == Gradient && bg.gradientType == Conic ==> StartsWith(r, "conic-gradient(")
  {
    match bg.kind
    case Solid => HexToRgba(bg.solidColor, bg.solidOpacity)
    case Gradient =>
      var colors := ColorList(bg.gradientColors);
      match bg.gradientType
      case Linear =>
        Wrapped("linear-gradient(", bg.gradientDirection + ", " + colors);
        "linear-gradient(" + (bg.gradientDirection + ", " + colors) + ")"
      case Radial =>
        Wrapped("radial-gradient(circle, ", colors);
        "radial-gradient(circle, " + colors + ")"
      case Conic =>
        Wrapped("conic-gradient(", colors);
        "conic-gradient(" + colors + ")"
  }

  /** The settings as `generateBackgroundStyle` leaves them: a gradient's stop array is sorted in place. */
  function SortedInPlace(bg: BackgroundSettings): (r: BackgroundSettings)
    ensures r.(gradientColors := bg.gradientColors) == bg
    ensures multiset(r.gradientColors) == multiset(bg.gradientColors)
    ensures bg.kind == Gradient ==> SortedByPosition(r.gradientColors)
  {
    if bg.kind == Gradient then bg.(gradientColors := SortStops(bg.gradientColors)) else bg
  }

  /**
   * After the in-place sort the stops are sorted, a second sort changes
   * nothing, and rendering the sorted settings again gives the same style.
   */
  lemma StyleIdempotent(bg: BackgroundSettings)
    requires Renderable(bg)
    ensures SortedInPlace(SortedInPlace(bg)) == SortedInPlace(bg)
    ensures Renderable(SortedInPlace(bg))
    ensures GenerateBackgroundStyle(SortedInPlace(bg)) == GenerateBackgroundStyle(bg)
  {
    if bg.kind == Gradient {
      var stops := bg.gradientColors;
      SortKeepsWellFormed(stops);
      SortOfSorted(SortStops(stops));
      assert ColorList(SortStops(stops)) == ColorList(stops);
    }
  }

  /** A solid background is one `rgba` colour and ignores every gradient field. */
  lemma SolidIgnoresGradient(bg: BackgroundSettings, kind: GradientType, direction: string, stops: seq<ColorStop>)
    requires bg.kind == Solid && Renderable(bg)
    ensures GenerateBackgroundStyle(bg) == HexToRgba(bg.solidColor, bg.solidOpacity)
    ensures GenerateBackgroundStyle(bg.(gradientType := kind, gradientDirection := direction, gradientColors := stops))
         == GenerateBackgroundStyle(bg)
  {
  }

  /**
   * A gradient ignores the solid fields; only a linear gradient reads the
   * direction (radial always uses `circle`, conic uses none).
   */
  lemma GradientWrapper(bg: BackgroundSettings, color: string, opacity: Opacity, direction: string)
    requires bg.kind == Gradient && Renderable(bg)
    ensures GenerateBackgroundStyle(bg.(solidColor := color, solidOpacity := opacity)) == GenerateBackgroundStyle(bg)
    ensures bg.gradientType != Linear ==>
      GenerateBackgroundStyle(bg.(gradientDirection := direction)) == GenerateBackgroundStyle(bg)
    ensures bg.gradientType == Linear ==>
      GenerateBackgroundStyle(bg) == "linear-gradient(" + bg.gradientDirection + ", " + ColorList(bg.gradientColors) + ")"
    ensures bg.gradientType == Radial ==>
      GenerateBackgroundStyle(bg) == "radial-gradient(circle, " + ColorList(bg.gradientColors) + ")"
    ensures bg.gradientType == Conic ==>
      GenerateBackgroundStyle(bg) == "conic-gradient(" + ColorList(bg.gradientColors) + ")"
  {
  }

  /**
   * Reordering the stops without changing the relative order of stops at a
   * shared position leaves the rendered background unchanged.
   */
  lemma StyleIgnoresStopOrder(bg: BackgroundSettings, stops: seq<ColorStop>)
    requires bg.kind == Gradient && Renderable(bg)
    requires ColorsWellFormed(stops)
    requires forall p :: OfPosition(stops, p) == OfPosition(bg.gradientColors, p)
    ensures GenerateBackgroundStyle(bg.(gradientColors := stops)) == GenerateBackgroundStyle(bg)
  {
    SortDependsOnlyOnRuns(stops, bg.gradientColors);
  }

  /** A stop lying between the two stops of a pair is inserted between them. */
  lemma InsertBetween(a: ColorStop, b: ColorStop, c: ColorStop)
    requires a.position < b.position <= c.position
    ensures Insert(b, [a, c]) == [a, b, c]
  {
    var ac := [a, c];
    assert ac[0] == a && ac[1..] == [c];
    InsertAfterHead(b, ac);
    InsertAtHead(b, [c]);
    assert [a] + ([b] + [c]) == [a, b, c];
  }

  /** A first stop that belongs between the two sorted stops after it moves there. */
  lemma SortHeadBetween(a: ColorStop, b: ColorStop, c: ColorStop)
    requires a.position < b.position <= c.position
    ensures SortStops([b, a, c]) == [a, b, c]
  {
    SortOfSorted([a, c]);
    assert [b, a, c][1..] == [a, c];
    SortCons([b, a, c]);
    InsertBetween(a, b, c);
  }

  /** Stops given at positions 50, 0, 100 are listed as 0, 50, 100, just as when given in order. */
  lemma ShuffledStopsSortAlike(a: ColorStop, b: ColorStop, c: ColorStop)
    requires a.position == 0 && b.position == 50 && c.position == 100
    ensures SortStops([b, a, c]) == [a, b, c]
    ensures SortStops([a, b, c]) == [a, b, c]
  {
    SortHeadBetween(a, b, c);
    SortOfSorted([a, b, c]);
  }
}
