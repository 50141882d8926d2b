/** The catalogue of highlight.js themes offered by the code-block panel (src/styles.tsx). */
module Themes {
  import opened Results

  /** The thirteen stylesheet files the catalogue imports. */
  datatype Sheet =
    | Github | AndroidStudio | ArduinoLight | Atom | AtomLight | GithubDark | IntellijLight
    | Base16Darcula | Base16DarkViolet | Base16EdgeDark | Base16EdgeLight
    | PandaSyntaxDark | PandaSyntaxLight

  /** The raw text of each imported stylesheet; the CSS itself is not modelled. */
  type Stylesheets = Sheet -> string

  /** An entry as the literal array declares it, before it is numbered. */
  datatype Declared = Declared(name: string, sheet: Sheet)

  /** A catalogue entry (`label` in the source, a reserved word in Dafny, is `name` here). */
  datatype Style = Style(name: string, style: string, value: int)

  /** The literal array, in declaration order. */
  const Declarations: seq<Declared> := [
    Declared("Github", Github),
    Declared("Github Dark", GithubDark),
    Declared("Android Studio", AndroidStudio),
    Declared("Arduinno Light", ArduinoLight),
    Declared("Atom", Atom),
    Declared("Atom Light", AtomLight),
    Declared("Intellij Light", IntellijLight),
    Declared("Base16 Darcula", Base16Darcula),
    Declared("Base16 Dark Violet", Base16DarkViolet),
    Declared("Base16 Edge Dark", Base16EdgeDark),
    Declared("Base16 Edge Light", Base16EdgeLight),
    Declared("Panda Syntax Dark", PandaSyntaxDark),
    Declared("Panda Syntax Light", PandaSyntaxLight)
  ]

  const CatalogueSize: nat := 13

  /** `fixType`: `toString` of the imported text, which is already a string. */
  function FixType(css: string): string { css }

  /** The `map` callback applied to the declarations from position `from` on. */
  function Numbered(css: Stylesheets, ds: seq<Declared>, from: int): (r: seq<Style>)
    ensures |r| == |ds|
    ensures forall i :: 0 <= i < |ds| ==>
      r[i].name == ds[i].name && r[i].style == css(ds[i].sheet) && r[i].value == from + i
  {
    if ds == [] then []
    else [Style(ds[0].name, FixType(css(ds[0].sheet)), from)] + Numbered(css, ds[1..], from + 1)
  }

  /** `Styles`: every declared entry, numbered by its position. */
  function Styles(css: Stylesheets): (r: seq<Style>)
    ensures |r| == CatalogueSize
  {
    var ds := Declarations;
    assert |ds| == CatalogueSize;
    Numbered(css, ds, 0)
  }

  /** Entry `i` of the catalogue keeps its declared label, carries its own stylesheet, and has value `i`. */
  lemma CatalogueEntries(css: Stylesheets, i: int)
    requires 0 <= i < CatalogueSize
    ensures Styles(css)[i] == Style(Declarations[i].name, css(Declarations[i].sheet), i)
  {
    var ds := Declarations;
    assert |ds| == CatalogueSize;
    var r := Numbered(css, ds, 0);
    assert r[i].name == ds[i].name && r[i].style == css(ds[i].sheet) && r[i].value == i;
  }

  /** `getStyle`: the stylesheet of entry `index`; an index outside the catalogue throws. */
  function GetStyle(css: Stylesheets, index: int): (r: Result<string>)
    ensures r.Ok? <==> 0 <= index < CatalogueSize
    ensures r.Ok? ==> r.value == css(Declarations[index].sheet) && Styles(css)[index].style == r.value
    ensures r.Err? ==> r.error == ThemeIndexOutOfRange(index)
  {
    var styles := Styles(css);
    if 0 <= index < |styles| then Ok(styles[index].style) else Err(ThemeIndexOutOfRange(index))
  }

  /** Every imported stylesheet is offered exactly once. */
  lemma {:induction false} EverySheetOfferedOnce(s: Sheet)
    ensures exists i :: 0 <= i < CatalogueSize && Declarations[i].sheet == s
    ensures forall i, j ::
      0 <= i < CatalogueSize && 0 <= j < CatalogueSize && Declarations[i].sheet == s && Declarations[j].sheet == s
      ==> i == j
  {
    match s
    case Github => assert Declarations[0].sheet == s;
    case GithubDark => assert Declarations[1].sheet == s;
    case AndroidStudio => assert Declarations[2].sheet == s;
    case ArduinoLight => assert Declarations[3].sheet == s;
    case Atom => assert Declarations[4].sheet == s;
    case AtomLight => assert Declarations[5].sheet == s;
    case IntellijLight => assert Declarations[6].sheet == s;
    case Base16Darcula => assert Declarations[7].sheet == s;
    case Base16DarkViolet => assert Declarations[8].sheet == s;
    case Base16EdgeDark => assert Declarations[9].sheet == s;
    case Base16EdgeLight => assert Declarations[10].sheet == s;
    case PandaSyntaxDark => assert Declarations[11].sheet == s;
    case PandaSyntaxLight => assert Declarations[12].sheet == s;
  }

  /** With distinct stylesheet texts, a lookup never yields another theme's stylesheet. */
  lemma LookupIsInjective(css: Stylesheets, i: int, j: int)
    requires forall s, t :: s != t ==> css(s) != css(t)
    requires GetStyle(css, i).Ok? && GetStyle(css, j).Ok?
    requires GetStyle(css, i) == GetStyle(css, j)
    ensures i == j
  {
    EverySheetOfferedOnce(Declarations[i].sheet);
  }
}
