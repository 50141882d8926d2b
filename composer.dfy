/**
 * The code-block panel of src/app.tsx: `generateImage`, `generateDataUrl`, the `render` callback
 * handed to the host, and the controller state written by `updateState`, `resetState` and the
 * element-change handler.
 */
module CodeComposer {
  import opened Results
  import Themes
  import Highlight
  import opened DomTree
  import Rasterizer

  /** The record the host stores for a placed code block. */
  datatype AppElementData = AppElementData(
    sourceText: string, currentStyleIndex: int, selectedLanguage: string, transparentBackground: bool)

  /** The panel's state: the element data and whether a placed element is being edited. */
  datatype UIState = UIState(
    elementSelected: bool,
    sourceText: string, currentStyleIndex: int, selectedLanguage: string, transparentBackground: bool)

  const InitialState: UIState := UIState(false, "", 0, Highlight.AutoDetect, false)

  /** The element data part of a state. */
  function Data(s: UIState): AppElementData
  {
    AppElementData(s.sourceText, s.currentStyleIndex, s.selectedLanguage, s.transparentBackground)
  }

  /** A `Partial<UIState>`: the fields an update sets. */
  datatype Changes = Changes(
    elementSelected: Option<bool>,
    sourceText: Option<string>, currentStyleIndex: Option<int>,
    selectedLanguage: Option<string>, transparentBackground: Option<bool>)

  const NoChanges: Changes := Changes(None, None, None, None, None)

  function Pick<T>(change: Option<T>, current: T): T
  {
    match change
    case Some(v) => v
    case None => current
  }

  /** `{ ...state, ...stateChanges }`. */
  function Merge(s: UIState, c: Changes): UIState
  {
    UIState(
      Pick(c.elementSelected, s.elementSelected),
      Pick(c.sourceText, s.sourceText),
      Pick(c.currentStyleIndex, s.currentStyleIndex),
      Pick(c.selectedLanguage, s.selectedLanguage),
      Pick(c.transparentBackground, s.transparentBackground))
  }

  /** `{ ...element.data, elementSelected: true }`. */
  function Loaded(d: AppElementData): Changes
  {
    Changes(Some(true), Some(d.sourceText), Some(d.currentStyleIndex), Some(d.selectedLanguage), Some(d.transparentBackground))
  }

  /** The render root after layout, and the computed background colour of its `code.hljs` element. */
  type RenderRoot = n: Node | n.Element? witness Element(ComputedStyle("", ""), Rect(0.0, 0.0, 0.0, 0.0), [])

  datatype Measured = Measured(root: RenderRoot, codeBackground: string)

  /**
   * What the panel takes from the browser and from highlight.js, none of which is modelled:
   * `layout` attaches the stylesheet and the markup (as `div > pre > code.hljs`) and measures the
   * result; `toDataUrl` encodes a painted canvas.
   */
  datatype Environment = Environment(
    highlighter: Highlight.Highlighter,
    stylesheets: Themes.Stylesheets,
    layout: (string, string) -> Measured,
    devicePixelRatio: real,
    toDataUrl: Rasterizer.Canvas -> string)

  /** The image a code block is drawn as, with its logical size. */
  datatype Image = Image(dataUrl: string, width: real, height: real)

  /** The background `generateDataUrl` paints: transparent on request, else the code element's. */
  function BackgroundColor(m: Measured, transparentBackground: bool): (c: string)
    ensures transparentBackground ==> c == "transparent"
    ensures !transparentBackground ==> c == m.codeBackground
  {
    if transparentBackground then "transparent" else m.codeBackground
  }

  /** `generateDataUrl`: lay out the highlighted code with the stylesheet and rasterize it. */
  function GenerateDataUrl(env: Environment, highlightedCode: string, styleSheet: string, transparentBackground: bool): (r: Result<Image>)
    ensures var m := env.layout(highlightedCode, styleSheet);
      (r.Ok? <==> AllParented(LeavesOf(m.root.children))) &&
      (r.Err? ==> r.error == TextNodeWithoutParent)
    ensures var m := env.layout(highlightedCode, styleSheet);
      r.Ok? ==> (RenderDetails(m.root).Ok? &&
                 var g := Rasterizer.Layout(Rasterizer.BoundsOf(RenderDetails(m.root).value));
                 r.value.width == g.width && r.value.height == g.height)
  {
    var m := env.layout(highlightedCode, styleSheet);
    match Rasterizer.Rasterize(m.root, BackgroundColor(m, transparentBackground), env.devicePixelRatio)
    case Err(e) => Err(e)
    case Ok(canvas) => Ok(Image(env.toDataUrl(canvas), canvas.width, canvas.height))
  }

  /**
   * `generateImage`: look the theme up, highlight the code, rasterize. A bad theme index fails
   * first, then an unknown grammar; past those the only failure is a text node without a parent.
   */
  function GenerateImage(env: Environment, data: AppElementData): (r: Result<Image>)
    ensures !(0 <= data.currentStyleIndex < Themes.CatalogueSize) ==>
      r == Err(ThemeIndexOutOfRange(data.currentStyleIndex))
    ensures (0 <= data.currentStyleIndex < Themes.CatalogueSize && data.selectedLanguage != Highlight.AutoDetect &&
             env.highlighter.named(data.sourceText, data.selectedLanguage).None?)
      ==> r == Err(UnknownLanguage(data.selectedLanguage))
  {
    match Themes.GetStyle(env.stylesheets, data.currentStyleIndex)
    case Err(e) => Err(e)
    case Ok(styleSheet) =>
      match Highlight.GenerateCode(env.highlighter, data.sourceText, data.selectedLanguage)
      case Err(e) => Err(e)
      case Ok(highlightedCode) => GenerateDataUrl(env, highlightedCode, styleSheet, data.transparentBackground)
  }

  /**
   * Past a valid theme index and a known grammar, image generation fails only on a text node
   * without a parent element, and then exactly when the laid-out fragment has one.
   */
  lemma LateFailureIsParentlessText(env: Environment, data: AppElementData)
    requires 0 <= data.currentStyleIndex < Themes.CatalogueSize
    requires Highlight.Markup(env.highlighter, data.sourceText, data.selectedLanguage).Some?
    ensures var code := Highlight.GenerateCode(env.highlighter, data.sourceText, data.selectedLanguage).value;
      var m := env.layout(code, Themes.GetStyle(env.stylesheets, data.currentStyleIndex).value);
      (GenerateImage(env, data).Err? <==> !AllParented(LeavesOf(m.root.children))) &&
      (GenerateImage(env, data).Err? ==> GenerateImage(env, data).error == TextNodeWithoutParent)
  {
    var style := Themes.GetStyle(env.stylesheets, data.currentStyleIndex);
    var code := Highlight.GenerateCode(env.highlighter, data.sourceText, data.selectedLanguage);
    assert style.Ok? && code.Ok?;
    var m := env.layout(code.value, style.value);
    RenderDetailsSpec(m.root);
    assert GenerateImage(env, data) == GenerateDataUrl(env, code.value, style.value, data.transparentBackground);
  }

  /** `generateImage`, running the imperative painter. */
  method RenderImage(env: Environment, data: AppElementData) returns (r: Result<Image>)
    ensures r == GenerateImage(env, data)
  {
    var style := Themes.GetStyle(env.stylesheets, data.currentStyleIndex);
    if style.Err? {
      return Err(style.error);
    }
    var code := Highlight.GenerateCode(env.highlighter, data.sourceText, data.selectedLanguage);
    if code.Err? {
      return Err(code.error);
    }
    var m := env.layout(code.value, style.value);
    var canvas := Rasterizer.RenderDomToCanvas(m.root, BackgroundColor(m, data.transparentBackground), env.devicePixelRatio);
    if canvas.Err? {
      return Err(canvas.error);
    }
    r := Ok(Image(env.toDataUrl(canvas.value), canvas.value.width, canvas.value.height));
  }

  /** The background of a generated image is transparent exactly when the flag asks for it. */
  lemma BackgroundFollowsFlag(env: Environment, highlightedCode: string, styleSheet: string, transparentBackground: bool)
    requires ! (env.layout(highlightedCode, styleSheet).codeBackground == "transparent")
    ensures var m := env.layout(highlightedCode, styleSheet);
      var c := Rasterizer.Rasterize(m.root, BackgroundColor(m, transparentBackground), env.devicePixelRatio);
      c.Ok? ==> (c.value.commands[0].FillRect? &&
                 (c.value.commands[0].color == "transparent" <==> transparentBackground))
  {
    var m := env.layout(highlightedCode, styleSheet);
    var c := Rasterizer.Rasterize(m.root, BackgroundColor(m, transparentBackground), env.devicePixelRatio);
    if c.Ok? {
      Rasterizer.PaintSequence(RenderDetails(m.root).value, BackgroundColor(m, transparentBackground), env.devicePixelRatio);
    }
  }

  /**
   * The add button is enabled whatever the text, so `render` can run on empty source text. Under
   * "Auto Detect", when highlighting yields no markup and the layout yields no text node, no run
   * is found and the image is as wide and as tall as the padding minus `MAX_SAFE_INTEGER`.
   */
  lemma EmptyTextRenderHasNegativeWidth(env: Environment, data: AppElementData)
    requires data.sourceText == "" && data.selectedLanguage == Highlight.AutoDetect
    requires 0 <= data.currentStyleIndex < Themes.CatalogueSize
    requires env.highlighter.auto("") == ""
    requires LeavesOf(env.layout("", env.stylesheets(Themes.Declarations[data.currentStyleIndex].sheet)).root.children) == []
    ensures Render(env, data).Ok? && |Render(env, data).value| == 1
    ensures Render(env, data).value[0].width == 60.0 - Rasterizer.MaxSafeInteger < 0.0
    ensures Render(env, data).value[0].height == 60.0 - Rasterizer.MaxSafeInteger
  {
    var style := Themes.GetStyle(env.stylesheets, data.currentStyleIndex);
    assert Highlight.GenerateCode(env.highlighter, data.sourceText, data.selectedLanguage) == Ok("");
    EmptyLayoutImage(env, style.value, data.transparentBackground);
    assert GenerateImage(env, data) == GenerateDataUrl(env, "", style.value, data.transparentBackground);
  }

  /** A layout without text nodes gives the image of the empty bounds. */
  lemma EmptyLayoutImage(env: Environment, styleSheet: string, transparentBackground: bool)
    requires LeavesOf(env.layout("", styleSheet).root.children) == []
    ensures GenerateDataUrl(env, "", styleSheet, transparentBackground).Ok?
    ensures GenerateDataUrl(env, "", styleSheet, transparentBackground).value.width == 60.0 - Rasterizer.MaxSafeInteger
    ensures GenerateDataUrl(env, "", styleSheet, transparentBackground).value.height == 60.0 - Rasterizer.MaxSafeInteger
  {
    var m := env.layout("", styleSheet);
    var bg := BackgroundColor(m, transparentBackground);
    RenderDetailsSpec(m.root);
    assert RenderDetails(m.root) == Ok([]);
    Rasterizer.EmptyRunsCanvas(bg, env.devicePixelRatio);
  }

  /** A drawable the host places: always an image, here. */
  datatype Primitive = ImagePrimitive(dataUrl: string, top: real, left: real, width: real, height: real)

  /** The `render` callback: one image at the element's origin, regenerated from the data. */
  function Render(env: Environment, data: AppElementData): (r: Result<seq<Primitive>>)
    ensures r.Ok? <==> GenerateImage(env, data).Ok?
    ensures r.Err? ==> r.error == GenerateImage(env, data).error
    ensures r.Ok? ==> var image := GenerateImage(env, data).value;
      |r.value| == 1 && r.value[0].top == 0.0 && r.value[0].left == 0.0 &&
      r.value[0].dataUrl == image.dataUrl && r.value[0].width == image.width && r.value[0].height == image.height
  {
    match GenerateImage(env, data)
    case Err(e) => Err(e)
    case Ok(image) => Ok([ImagePrimitive(image.dataUrl, 0.0, 0.0, image.width, image.height)])
  }

  /**
   * The preview `updateState` shows for a merged state: cleared when the source text is empty,
   * else the data URL of the generated image.
   */
  function Preview(env: Environment, s: UIState): (r: Result<Option<string>>)
    ensures r == Ok(None) <==> s.sourceText == ""
    ensures s.sourceText != "" ==>
      (r.Ok? <==> GenerateImage(env, Data(s)).Ok?) &&
      (r.Ok? ==> r.value == Some(GenerateImage(env, Data(s)).value.dataUrl)) &&
      (r.Err? ==> r.error == GenerateImage(env, Data(s)).error)
  {
    if s.sourceText == "" then Ok(None)
    else match GenerateImage(env, Data(s))
      case Err(e) => Err(e)
      case Ok(image) => Ok(Some(image.dataUrl))
  }

  /** No image is generated for empty source text: the preview does not depend on the environment. */
  lemma EmptyTextSkipsRasterizing(env1: Environment, env2: Environment, s: UIState)
    requires s.sourceText == ""
    ensures Preview(env1, s) == Preview(env2, s) == Ok(None)
  {
  }

  /** `resetState`'s new state: the initial state, keeping the theme and the transparency flag. */
  function Reset(s: UIState): UIState
  {
    UIState(InitialState.elementSelected, InitialState.sourceText,
      s.currentStyleIndex, InitialState.selectedLanguage, s.transparentBackground)
  }

  /**
   * Resetting restores the initial state but for theme and transparency; two states reset alike
   * exactly when they share those two; resetting twice is resetting once.
   */
  lemma ResetKeepsThemeAndTransparency(s: UIState, t: UIState)
    ensures Reset(s) == InitialState.(currentStyleIndex := s.currentStyleIndex, transparentBackground := s.transparentBackground)
    ensures Reset(s) == Reset(t) <==>
      s.currentStyleIndex == t.currentStyleIndex && s.transparentBackground == t.transparentBackground
    ensures Reset(Reset(s)) == Reset(s)
    ensures Reset(s).sourceText == "" && !Reset(s).elementSelected
  {
  }

  /**
   * Loading an element overwrites every field, so the state the handler's stale closure merges
   * into does not matter, and the element data comes back unchanged.
   */
  lemma LoadedOverwritesEverything(s: UIState, t: UIState, d: AppElementData)
    ensures Merge(s, Loaded(d)) == Merge(t, Loaded(d))
    ensures Data(Merge(s, Loaded(d))) == d && Merge(s, Loaded(d)).elementSelected
  {
  }

  /** Each form control's `onChange` sets its own field and leaves the others as they are. */
  lemma FieldEditsChangeOneField(s: UIState, text: string, language: string, index: int, transparent: bool)
    ensures Merge(s, NoChanges.(sourceText := Some(text))) == s.(sourceText := text)
    ensures Merge(s, NoChanges.(selectedLanguage := Some(language))) == s.(selectedLanguage := language)
    ensures Merge(s, NoChanges.(currentStyleIndex := Some(index))) == s.(currentStyleIndex := index)
    ensures Merge(s, NoChanges.(transparentBackground := Some(transparent))) == s.(transparentBackground := transparent)
  {
  }

  /** The changes `formatCode` hands to `updateState`: the current source text, as it is. */
  function FormatChanges(s: UIState): Changes
  {
    NoChanges.(sourceText := Some(s.sourceText))
  }

  /** Re-submitting the current text merges back to the current state. */
  lemma FormatKeepsState(s: UIState)
    ensures Merge(s, FormatChanges(s)) == s
  {
  }

  /** The panel: its state and its preview image (`undefined` when cleared). */
  class Composer {
    const env: Environment
    var state: UIState
    var previewUrl: Option<string>

    constructor (env: Environment)
      ensures this.env == env && state == InitialState && previewUrl == None
    {
      this.env := env;
      state := InitialState;
      previewUrl := None;
    }

    /** The body of `updateState`, merging into `base`; a throwing `generateImage` changes nothing. */
    method Apply(base: UIState, stateChanges: Changes) returns (failure: Option<Error>)
      modifies this
      ensures match Preview(env, Merge(base, stateChanges))
        case Ok(p) => failure == None && previewUrl == p && state == Merge(base, stateChanges)
        case Err(e) => failure == Some(e) && previewUrl == old(previewUrl) && state == old(state)
    {
      var newState := Merge(base, stateChanges);
      if newState.sourceText == "" {
        previewUrl := None;
      } else {
        var image := RenderImage(env, Data(newState));
        assert Preview(env, newState) == if image.Err? then Err(image.error) else Ok(Some(image.value.dataUrl));
        if image.Err? {
          return Some(image.error);
        }
        previewUrl := Some(image.value.dataUrl);
      }
      state := newState;
      failure := None;
    }

    /** `updateState`: merge the changes into the current state and refresh the preview. */
    method UpdateState(stateChanges: Changes) returns (failure: Option<Error>)
      modifies this
      ensures match Preview(env, Merge(old(state), stateChanges))
        case Ok(p) => failure == None && previewUrl == p && state == Merge(old(state), stateChanges)
        case Err(e) => failure == Some(e) && previewUrl == old(previewUrl) && state == old(state)
    {
      failure := Apply(state, stateChanges);
    }

    /** `formatCode`: `updateState` with the current text, which keeps the state and regenerates the preview. */
    method FormatCode() returns (failure: Option<Error>)
      modifies this
      ensures state == old(state)
      ensures match Preview(env, old(state))
        case Ok(p) => failure == None && previewUrl == p
        case Err(e) => failure == Some(e) && previewUrl == old(previewUrl)
    {
      FormatKeepsState(state);
      failure := UpdateState(FormatChanges(state));
    }

    /** `resetState`: clear the preview and restore the initial state but for theme and transparency. */
    method ResetState()
      modifies this
      ensures previewUrl == None && state == Reset(old(state))
    {
      previewUrl := None;
      state := Reset(state);
    }

    /**
     * The element-change handler. It was registered once, so its `updateState` merges into the
     * initial state; loading overwrites every field, so the effect is that of merging into the
     * current one. Without an element it resets.
     */
    method OnElementChange(element: Option<AppElementData>) returns (failure: Option<Error>)
      modifies this
      ensures element.None? ==> failure == None && previewUrl == None && state == Reset(old(state))
      ensures element.Some? ==> match Preview(env, Merge(old(state), Loaded(element.value)))
        case Ok(p) => failure == None && previewUrl == p && state == Merge(old(state), Loaded(element.value))
        case Err(e) => failure == Some(e) && previewUrl == old(previewUrl) && state == old(state)
    {
      if element.Some? {
        LoadedOverwritesEverything(InitialState, state, element.value);
        failure := Apply(InitialState, Loaded(element.value));
      } else {
        ResetState();
        failure := None;
      }
    }
  }
}
