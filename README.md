# Code-block and image panels: a verified model

This project models, in Dafny, the sequential core of two design-tool plugin panels:

- **The code-block panel** (`src/app.tsx`). It highlights source text with highlight.js and wraps every newline of the markup in its own span. It then lays the markup out off-screen and measures every text run. It paints the runs onto a canvas scaled by the device pixel ratio and hands the resulting image to the host. Its controller keeps the edited state and a preview image.
- **The theme catalogue** (`src/styles.tsx`). It holds thirteen highlight.js stylesheets, each numbered by its position.
- **The image-picker panel** (`examples/app_image_elements/app.tsx`). It lets the user pick one of three bundled pictures and set its size and rotation. It renders the choice as one image primitive.

The browser is abstracted away. The laid-out DOM fragment is a tree (`DomTree.Node`) whose text nodes carry their measured rectangle and their parent's computed font and colour. Painting is the list of calls made on the 2D context (`Rasterizer.Command`). highlight.js, the stylesheet texts, the layout pass, `toDataURL` and the image assets are function-typed or string fields of an environment value. The model never looks inside them.

Modules, one per source unit:

- `Results` holds `Option`, `Result` and the exceptions the code can raise.
- `Themes` models `src/styles.tsx`.
- `Highlight` models `generateCode`.
- `DomTree` models run extraction: `getElementDetails`, `onlyHasTextChild` and `getNodeDetails`.
- `Rasterizer` models `findBounds` (a loop) and `renderDomToCanvas` (an imperative paint loop over a `Context` class).
- `CodeComposer` models `generateImage`, `generateDataUrl`, the `render` callback and the controller class `Composer`.
- `ImagePicker` models the image panel's state updates, its items, its `disabled` rule and its `render` callback.

Behaviour of the code that the model keeps:

- **Margins.** Each run is drawn at `left - minX + 40`, and the canvas is the extent plus 60. So 40 units come before the content and 20 after it, on each axis (`Rasterizer.PaintGeometry`, `Rasterizer.RunsInsideCanvas`).
- **Single-text-child elements.** `onlyHasTextChild` tests the element's own node type, so it never holds of an element. Only text nodes yield runs (`DomTree.OnlyHasTextChild`, `DomTree.OnlyTextRuns`).
- **Parentless text nodes.** The tree type admits a text node without a parent element, and extraction then throws as `getNodeDetails` does. A fragment the browser builds never has one, because each text node's parent is the element holding it (`DomTree.Consistent`). So that throw is defensive only (`Rasterizer.ConsistentRootRasterizes`).
- **The auto-detect sentinel** is the string `"Auto Detect"`.
- **Bad theme index.** An index outside the catalogue throws, because it reads `.style` of `undefined` (`Themes.GetStyle`).
- **Background colour** is the computed background of the `code.hljs` element (`CodeComposer.BackgroundColor`).
- **Empty input.** With no runs, `findBounds` returns its initial values and the canvas width is `60 - MAX_SAFE_INTEGER`, which is negative (`Rasterizer.EmptyRunsCanvas`). The preview path skips empty text (`CodeComposer.Preview`). The `render` callback does not: the add button is enabled whatever the text, so `render` can rasterize empty text. With "Auto Detect" and a layout that yields no text, the image primitive then has width `60 - MAX_SAFE_INTEGER` (`CodeComposer.EmptyTextRenderHasNegativeWidth`).

One consequence of the code is stated as a lemma rather than as a finding, because the intent is unclear. The background fill is `fillRect(0, 0, canvas.width, canvas.height)`, issued after `scale(ratio, ratio)`. So it spans the backing store times the ratio. It covers the whole backing store exactly when the ratio is at least 1 (`Rasterizer.BackgroundCoverage`).

## Model

| member | source | states |
|---|---|---|
| `Themes.FixType` | src/styles.tsx:28-30 | `fixType` hands the stylesheet text on as it is; the catalogue built from it is stated by `Themes.CatalogueEntries` |
| `Themes.Numbered` | src/styles.tsx:46 | the `map` keeps each entry's label and stylesheet and numbers it by its position |
| `Themes.Styles` | src/styles.tsx:32-46 | the catalogue has exactly 13 entries |
| `Themes.CatalogueEntries` | src/styles.tsx:32-46 | entry `i` has the `i`-th declared label, the stylesheet imported for it, and `value == i` |
| `Themes.EverySheetOfferedOnce` | src/styles.tsx:1-45 | each of the 13 imported stylesheets appears in exactly one catalogue position |
| `Themes.GetStyle` | src/styles.tsx:48-50 | succeeds exactly for `0 <= index < 13`, returning entry `index`'s stylesheet; any other index throws |
| `Themes.LookupIsInjective` | src/styles.tsx:48-50 | given distinct stylesheet texts, two indices that look up the same stylesheet are equal, so a lookup never yields another theme |
| `Highlight.WrapNewlines` | src/app.tsx:226 | the `replace(/\n/g, ...)`; its length, its newline count and its inverse are stated by `Highlight.WrapLength`, `Highlight.WrapKeepsNewlines` and `Highlight.UnwrapWrap` |
| `Highlight.Markup` | src/app.tsx:222-225 | `highlightAuto` under `"Auto Detect"`, else the named grammar, absent when unknown; `Highlight.GenerateCode` states when it succeeds |
| `Highlight.WrapLength` | src/app.tsx:226 | wrapping adds 13 characters per newline |
| `Highlight.WrapKeepsNewlines` | src/app.tsx:226 | wrapping keeps the number of newlines |
| `Highlight.WrapIsIdentityIffNoNewline` | src/app.tsx:226 | wrapping leaves the markup unchanged if and only if it has no newline |
| `Highlight.UnwrapWrap` | src/app.tsx:226 | reading every `<span>\n</span>` back as a newline restores the markup, so wrapping loses nothing |
| `Highlight.GenerateCode` | src/app.tsx:222-227 | with `"Auto Detect"` it always succeeds on the auto-detected markup; otherwise it succeeds if and only if the named grammar exists, and fails with that language otherwise; the result unwraps to the chosen markup and has its newline count and 13 more characters per newline |
| `DomTree.NodeDetails` | src/app.tsx:363-376 | a text node with a parent element yields exactly one run, its expected run (content, box, and the parent's font and colour, type `text`); one without a parent throws |
| `DomTree.ElementDetails` | src/app.tsx:334-350 | an element's runs, including the single-run branch for `onlyHasTextChild`; `DomTree.ElementRunsAreChildRuns` states that this branch is never taken |
| `DomTree.ElementRunsAreChildRuns` | src/app.tsx:334-341 | an element's runs are always the `flatMap` over its child nodes |
| `DomTree.Details` | src/app.tsx:336-340 | the `flatMap` callback; `DomTree.DetailsExtracts` states that it yields one run per text node below the node, in document order |
| `DomTree.FlatMapDetails` | src/app.tsx:336-340 | the `flatMap` over child nodes, where the first exception propagates; `DomTree.FlatMapExtracts` states what it yields |
| `DomTree.RenderDetails` | src/app.tsx:267-271 | the runs of the render root's child nodes; `DomTree.RenderDetailsSpec` states what they are |
| `DomTree.ConsistentLeavesParented` | src/app.tsx:363-366 | below the children of an element in such a fragment every text node has a parent element, so `getNodeDetails` never throws there |
| `DomTree.OnlyHasTextChild` | src/app.tsx:352-361 | holds only of a text node, so never of the element it is called on |
| `DomTree.DetailsExtracts` | src/app.tsx:334-376 | the runs of a node are one run per text node below it, in depth-first left-to-right order, with the text, range box and parent's font and colour; it fails exactly when some text node has no parent element |
| `DomTree.FlatMapExtracts` | src/app.tsx:336-340 | the `flatMap` over child nodes concatenates their runs in order and fails when any child fails |
| `DomTree.RenderDetailsSpec` | src/app.tsx:267-271 | the runs of the render root are those of its text nodes, in order; a parentless text node makes extraction throw rather than be skipped |
| `DomTree.OnlyTextRuns` | src/app.tsx:334-361 | every extracted run comes from a text node (`type 'text'`); no element yields a run of its own |
| `DomTree.ChildlessElementHasNoRuns` | src/app.tsx:334-341 | an element with no child nodes contributes no runs |
| `Rasterizer.Widen` | src/app.tsx:316-329 | one loop step: each minimum becomes the lesser of itself and the box edge, each maximum the greater, and each takes one of those two values |
| `Rasterizer.BoundsOf` | src/app.tsx:310-332 | the bounds after the loop has seen a prefix of the runs; `Rasterizer.BoundsAreExtremes` states what they are |
| `Rasterizer.FindBounds` | src/app.tsx:310-332 | the loop's four accumulators end as `BoundsOf` of the runs |
| `Rasterizer.BoundsAreExtremes` | src/app.tsx:310-332 | minX is the least of MAX_SAFE_INTEGER and every left edge, maxX is the greatest of 0 and every right edge, and likewise for the tops and bottoms; each is either its initial value or attained by some run |
| `Rasterizer.Layout` | src/app.tsx:273-278 | the origin is the minimum less 20 on each axis, and the logical width and height are the extent plus 60 |
| `Rasterizer.DrawRun` | src/app.tsx:298-303 | the `fillText` of one run at `left - originX + 20`, `top - originY + 20`; `Rasterizer.RunsInsideCanvas` states that it lands inside the canvas |
| `Rasterizer.Paint` | src/app.tsx:273-304 | the painted canvas has the context scaled by the ratio and one call per run after the background fill, which is in the background colour |
| `Rasterizer.Rasterize` | src/app.tsx:260-308 | succeeds exactly when every text node of the root has a parent element, else throws that error; then it makes one call per text node plus the background fill |
| `Rasterizer.ConsistentRootRasterizes` | src/app.tsx:260-271 | on a fragment the browser builds, where each text node's parent style is its element's, rasterizing succeeds |
| `Rasterizer.PaintGeometry` | src/app.tsx:273-285 | the canvas is the extent plus 60 on each axis, its backing store is that size times the pixel ratio, and the context is scaled by the ratio |
| `Rasterizer.PaintSequence` | src/app.tsx:285-304 | the calls are one background fill over the backing store, then one `fillText` per run in extraction order, in that run's font and colour, at `left - minX + 40`, `top - minY + 40` |
| `Rasterizer.RunsInsideCanvas` | src/app.tsx:273-299 | with at least one run and well-formed boxes, every drawn box lies within [40, width - 20] horizontally and [40, height - 20] vertically, and the canvas is at least 60 by 60 |
| `Rasterizer.EmptyRunsCanvas` | src/app.tsx:273-287 | with no runs the canvas width and height are `60 - MAX_SAFE_INTEGER`, which is negative, and only the background is filled |
| `Rasterizer.BackgroundCoverage` | src/app.tsx:280-287 | for a canvas of positive size, the background fill covers the backing store if and only if the pixel ratio is at least 1 |
| `Rasterizer.RenderDomToCanvas` | src/app.tsx:260-308 | the imperative pipeline (extract, bound, size, scale, fill, then set font and fill style and draw each run) yields exactly `Rasterize` of the root |
| `Rasterizer.Context.constructor` | src/app.tsx:261-262 | a fresh 2D context has the canvas defaults, scale 1 and no calls made |
| `Rasterizer.Context.Scale` | src/app.tsx:285 | `scale` multiplies the context's scale and changes nothing else |
| `Rasterizer.Context.SetFont` | src/app.tsx:301 | setting the font changes only the font |
| `Rasterizer.Context.SetFillStyle` | src/app.tsx:286 | setting the fill style changes only the fill style |
| `Rasterizer.Context.FillRectangle` | src/app.tsx:287 | `fillRect` appends one fill in the current fill style |
| `Rasterizer.Context.FillTextAt` | src/app.tsx:303 | `fillText` appends one text draw in the current font and fill style |
| `CodeComposer.BackgroundColor` | src/app.tsx:250 | the background is `"transparent"` when the flag is set, else the code element's computed background |
| `CodeComposer.BackgroundFollowsFlag` | src/app.tsx:250 | unless the theme's own background is `"transparent"`, the painted background fill is transparent if and only if the flag is set |
| `CodeComposer.GenerateDataUrl` | src/app.tsx:229-258 | succeeds exactly when every laid-out text node has a parent element, else throws that error; the image has the logical size of the padded bounds of the runs |
| `CodeComposer.EmptyLayoutImage` | src/app.tsx:229-258 | a layout without text nodes gives an image of width and height `60 - MAX_SAFE_INTEGER` |
| `CodeComposer.GenerateImage` | src/app.tsx:215-220 | a theme index outside the catalogue fails first, with that index; with a valid index, a named grammar that does not exist fails next, with that language |
| `CodeComposer.LateFailureIsParentlessText` | src/app.tsx:215-220 | past a valid theme index and a known grammar, generation fails if and only if the laid-out fragment has a text node without a parent element, and then with that error |
| `CodeComposer.RenderImage` | src/app.tsx:215-258 | running the imperative painter gives exactly `GenerateImage` |
| `CodeComposer.Render` | src/app.tsx:43-60 | the render callback fails exactly when image generation fails; otherwise it returns one image primitive at top 0, left 0, with the generated data URL, width and height |
| `CodeComposer.EmptyTextRenderHasNegativeWidth` | src/app.tsx:43-59 | `render` on empty text under "Auto Detect", when the markup and the layout are empty, returns one image primitive of width and height `60 - MAX_SAFE_INTEGER`, which is negative |
| `CodeComposer.Preview` | src/app.tsx:78-82 | the preview is cleared if and only if the merged source text is empty; otherwise it is the generated image's data URL, or the generation error |
| `CodeComposer.EmptyTextSkipsRasterizing` | src/app.tsx:78-79 | for empty source text the preview is cleared whatever the environment, so nothing is rasterized |
| `CodeComposer.Reset` | src/app.tsx:89-93 | the state `resetState` sets; `CodeComposer.ResetKeepsThemeAndTransparency` states what it keeps and clears |
| `CodeComposer.ResetKeepsThemeAndTransparency` | src/app.tsx:87-94 | the reset state is the initial state (not selected, empty text, "Auto Detect") with the old theme index and transparency; two states reset to the same state if and only if they share those two; resetting is idempotent |
| `CodeComposer.Merge` | src/app.tsx:76 | `{ ...state, ...stateChanges }`; `CodeComposer.FieldEditsChangeOneField` states its effect for the four form controls' `onChange`, `CodeComposer.LoadedOverwritesEverything` for the element load, and `CodeComposer.FormatKeepsState` for `formatCode`, which nothing calls |
| `CodeComposer.FieldEditsChangeOneField` | src/app.tsx:125-163 | the code, language, theme and transparency controls each set their own field and leave every other field unchanged |
| `CodeComposer.Loaded` | src/app.tsx:105 | the changes an element load makes; `CodeComposer.LoadedOverwritesEverything` states that they set every field |
| `CodeComposer.LoadedOverwritesEverything` | src/app.tsx:102-106 | loading an element overwrites every field, so the stale state the handler merges into does not matter, and the stored data comes back unchanged with `elementSelected` set |
| `CodeComposer.FormatKeepsState` | src/app.tsx:96-100 | `formatCode`, which nothing calls, re-submits the current text, and merging it gives back the current state |
| `CodeComposer.Composer.constructor` | src/app.tsx:63-64 | the panel starts in the initial state with no preview |
| `CodeComposer.Composer.Apply` | src/app.tsx:75-85 | merges into the given base state; clears the preview for empty text, else regenerates it; if generation throws, nothing changes |
| `CodeComposer.Composer.UpdateState` | src/app.tsx:75-85 | `updateState`: the new state is the merge of the changes into the current one, with the preview as `Preview` gives it; a throwing generation leaves state and preview as they were |
| `CodeComposer.Composer.ResetState` | src/app.tsx:87-94 | clears the preview and restores the initial state, keeping theme index and transparency |
| `CodeComposer.Composer.FormatCode` | src/app.tsx:96-100 | `formatCode`, which nothing calls, keeps the state and sets the preview as `Preview` gives it for that state; a throwing generation leaves the preview as it was |
| `CodeComposer.Composer.OnElementChange` | src/app.tsx:102-110 | with an element it acts as `updateState` with the element's data and `elementSelected = true`; without one it resets |
| `ImagePicker.FindImage` | examples/app_image_elements/app.tsx:59 | the lookup succeeds exactly when some entry has the key, and returns that entry |
| `ImagePicker.Items` | examples/app_image_elements/app.tsx:71-87 | there is one item per image |
| `ImagePicker.ItemsAndSelection` | examples/app_image_elements/app.tsx:30-43 | the items are dog, cat, rabbit in order; an item is active if and only if its key is the selected image, so at most one is; clicking item `i` makes it the only active item and keeps width, height and rotation |
| `ImagePicker.SelectImage` | examples/app_image_elements/app.tsx:78-85 | clicking an item selects its key and keeps width, height and rotation |
| `ImagePicker.SetWidth` | examples/app_image_elements/app.tsx:138-145 | sets the width to the input, or 0 when the input is empty, and changes nothing else |
| `ImagePicker.SetHeight` | examples/app_image_elements/app.tsx:156-163 | sets the height to the input, or 0 when the input is empty, and changes nothing else |
| `ImagePicker.SetRotation` | examples/app_image_elements/app.tsx:175-182 | sets the rotation to the input, or 0 when the input is empty, and changes nothing else |
| `ImagePicker.UpdatersCommute` | examples/app_image_elements/app.tsx:138-183 | the three updaters commute, and for each of width, height and rotation a later update overrides an earlier one |
| `ImagePicker.OnElementChange` | examples/app_image_elements/app.tsx:89-93 | the new state is the element's data, or the initial state (dog, 400, 400, rotation 0) without an element |
| `ImagePicker.Trim` | examples/app_image_elements/app.tsx:69 | `trim()`: strip white space and line terminators from both ends; `ImagePicker.TrimEmptyIffAllWhiteSpace` states when nothing is left |
| `ImagePicker.TrimEmptyIffAllWhiteSpace` | examples/app_image_elements/app.tsx:69 | `trim()` leaves nothing if and only if every character is ECMAScript white space or a line terminator |
| `ImagePicker.Disabled` | examples/app_image_elements/app.tsx:69 | the `disabled` expression; `ImagePicker.DisabledIffBlank` states when it holds |
| `ImagePicker.DisabledIffBlank` | examples/app_image_elements/app.tsx:69 | the add button is disabled if and only if the image id is empty or all white space |
| `ImagePicker.Render` | examples/app_image_elements/app.tsx:53-62 | succeeds exactly for the ids dog, cat and rabbit; then it returns one image primitive at top 0, left 0, with that picture's URL and the data's width, height and rotation; any other id throws |

## Left out

- Browser DOM and canvas APIs are not modelled: element creation, attaching, `getComputedStyle`, `getBoundingClientRect`, `Range.selectNode` and `detach`, and `toDataURL`. The layout pass is an opaque function from markup and stylesheet to a measured tree and the code element's background. Painting is a list of calls, not pixels.
- The off-screen nodes' lifecycle is left out. The appended `<style>` element is never removed, and `renderRoot.remove()` runs only when rasterizing succeeds. The model claims no cleanup. Each `generateDataUrl` call adds one more `<style>` to the document head, so a later layout also sees every stylesheet used before. `layout` is given only the current stylesheet, so the modelled images are those of a fresh page.
- highlight.js is left out: tokenization, `highlightAuto` and `listLanguages`. The highlighter is a pair of opaque functions. A named grammar's absence is an absent result. The language list offered in the panel is UI and is not modelled.
- Floating point is left out. Coordinates and the pixel ratio are exact reals. The truncation when `canvas.width` and `canvas.height` are assigned is not modelled.
- The text baseline is left out. `fillText` uses the canvas default alphabetic baseline, so glyphs extend above the recorded y. The containment lemma speaks of the measured boxes moved to where they are drawn, not of glyph pixels.
- Runs do not carry the computed-style object (`styles`) that the source stores but never reads.
- React rendering and JSX are left out: the forms, `Sparkles`, `MagicLoading`, `DraggableImage` and its promise that never resolves, and the `formatting` flag of `formatCode`. `formatCode` is declared but nothing calls it. Its `updateState` call is modelled by `Composer.FormatCode`.
- Host SDK calls are left out: `initAppElement`, `addOrUpdateElement` and the `registerOnElementChange` wiring. Only the handler bodies and the `render` callbacks are modelled.
- Stylesheet contents and image assets are opaque strings.
- ImagePicker numbers are integers. `Number(value || 0)` on a non-numeric or NaN input is not modelled. `images[imageId]` on a key inherited from `Object.prototype` is not modelled.
- Rasterizer.Context.SetFont: stores any string. A real context ignores a font it cannot parse and keeps the previous one; that is not modelled.
- Rasterizer.Context.SetFillStyle: stores any string. A real context ignores a colour it cannot parse and keeps the previous one; that is not modelled.
- ImagePicker.Items: the `onClick` of each item is modelled separately as `SelectImage`, not as a field of the item.
- Themes.GetStyle: does not promise that the returned stylesheet text is non-empty, because the stylesheet contents are opaque.
