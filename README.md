# SeparateOut carousel studio, modelled in Dafny

SeparateOut makes LinkedIn carousel posts. This project models two parts of it.

The **draft studio** (root `App.tsx`, `services/geminiService.ts`, `components/Carousel.tsx`, `components/Infographic.tsx`) works like this:
- The user writes a topic and one to six insights.
- The Gemini model returns a post and one image prompt per carousel point.
- The studio requests an image for every point, and lets the user edit an image, page through the carousel, download the slides and zoom an image full screen.

The **carousel editor** (`ImageProcessor/`) works like this:
- Uploaded images become slides, and an analysis of each image suggests a text theme, an overlay text and a text zone.
- The user drags the four overlay elements of a slide (content text, the green pillar beside it, branding, navigation pill). The user also reorders, edits and re-themes slides.
- The editor exports one slide as a PNG, or every slide as a square PDF.

The model has one module per concern:

| file | module | models |
|---|---|---|
| text.dfy | `Text` | the JavaScript string operations the code relies on: `split`/`join` on one character, `includes`, `trim`, `toLowerCase` on ASCII, `||` on strings, numbers in template literals |
| carousel_types.dfy | `CarouselTypes` | `ImageProcessor/src/types.ts`: positions, slides, themes, the page label, the glyph and file names shared by the overlay and the exporter |
| drag_overlay.dfy | `DragOverlay` | `DraggableOverlay.tsx`: the drag state machine as a class `DragController` |
| canvas_export.dfy | `CanvasExport` | `canvasUtils.ts`: the greedy word wrap (a loop method proved against a recursive specification), the draw list of one slide, the PNG download and the PDF page loop |
| slide_board.dfy | `SlideBoard` | `ImageProcessor/src/App.tsx` and `Sidebar.tsx`: the slide list as a class `Board`, with map/filter/swap specifications |
| image_analysis.dfy | `ImageAnalysis` | how `analyzeImage` reads the model's reply: fence stripping, theme and zone normalisation, the fallbacks |
| draft_service.dfy | `DraftService` | `services/geminiService.ts`: the key check, the insight list in the prompt, grounding filter, point mapping, data URIs, prefix stripping |
| studio.dfy | `Studio` | root `App.tsx`: the studio's state as a class `Studio` |
| carousel_view.dfy | `CarouselView` | `Carousel.tsx`: the scroll index, the `**bold**` caption split, the footer, "download all" |
| infographic.dfy | `Infographic` | `Infographic.tsx`: the zoom viewer as a class `ZoomViewer`, and its zoom over any sequence of presses |

The outside world is passed in as parameters:
- Gemini's replies are values: `Reply`, `Response`, `Outcome`, image parts.
- `JSON.parse` (with `parseGeminiJson`'s extraction) is a function parameter `parse: string -> Option<...>`. `None` stands for a throw.
- `localStorage` is the `stored` key. `process.env` is `env`.
- Slide ids from `crypto.randomUUID` are arguments.
- The canvas is a `Canvas` value. It says whether a 2-D context exists, which image sources load, the width `measureText` gives a string, and whether `roundRect` exists.
- The pointer position, the measured content height and the scroll offset are numbers in real percentages or pixels.

Each asynchronous handler is split at its `await`. The part before the request is a method that returns the request it would send. The completion (`ImageReady`, `ImageFailed`, `DraftArrived`, `DraftFailed`, `Board.Apply`) is a separate method.

Some of the code's behaviour is easy to miss, and the model keeps it as written:
- A linked drag clamps only the dragged element. The partner's x is `x - offset` or `x + offset`, unclamped, so it can leave [0,100] (`DragOverlay.PartnerXIsNotClamped` gives such a drag).
- `base64Image.split(',')[1] || base64Image` keeps the field *between* the first and second comma, not everything after the first comma (`DraftService.StripPrefix`).
- `analyzeImage` catches every error itself and never rejects. The `catch` in `ImageProcessor/src/App.tsx:88-90` therefore only runs if that changes. It is still modelled (`SlideBoard.FailedAnalysisOnlyEndsWait`).
- The caption split uses `.*?`, which does not cross a line break. A "**" marker whose closing marker is on a later line stays plain text. A plain piece that itself starts and ends with "**" (for example "***", which has no closing marker) is still shown as `Strong(SliceInner(part))`, as `renderCaption` does. "****" is instead a captured run with nothing inside (`CarouselView.MarkerOnlyCaptions`).

## Model

| member | source | states |
|---|---|---|
| Text.OrElse | services/geminiService.ts:114-119 | `a \|\| fallback`: a nonempty string is kept; an absent or empty one gives the fallback |
| Text.ToLower | ImageProcessor/src/services/geminiService.ts:68-74 | same length; each character lowered; no upper-case ASCII letter remains |
| Text.TrimStart | ImageProcessor/src/services/geminiService.ts:62 | the result is a suffix of the input; everything dropped is JavaScript white space; the result does not start with white space |
| Text.TrimEnd | ImageProcessor/src/services/geminiService.ts:62 | the result is a prefix of the input; everything dropped is white space; the result does not end with white space |
| Text.Trim | App.tsx:109-110 | the trimmed string neither starts nor ends with white space, and is empty exactly when the input is all white space |
| Text.Split | ImageProcessor/src/utils/canvasUtils.ts:146 | a split always has at least one piece, and no piece holds the separator |
| Text.JoinSplit | ImageProcessor/src/utils/canvasUtils.ts:146 | joining the pieces of a split with the separator restores the string |
| Text.SplitJoin | services/geminiService.ts:45 | splitting a join of separator-free pieces returns the pieces |
| Text.SplitWithoutSeparator | services/geminiService.ts:147 | a string without the separator splits into itself alone |
| Text.SplitAroundSeparator | services/geminiService.ts:147 | splitting `a + sep + b` is splitting `a` followed by splitting `b` |
| Text.ConcatAppend | components/Carousel.tsx:69 | `join("")` distributes over concatenation of the piece lists |
| Text.NatToString | ImageProcessor/src/utils/canvasUtils.ts:86 | decimal digits only, at least one, reading back as `n` under the decimal decoder `DecimalValue`, no leading zero, two or more digits exactly from 10 on |
| Text.NatToStringInjective | ImageProcessor/src/utils/canvasUtils.ts:116 | different numbers print differently |
| CarouselTypes.With | ImageProcessor/src/components/DraggableOverlay.tsx:45-48 | the spread with one key replaced: that entry is the new value, every other entry is unchanged |
| CarouselTypes.PositionsHaveFourEntries | ImageProcessor/src/types.ts:20-25 | two position records that agree on content, branding, navigation and pillar are equal |
| CarouselTypes.CountLabelWords | components/Carousel.tsx:171 | "<shown> of <total>" splits on spaces into the two numbers around "of" |
| CarouselTypes.PageLabelWords | ImageProcessor/src/utils/canvasUtils.ts:86 | the page label's words are `index + 1`, "of" and `total` |
| CarouselTypes.CountLabel | components/Carousel.tsx:171 | the footer's "<shown> of <total>"; `CountLabelWords` states that its words give back both numbers |
| CarouselTypes.PageLabel | ImageProcessor/src/utils/canvasUtils.ts:86 | the exported label `${index + 1} of ${total}`; `PageLabelWords` states its words and `CarouselView.FooterCounter` that the footer shows the same text |
| CarouselTypes.NavGlyph | ImageProcessor/src/components/DraggableOverlay.tsx:173 | ✓ exactly on the last slide (`index == total - 1`), → on every other |
| CarouselTypes.SlideFileName | ImageProcessor/src/utils/canvasUtils.ts:116 | the name is "slide-", then the decimal `index + 1`, then ".png" |
| CarouselTypes.SlideFileNamesDiffer | components/Carousel.tsx:84 | two different indices never get the same file name |
| DragOverlay.ClampPercent | ImageProcessor/src/components/DraggableOverlay.tsx:42-43 | the result is in [0,100]; values inside are kept, values below become 0 and values above become 100 |
| DragOverlay.Moved | ImageProcessor/src/components/DraggableOverlay.tsx:45-67 | the dragged element gets the clamped pointer and keeps width/height; a content drag sets the pillar to the same y, `offset` to the left; a pillar drag sets the content to the same y, `offset` to the right; after either the pillar is aligned and `content.x - pillar.x == offset`; a branding or navigation drag, or any element not linked to the dragged one, is unchanged |
| DragOverlay.PartnerXIsNotClamped | ImageProcessor/src/components/DraggableOverlay.tsx:54-58 | a content drag to the left edge from the default layout puts the pillar's x at -4 |
| DragOverlay.PillarHeight | ImageProcessor/src/components/DraggableOverlay.tsx:106 | the measured content height when positive, the stored pillar height otherwise |
| DragOverlay.ShownContent | ImageProcessor/src/components/DraggableOverlay.tsx:145 | the slide's text; when it is empty, the hint while editing and nothing otherwise |
| DragOverlay.PillarShown | ImageProcessor/src/components/DraggableOverlay.tsx:114-116 | the live overlay draws the pillar only for a slide with text (the export draws it always; see `CanvasExport.ContentLayerShape`) |
| DragOverlay.TextClass | ImageProcessor/src/components/DraggableOverlay.tsx:23 | the overlay's text class; `CanvasExport.ThemeColorsMatchOverlay` proves it agrees with the exported colour |
| DragOverlay.SubTextClass | ImageProcessor/src/components/DraggableOverlay.tsx:24 | the overlay's label class; `CanvasExport.ThemeColorsMatchOverlay` proves it agrees with the exported label colour |
| DragOverlay.DragController.constructor | ImageProcessor/src/components/DraggableOverlay.tsx:17-21 | no drag, offset 0, content height 0 |
| DragOverlay.DragController.MouseDown | ImageProcessor/src/components/DraggableOverlay.tsx:85-103 | outside edit mode nothing changes; otherwise the element becomes the active drag, and a content or pillar press records `content.x - pillar.x` as the offset, which locks the pair |
| DragOverlay.DragController.MouseMove | ImageProcessor/src/components/DraggableOverlay.tsx:36-70 | while idle the positions stay; during a drag they become `Moved(...)`; the dragged element lies in [0,100]; the content–pillar offset and alignment are preserved |
| DragOverlay.DragController.MouseUp | ImageProcessor/src/components/DraggableOverlay.tsx:72-74 | the drag ends |
| DragOverlay.DragController.MeasureContent | ImageProcessor/src/components/DraggableOverlay.tsx:26-33 | the measured height is stored |
| CanvasExport.PixelsKeepFraction | ImageProcessor/src/utils/canvasUtils.ts:35-37 | a pixel coordinate is the same fraction of 1080 as the percentage is of 100, and a percentage in [0,100] lands on the canvas |
| CanvasExport.PercentToPixels | ImageProcessor/src/utils/canvasUtils.ts:35-37 | `(p / 100) * 1080`, used alike for content, pillar (46-47), branding (68-69) and navigation (89-90); `PixelsKeepFraction` states what it means and `RenderedLayout` where each element lands |
| CanvasExport.GetWrappedTextLines | ImageProcessor/src/utils/canvasUtils.ts:145-162 | the loop returns exactly the lines of the recursive wrapper `Wrap` |
| CanvasExport.Wrap | ImageProcessor/src/utils/canvasUtils.ts:145-162 | the recursive wrapper the loop is proved against; `WrapLayout`, `WrapKeepsText` and `WrappedLinesFit` state what its lines are |
| CanvasExport.CloseLine | ImageProcessor/src/utils/canvasUtils.ts:153-155 | pushing the open line on a forced break extends a greedy layout by one line |
| CanvasExport.GrowLine | ImageProcessor/src/utils/canvasUtils.ts:156-158 | a word that fits keeps the open line within the width |
| CanvasExport.WrapFromLayout | ImageProcessor/src/utils/canvasUtils.ts:150-160 | the wrapper from word `n` on completes the greedy layout started by the first `n` words |
| CanvasExport.WrapLayout | ImageProcessor/src/utils/canvasUtils.ts:145-161 | the lines are a greedy layout of the words: the groups partition the words in order, each line is its group's words each followed by a space, each added word kept the line within the width, and each break was forced by the next word not fitting |
| CanvasExport.LineOfIsJoin | ImageProcessor/src/utils/canvasUtils.ts:151 | a line built word by word is the words joined by spaces plus one trailing space |
| CanvasExport.WrapKeepsText | ImageProcessor/src/utils/canvasUtils.ts:145-161 | the lines laid end to end are the text followed by one space: no word is lost, repeated or reordered |
| CanvasExport.WrappedLinesFit | ImageProcessor/src/utils/canvasUtils.ts:150-160 | every line is nonempty, and a line of two or more words is not wider than the bound |
| CanvasExport.WrapFromUnbounded | ImageProcessor/src/utils/canvasUtils.ts:150-159 | with a NaN bound no word ever breaks the line |
| CanvasExport.Exceeds | ImageProcessor/src/utils/canvasUtils.ts:153 | `metrics.width > maxWidth` with an absent width read as NaN, which nothing exceeds; `WrapFromUnbounded` and `WrapWithoutWidth` state the NaN case, `WrapLayout` the break rule it drives |
| CanvasExport.WrapWithoutWidth | ImageProcessor/src/utils/canvasUtils.ts:35-40 | a content block without a width draws its whole text as one line |
| CanvasExport.ThemeColorsMatchOverlay | ImageProcessor/src/utils/canvasUtils.ts:26-27 | the export's colours and the overlay's classes agree: white text for dark, black exactly for light, and the label grey is the overlay's `gray-300` or `gray-700` |
| CanvasExport.TextColor | ImageProcessor/src/utils/canvasUtils.ts:26 | the text colour of a theme; `ThemeColorsMatchOverlay` ties it to the theme and the overlay |
| CanvasExport.SubTextColor | ImageProcessor/src/utils/canvasUtils.ts:27 | the page label's colour; `ThemeColorsMatchOverlay` ties it to the overlay's label class |
| CanvasExport.MaxWidth | ImageProcessor/src/utils/canvasUtils.ts:35 | the wrap width exists exactly when the content width does and is its pixel value |
| CanvasExport.ExportText | ImageProcessor/src/utils/canvasUtils.ts:40 | never empty; a slide's own text is used when it has one |
| CanvasExport.TextRows | ImageProcessor/src/utils/canvasUtils.ts:52-58 | line k is drawn at `(x, y + 52k)` in the theme colour and content font, one row per line |
| CanvasExport.SlideRendering | ImageProcessor/src/utils/canvasUtils.ts:9-66 | no image exactly without a profile or a 2-D context; a rejection exactly when one of the two images fails to load |
| CanvasExport.ContentLayer | ImageProcessor/src/utils/canvasUtils.ts:24-58 | the content layer's commands; `ContentLayerShape` states each of them and `DrawContent` is proved to issue them |
| CanvasExport.BrandingLayer | ImageProcessor/src/utils/canvasUtils.ts:61-106 | the branding layer's commands; `BrandingLayerShape` states each of them and `DrawBranding` is proved to issue them |
| CanvasExport.RenderedLayout | ImageProcessor/src/utils/canvasUtils.ts:24-106 | a drawn slide has `n + 7` commands for `n` lines: the background, the pillar 12 wide and `52n + 10` high, the lines 52 apart, the avatar, the user name at `(bx + 100, by + 24)`, "<index + 1> of <total>" at `(bx + 100, by + 60)` in the sub-text colour, the pill, and the glyph at `(nx + 60, ny + 20)` |
| CanvasExport.BrandingLayerShape | ImageProcessor/src/utils/canvasUtils.ts:61-106 | the branding layer's five commands, with the pill's corner radius 40 only when `roundRect` exists |
| CanvasExport.ContentLayerShape | ImageProcessor/src/utils/canvasUtils.ts:24-58 | the content layer: background over the whole canvas, pillar, then one row per wrapped line |
| CanvasExport.PillarCoversText | ImageProcessor/src/utils/canvasUtils.ts:41-50 | the pillar is at least one line height plus 10 tall |
| CanvasExport.DrawContent | ImageProcessor/src/utils/canvasUtils.ts:24-58 | the `forEach` advancing `currentY` issues exactly the content layer |
| CanvasExport.RenderSlide | ImageProcessor/src/utils/canvasUtils.ts:9-109 | the step-by-step renderer gives exactly `SlideRendering` |
| CanvasExport.DrawBranding | ImageProcessor/src/utils/canvasUtils.ts:68-106 | the branding steps issue exactly the branding layer |
| CanvasExport.DownloadSlide | ImageProcessor/src/utils/canvasUtils.ts:111-119 | no download when rendering gives `null`, a rejection when it rejects, otherwise the image saved as "slide-<index + 1>.png" |
| CanvasExport.PageOf | ImageProcessor/src/utils/canvasUtils.ts:135-139 | a page carries the slide's image exactly when rendering drew one, and stays blank otherwise |
| CanvasExport.DownloadAllAsPdf | ImageProcessor/src/utils/canvasUtils.ts:121-143 | nothing without a profile or slides; a rejected image aborts the export; otherwise "carousel.pdf" with one page per slide, in slide order, page i from slide i |
| CarouselView.Round | components/Carousel.tsx:59 | `Math.round`: the integer within half of x, halves rounding up |
| CarouselView.ClampIndex | components/Carousel.tsx:60 | with slides, an index into them, unchanged when already one; with none, -1 |
| CarouselView.ClampIdempotent | components/Carousel.tsx:60 | clamping twice is clamping once |
| CarouselView.NavigationAfterScroll | components/Carousel.tsx:132-140 | after a scroll, prev is disabled exactly at or before the first slide and next exactly at or past the last (both with one slide) |
| CarouselView.PrevDisabled | components/Carousel.tsx:132 | `activeIndex === 0`; `NavigationAfterScroll` states when it holds after a scroll |
| CarouselView.NextDisabled | components/Carousel.tsx:140 | `activeIndex === points.length - 1`; `NavigationAfterScroll` and `SingleSlideDisablesBoth` state when it holds |
| CarouselView.SingleSlideDisablesBoth | components/Carousel.tsx:132-140 | with one slide both buttons are disabled |
| CarouselView.FooterCounter | components/Carousel.tsx:171 | the counter's words are `activeIndex + 1`, "of" and the count; it equals the exported page label of that slide |
| CarouselView.FooterTitle | components/Carousel.tsx:168 | never empty; the first point's title when it has one |
| CarouselView.Preview.constructor | components/Carousel.tsx:45 | the index starts at 0 |
| CarouselView.Preview.HandleScroll | components/Carousel.tsx:56-62 | the index becomes the rounded scroll position clamped to the slides |
| CarouselView.Preview.Counter | components/Carousel.tsx:171 | the counter shows the page label of the active slide |
| CarouselView.CloseFrom | components/Carousel.tsx:69 | `.*?\*\*`: the first marker from `from` on with no line break before it, and none when there is none |
| CarouselView.MatchEnd | components/Carousel.tsx:69 | a match is at least four characters and ends inside the caption |
| CarouselView.FindBold | components/Carousel.tsx:69 | the leftmost match at or after `p`, and none exactly when there is none |
| CarouselView.Tokens | components/Carousel.tsx:69 | the caption split itself; `TokensConcat` (the pieces rebuild the caption) and `TokensAlternate` (captures at odd positions) characterise it |
| CarouselView.TokensConcat | components/Carousel.tsx:69 | the split's pieces put together are the caption again |
| CarouselView.MatchIsBold | components/Carousel.tsx:69 | a match is a marker, a single line without a marker, and the closing marker |
| CarouselView.TokensAlternate | components/Carousel.tsx:69 | the split has an odd number of pieces and every odd-numbered piece is a bold run |
| CarouselView.NoMarkerOnePiece | components/Carousel.tsx:69 | a caption without "**" is one plain piece |
| CarouselView.SliceInner | components/Carousel.tsx:73 | `slice(2, -2)`: two characters off each end, empty when fewer than four |
| CarouselView.RenderPart | components/Carousel.tsx:72-75 | bold exactly when the piece starts and ends with "**", with its inner slice; plain with the piece itself otherwise |
| CarouselView.RenderParts | components/Carousel.tsx:71-76 | one rendered piece per part, in order |
| CarouselView.RenderCaption | components/Carousel.tsx:65-77 | nothing exactly for an empty caption; otherwise the rendering of the split |
| CarouselView.CaptionBoldRuns | components/Carousel.tsx:69-73 | every odd-numbered piece is a bold run and is shown bold without its markers |
| CarouselView.MarkerOnlyCaptions | components/Carousel.tsx:69-75 | "****" splits into "", "****", "" and shows an empty bold run between two empty spans; "***" stays one piece and still shows as an empty bold run |
| CarouselView.ShownCaption | components/Carousel.tsx:124 | the caption when present and nonempty, the fallback text otherwise |
| CarouselView.DownloadLinks | components/Carousel.tsx:79-92 | at most one link per point |
| CarouselView.HasImage | components/Carousel.tsx:81 | the `point.imageUrl` test; `LinkSource` and `EveryImageDownloaded` state that exactly the points passing it get a link |
| CarouselView.LinkSource | components/Carousel.tsx:80-84 | every link is some point's image, named after that point's 1-based position |
| CarouselView.EveryImageDownloaded | components/Carousel.tsx:80-84 | every point with an image gets its link |
| CarouselView.DownloadNamesDistinct | components/Carousel.tsx:84 | no two links share a file name |
| CarouselView.DownloadAll | components/Carousel.tsx:79-92 | the `forEach` emits exactly `DownloadLinks` |
| ImageAnalysis.ResponseText | ImageProcessor/src/services/geminiService.ts:49-59 | the text method's or property's value; otherwise a nonempty text is the first part of the first candidate |
| ImageAnalysis.SkipNewline | ImageProcessor/src/services/geminiService.ts:62 | `\n?`: at most one leading line break is dropped |
| ImageAnalysis.RemoveAll | ImageProcessor/src/services/geminiService.ts:62 | a global `replace` never lengthens the text |
| ImageAnalysis.RemoveAllFences | ImageProcessor/src/services/geminiService.ts:62 | after removing "```" no three backticks remain in a row |
| ImageAnalysis.StrippedHasNoFence | ImageProcessor/src/services/geminiService.ts:62 | the cleaned reply holds no code fence |
| ImageAnalysis.RemoveAllWithoutBacktick | ImageProcessor/src/services/geminiService.ts:62 | text without backticks is left alone by either replace |
| ImageAnalysis.PlainReplyIsTrimmed | ImageProcessor/src/services/geminiService.ts:62 | a reply without backticks is only trimmed |
| ImageAnalysis.StripFences | ImageProcessor/src/services/geminiService.ts:62 | the cleaned reply; `StrippedHasNoFence` and `PlainReplyIsTrimmed` state what it is |
| ImageAnalysis.ToLowerIdempotent | ImageProcessor/src/services/geminiService.ts:68 | lowering twice is lowering once |
| ImageAnalysis.ThemeNamed | ImageProcessor/src/services/geminiService.ts:68 | light exactly when the lowered string is "light" or contains "black" |
| ImageAnalysis.ThemeIgnoresCase | ImageProcessor/src/services/geminiService.ts:68 | the theme read does not depend on case |
| ImageAnalysis.ZoneNamed | ImageProcessor/src/services/geminiService.ts:73-74 | top, center or bottom exactly when the lowered string is that word |
| ImageAnalysis.ThemeOf | ImageProcessor/src/services/geminiService.ts:67-70 | only a truthy non-string throws; light exactly for a nonempty string naming it |
| ImageAnalysis.ZoneOf | ImageProcessor/src/services/geminiService.ts:72-75 | only a truthy non-string throws; center or bottom exactly when the string names it, top otherwise |
| ImageAnalysis.Normalized | ImageProcessor/src/services/geminiService.ts:64-81 | an analysis exactly when the object is not `null` and neither field throws; theme, zone and content (`\|\| ""`) as read |
| ImageAnalysis.TextFallback | ImageProcessor/src/services/geminiService.ts:82-86 | no text, top zone, light exactly when the lowered text contains "light" or "black text" |
| ImageAnalysis.ReadContent | ImageProcessor/src/services/geminiService.ts:79 | a nonempty text came from the parsed object's `content` |
| ImageAnalysis.Reading | ImageProcessor/src/services/geminiService.ts:64-86 | the analysis a cleaned reply gives once parsed; `ReadTheme`, `ReadZone` and `ReadContent` state it |
| ImageAnalysis.AnalyzeText | ImageProcessor/src/services/geminiService.ts:60-86 | a reply's text cleaned and parsed; `ParsedTheme`, `ParsedZone` and `UnreadableReplyFallsBack` state what it gives |
| ImageAnalysis.AnalyzeImage | ImageProcessor/src/services/geminiService.ts:88-91 | a failed request gives dark, no text, top |
| ImageAnalysis.ReadTheme | ImageProcessor/src/services/geminiService.ts:67-70 | a readable object's theme is light exactly when it is a nonempty string that is "light" or mentions "black" |
| ImageAnalysis.ReadZone | ImageProcessor/src/services/geminiService.ts:72-75 | a readable object's zone is the one it names, top otherwise |
| ImageAnalysis.ParsedTheme | ImageProcessor/src/services/geminiService.ts:62-70 | the same for a whole reply whose cleaned text parses |
| ImageAnalysis.ParsedZone | ImageProcessor/src/services/geminiService.ts:62-75 | the same for the zone |
| ImageAnalysis.UnreadableReplyFallsBack | ImageProcessor/src/services/geminiService.ts:82-86 | unparsable text, or an object whose fields throw, gives no text, top, and light exactly when the cleaned text mentions "light" or "black text" |
| ImageAnalysis.ContentComesFromTheModel | ImageProcessor/src/services/geminiService.ts:49-91 | whatever happens, the text is empty or exactly the parsed reply's `content` |
| SlideBoard.DefaultsAreInsideAndAligned | ImageProcessor/src/App.tsx:10-15 | every default position is inside the slide, the pillar is on the text's line and 4 points to its left |
| SlideBoard.ZoneY | ImageProcessor/src/App.tsx:72-75 | a zone's line lies inside the slide |
| SlideBoard.ZonesAreOrdered | ImageProcessor/src/App.tsx:72-75 | top is above center, which is above bottom |
| SlideBoard.Placeholder | ImageProcessor/src/App.tsx:56-63 | the slide made for an upload; `Board.AddPlaceholder` appends it and keeps the board valid |
| SlideBoard.Merged | ImageProcessor/src/App.tsx:98-100 | for each of the six fields, a patch that holds it replaces the slide's value and a patch that lacks it keeps it |
| SlideBoard.MergeIdentityAndIdempotence | ImageProcessor/src/App.tsx:99 | an empty patch changes nothing; merging a patch twice is merging it once |
| SlideBoard.Edited | ImageProcessor/src/App.tsx:77-100 | one slide after an edit; `AnalysisMerge`, `FailedAnalysisOnlyEndsWait`, `ContentEditChangesOnlyText` and `ThemeButtonChangesOnlyTheme` state each kind |
| SlideBoard.AnalysisMerge | ImageProcessor/src/App.tsx:77-87 | theme and text from the analysis, status idle, content and pillar on the zone's line with every other field kept, branding and navigation unchanged |
| SlideBoard.FailedAnalysisOnlyEndsWait | ImageProcessor/src/App.tsx:88-90 | a failed analysis sets the status to idle and changes nothing else |
| SlideBoard.MapById | ImageProcessor/src/App.tsx:98-100 | the slides with the id are edited, every other slide is unchanged, the length is kept |
| SlideBoard.RemoveById | ImageProcessor/src/App.tsx:102-104 | a slide stays exactly when it was there and does not have the id |
| SlideBoard.RemoveByIdSplits | ImageProcessor/src/App.tsx:103 | the filter works piece by piece, so it keeps the order |
| SlideBoard.RemoveAbsentId | ImageProcessor/src/App.tsx:103 | removing an id no slide has changes nothing |
| SlideBoard.Swapped | ImageProcessor/src/App.tsx:109-111 | the two cells exchanged, all others kept, a permutation |
| SlideBoard.Moved | ImageProcessor/src/App.tsx:106-120 | a move is a permutation of the same length |
| SlideBoard.MoveUpThenDown | ImageProcessor/src/App.tsx:106-120 | moving a slide up and then back down restores the list |
| SlideBoard.MoveButtonsMatchMoves | ImageProcessor/src/components/Sidebar.tsx:76-85 | with distinct ids, a move button is disabled exactly where its move would change nothing |
| SlideBoard.UpDisabled | ImageProcessor/src/components/Sidebar.tsx:78 | `idx === 0`; `MoveButtonsMatchMoves` states that it holds exactly where moving up changes nothing |
| SlideBoard.DownDisabled | ImageProcessor/src/components/Sidebar.tsx:85 | `idx === slides.length - 1`; `MoveButtonsMatchMoves` states that it holds exactly where moving down changes nothing |
| SlideBoard.ToggledEditing | ImageProcessor/src/components/Sidebar.tsx:96 | editing this slide exactly when it was not the one being edited, none otherwise |
| SlideBoard.EditButtonLabel | ImageProcessor/src/components/Sidebar.tsx:99 | "FINISH EDIT" exactly while this slide is edited, "DRAG ELEMENTS" otherwise |
| SlideBoard.AtMostOneSlideEditing | ImageProcessor/src/components/Sidebar.tsx:96 | with distinct ids, at most one slide is in edit mode |
| SlideBoard.FlippedTheme | ImageProcessor/src/components/Sidebar.tsx:113 | the theme button always changes the theme |
| SlideBoard.FlipTwice | ImageProcessor/src/components/Sidebar.tsx:113 | pressing it twice restores the theme |
| SlideBoard.ThemeLabel | ImageProcessor/src/components/Sidebar.tsx:116 | "Black Text" exactly when the export draws black text, "White Text" exactly when it draws white |
| SlideBoard.PdfButtonShown | ImageProcessor/src/components/Sidebar.tsx:63 | the PDF button shows exactly when there is a slide |
| SlideBoard.ContentEditChangesOnlyText | ImageProcessor/src/components/Sidebar.tsx:107 | typing in the text box changes only the slide's content |
| SlideBoard.ContentPatch | ImageProcessor/src/components/Sidebar.tsx:107 | the text box's patch; `ContentEditChangesOnlyText` states its effect |
| SlideBoard.ThemePatch | ImageProcessor/src/components/Sidebar.tsx:113 | the theme button's patch; `ThemeButtonChangesOnlyTheme` states its effect |
| SlideBoard.ThemeButtonChangesOnlyTheme | ImageProcessor/src/components/Sidebar.tsx:113 | the theme button changes only the slide's theme, always to the other one, and a second press restores the slide |
| SlideBoard.Board.constructor | ImageProcessor/src/App.tsx:20-22 | no slides, nothing edited |
| SlideBoard.Board.AddPlaceholder | ImageProcessor/src/App.tsx:55-66 | the placeholder (empty, analysing, dark, default layout) is appended and ids stay distinct |
| SlideBoard.Board.Apply | ImageProcessor/src/App.tsx:77-100 | the list becomes `MapById`; the board stays valid under every edit its operations make |
| SlideBoard.Board.Remove | ImageProcessor/src/App.tsx:102-104 | the list becomes `RemoveById` and stays valid |
| SlideBoard.Board.Move | ImageProcessor/src/App.tsx:106-120 | the in-place swap on a copied array gives `Moved` and keeps the board valid |
| SlideBoard.Board.ToggleEditing | ImageProcessor/src/components/Sidebar.tsx:96 | the edited id becomes `ToggledEditing` |
| SlideBoard.RemovePreservesValid | ImageProcessor/src/App.tsx:102-104 | removal keeps ids distinct and no slide in the error state |
| SlideBoard.RemoveIsSubsequence | ImageProcessor/src/App.tsx:103 | two kept slides with the same id are the same cell |
| SlideBoard.MovePreservesValid | ImageProcessor/src/App.tsx:106-120 | a move keeps ids distinct and no slide in the error state |
| DraftService.GetAi | services/geminiService.ts:11-17 | a key exactly when the stored or environment key is nonempty; the stored key when it is nonempty, the environment key otherwise; else the "API Key not found" error |
| DraftService.InsightLines | services/geminiService.ts:45 | line i reads "Point <i + 1>: <text i>" |
| DraftService.InsightLine | services/geminiService.ts:45 | one "Point <i + 1>: <text>" line; `InsightLineBreaks` and `FormattedInsightsReadBack` state how it reads back |
| DraftService.InsightLineBreaks | services/geminiService.ts:45 | a numbered line holds a line break exactly when its text does |
| DraftService.FormattedInsightsReadBack | services/geminiService.ts:45 | single-line insights split back into exactly the numbered lines, each starting "Point <i + 1>: " |
| DraftService.FormatInsights | services/geminiService.ts:45 | the numbered insight list of the prompt; `FormattedInsightsReadBack` states that its lines are the numbered insights |
| DraftService.Grounded | services/geminiService.ts:103-111 | at most one result per chunk |
| DraftService.GroundedSplits | services/geminiService.ts:105-110 | the filter works piece by piece, so it keeps the order |
| DraftService.GroundedSources | services/geminiService.ts:105-110 | a result is exactly the source of a chunk with both a uri and a title |
| DraftService.Cited | services/geminiService.ts:107 | `chunk.web?.uri && chunk.web?.title`; `GroundedSources` states that exactly the chunks passing it give results |
| DraftService.SourceOf | services/geminiService.ts:108 | the pushed `{ title, url }`; `GroundedSources` states that every result is one |
| DraftService.SearchResults | services/geminiService.ts:103-111 | the `forEach` with `push` gives exactly `Grounded` |
| DraftService.MappedPoints | services/geminiService.ts:115-120 | one point per raw point |
| DraftService.MappedPoint | services/geminiService.ts:115-120 | the `map` callback; `MappedPointShape` states each field with its default |
| DraftService.MappedPointShape | services/geminiService.ts:115-120 | point i has id "p-<i>", the i-th insight or "", the model's nonempty title or "Insight <i + 1>", the model's nonempty prompt or "Professional visual for <topic>", so title and prompt are never empty; no image, not generating |
| DraftService.MappedIdsDistinct | services/geminiService.ts:116 | the mapped ids are distinct |
| DraftService.GenerateDraft | services/geminiService.ts:28-124 | a missing key fails with its message, a failed request with the request's message, an unparsable reply with the format error; a draft exactly when the key exists, the model answered and the reply parsed |
| DraftService.GeneratedDraftShape | services/geminiService.ts:101-123 | a draft's points are the returned points under `MappedPoints` (one each, distinct ids, a prompt on every one), its sources are the cited chunks, its post is the model's or "", and the search entry point's HTML is passed through |
| DraftService.DataUri | services/geminiService.ts:141 | the URI is the PNG data prefix followed by the data |
| DraftService.FirstInline | services/geminiService.ts:139 | the first part with inline data, and none exactly when no part has any |
| DraftService.ImageFrom | services/geminiService.ts:139-143 | a data URI exactly of the first inline part's nonempty data; otherwise the given error |
| DraftService.GeneratePointImage | services/geminiService.ts:126-144 | the missing key's error, the request's own error, a data URI exactly when the first inline part carries nonempty data (and then of that data), otherwise the safety-filter error |
| DraftService.StripPrefix | services/geminiService.ts:147 | the second comma field when there is one and it is nonempty, the whole string otherwise |
| DraftService.StripPrefixOfDataUri | services/geminiService.ts:147 | stripping a data URI built from comma-free data gives the data back |
| DraftService.StripPrefixWithoutComma | services/geminiService.ts:147 | a string without a comma is sent as it is |
| DraftService.EditPointImage | services/geminiService.ts:146-168 | the same outcomes as generating, with the edit's own error when no image comes back |
| DraftService.ImageCallsGiveDataUris | services/geminiService.ts:126-168 | both image calls return a data URI with data after the prefix, or fail; with no inline part they fail with their own messages |
| Studio.ClampCount | App.tsx:91 | the count in [1,6], kept inside, 1 below and 6 above |
| Studio.Resized | App.tsx:93-98 | length `n`, the old entries kept, new ones blank |
| Studio.ResizeRoundTrip | App.tsx:93-98 | growing and shrinking back restores the inputs |
| Studio.ActivePoints | App.tsx:109 | the kept insights are not blank |
| Studio.ActivePointsSplit | App.tsx:109 | the filter works piece by piece, so the insights keep their order |
| Studio.ActivePointsMembers | App.tsx:109 | an insight is sent exactly when it is an input and not blank |
| Studio.ActivePointsAllKept | App.tsx:109 | without blank inputs every input is sent |
| Studio.ActivePointsEmpty | App.tsx:110 | nothing is sent exactly when every input is blank |
| Studio.RequestFor | App.tsx:109-118 | no request exactly when the topic is blank or every insight is; otherwise topic, tone and the non-blank insights |
| Studio.ClassifyError | App.tsx:77-88 | a key problem exactly when the message contains "API Key not found" or "API_KEY_INVALID"; a billing problem exactly when it does not but contains "Requested entity was not found."; otherwise a nonempty text, the message itself when it is nonempty |
| Studio.MentionsKey | App.tsx:79 | the key test of `handleApiError`; `ClassifyError` and `MissingKeyIsKeyProblem` state its effect |
| Studio.MentionsBilling | App.tsx:83 | the billing test; `ClassifyError` states that it decides only when the key test fails |
| Studio.ErrorText | App.tsx:77-88 | the message each reaction shows; `Studio.HandleApiError` sets it |
| Studio.MissingKeyIsKeyProblem | App.tsx:79 | the missing-key error is recognised as a key problem |
| Studio.NoKeyReopensModal | App.tsx:79-82 | with no key at all, drafting fails and the key modal reopens |
| Studio.EditPoint | App.tsx:144-157 | a step keeps id, title, content and prompt; generating exactly on start; the image set only on success |
| Studio.UpdatePoints | App.tsx:142-158 | the points with the id take the step, the others are unchanged |
| Studio.OnDraft | App.tsx:142-145 | `null` stays `null`; a draft has its points updated |
| Studio.FindPoint | App.tsx:138 | a point with the id from the list, and none exactly when no point has it |
| Studio.FindFirst | App.tsx:138 | the point found is the first with the id |
| Studio.FindDistinct | App.tsx:138 | with distinct ids the point found is the one with the id |
| Studio.UpdateKeepsIds | App.tsx:144 | steps keep every id, so distinct ids stay distinct |
| Studio.UpdateOnlyTarget | App.tsx:144 | with distinct ids only the target point changes |
| Studio.GenerationLifecycle | App.tsx:142-158 | start marks only the target; success sets its image and clears the flag; failure clears the flag and keeps the image; other points never change |
| Studio.StartRequest | App.tsx:134-139 | the prompt a request for a point sends; `FreshPointStarts` and `Studio.StartImage` state when it exists |
| Studio.StartedPoints | App.tsx:125-127 | the points after the first `k` requests have the draft's length |
| Studio.StartedStep | App.tsx:125-127 | one more request marks its point when it has a prompt and sends that prompt; nothing happens otherwise |
| Studio.FreshPointStarts | App.tsx:134-139 | with distinct ids and prompts everywhere, point k's request starts with its own prompt |
| Studio.FreshStep | App.tsx:125-127 | in such a draft each request marks its point and appends its prompt |
| Studio.FreshDraftStartsEveryPoint | App.tsx:125-127 | a fresh draft ends with its first `k` points, and only those, marked generating |
| Studio.FreshDraftSendsEveryPrompt | App.tsx:125-127 | and sends the first `k` prompts in order |
| Studio.GeneratedDraftStartsEveryPoint | App.tsx:118-127 | every draft the generator returns has all of its points marked generating after the `forEach` |
| Studio.Studio.constructor | App.tsx:23-53 | the initial state; `hasApiKey` exactly when a nonempty key is stored |
| Studio.Studio.ClearKey | App.tsx:69-75 | the key is removed, `hasApiKey` cleared, the modal shown, the draft dropped, the stage back to input |
| Studio.Studio.HandleApiError | App.tsx:77-88 | the classified message is shown; a key problem also clears `hasApiKey` and opens the modal; other errors leave both |
| Studio.Studio.UpdateNumPoints | App.tsx:90-100 | the count is clamped and the inputs resized to it |
| Studio.Studio.PointChange | App.tsx:102-106 | exactly the entry at `index` is replaced |
| Studio.Studio.SetTopic | App.tsx:308-310 | the topic is set, and a shown error message is dismissed |
| Studio.Studio.DismissError | App.tsx:309 | `if (error) setError(null)`: a nonempty message is cleared, an absent or empty one kept, so no message is shown afterwards |
| Studio.Studio.InsightTyped | App.tsx:322-325 | exactly the typed entry is replaced, a shown error message is dismissed, and the count invariant is kept |
| Studio.Studio.BackToInput | App.tsx:364 | both back buttons (also 371) return to the input form, and nothing else changes |
| Studio.Studio.SetTone | App.tsx:339 | the tone is set |
| Studio.Studio.CreateDraft | App.tsx:108-116 | refused with the message and no request, or loading with the request `RequestFor` makes |
| Studio.Studio.DraftFailed | App.tsx:128-131 | the error is handled and loading ends |
| Studio.Studio.StartImage | App.tsx:134-145 | the prompt of the target point when it exists and has one, marking it generating and clearing the error; no change otherwise |
| Studio.Studio.DraftArrived | App.tsx:118-127 | the draft is shown in the editing stage with every point's request started |
| Studio.Studio.StartAllImages | App.tsx:125-127 | the `forEach` leaves the draft as `StartedPoints` and sends `StartedPrompts` |
| Studio.Studio.StartNext | App.tsx:126 | one call of the `forEach` advances the started prefix by one point |
| Studio.Studio.ImageReady | App.tsx:149-152 | the point gets its image and stops generating |
| Studio.Studio.ImageFailed | App.tsx:153-158 | the error is handled and the point stops generating |
| Studio.Studio.StartEdit | App.tsx:162-171 | the point's image exactly when the draft has the point and it has an image, marking it generating; no change otherwise |
| Infographic.ZoomedIn | components/Infographic.tsx:19 | `min(zoom + 0.5, 4)` |
| Infographic.ZoomedOut | components/Infographic.tsx:20 | `max(zoom - 0.5, 0.5)` |
| Infographic.ZoomStopsAtBounds | components/Infographic.tsx:19-20 | zooming in at 4x and out at 0.5x changes nothing |
| Infographic.ZoomInOutUndo | components/Infographic.tsx:19-20 | inside the bounds, zooming out undoes zooming in and the reverse |
| Infographic.ZoomAlwaysInRange | components/Infographic.tsx:17-26 | from 1x, after any presses, the zoom is a multiple of 0.5 in [0.5, 4] |
| Infographic.CloseForgetsZoom | components/Infographic.tsx:23-26 | after closing full screen the view is as if nothing had been pressed before |
| Infographic.ZoomPercent | components/Infographic.tsx:72 | the reset button shows the zoom times 100 |
| Infographic.Step | components/Infographic.tsx:17-44 | one button press; the `ZoomViewer` handlers are each proved to perform it |
| Infographic.Run | components/Infographic.tsx:17-44 | a sequence of presses; `ZoomAlwaysInRange` and `CloseForgetsZoom` state properties of every such sequence |
| Infographic.ZoomViewer.constructor | components/Infographic.tsx:16-17 | 1x, not full screen |
| Infographic.ZoomViewer.HandleZoomIn | components/Infographic.tsx:19 | the zoom becomes `min(zoom + 0.5, 4)` and stays in range |
| Infographic.ZoomViewer.HandleZoomOut | components/Infographic.tsx:20 | the zoom becomes `max(zoom - 0.5, 0.5)` and stays in range |
| Infographic.ZoomViewer.HandleResetZoom | components/Infographic.tsx:21 | the zoom becomes 1 |
| Infographic.ZoomViewer.Open | components/Infographic.tsx:36-44 | the view goes full screen |
| Infographic.ZoomViewer.HandleCloseFullscreen | components/Infographic.tsx:23-26 | full screen closes and the zoom returns to 1 |

## Left out

- DraftService.GenerateDraft: the parsed reply is an object with string-or-absent `fullPost`, `points` an array or absent, and points that are objects. A reply that parses to `null`, a non-array `points` or a `null` point makes the `map` throw a `TypeError`, whose engine-defined message reaches `handleApiError`; a truthy non-string title, prompt or post passes through unchanged. Neither is modelled, because the error text is engine-defined and the studio's types are strings.
- Network calls to Gemini, the prompt texts, model names and request configuration: the replies are inputs.
- `parseGeminiJson`'s regular expression and `JSON.parse`: one abstract parse function, `None` where it throws.
- A non-string `content` in the analysis reply: `json.content || ""` would pass a truthy non-string through. The model's `content` is a string or absent.
- Text.ToLower: lowers only the ASCII capitals; `toLowerCase` on other letters (accented, Greek, Cyrillic and so on) is not modelled, so those characters are left as they are.
- Raster output: pixels, `drawImage` scaling, arc clipping, `toDataURL`, jsPDF internals, font metrics (`measure` is a parameter) and the clicks that save a file. Drawing is the command list.
- The canvas state calls `save`, `restore`, `textBaseline`, `beginPath` and `stroke` are folded into the commands they affect.
- DOM measurement and scrolling: `getBoundingClientRect`, `offsetHeight`, `scrollBy` (the prev/next buttons' scroll) and `scrollLeft / clientWidth` are inputs or not modelled.
- CarouselView.Preview.HandleScroll: requires a positive width. A zero-width track gives `NaN`, and `Math.min`/`Math.max` on `NaN` is not modelled.
- Studio.Stage: the `VISUALS` and `FINAL` stages of the declared type are kept, but no handler sets them, so in the model, as in the code, the stage only moves between Input and Editing.
- Studio.Studio.PointChange: requires an index inside the list. The UI only calls it with one, and the out-of-range JavaScript write, which lengthens the array, is not modelled.
- SlideBoard.Board.Move: requires an index inside the list, as the sidebar's buttons always pass.
- Promise fan-out and completion order (`Promise.all`, the fire-and-forget image requests): each completion is a separate method call, in whatever order the caller chooses.
- `localStorage`, `FileReader`, `crypto.randomUUID`, `window.scrollTo`, `navigator.clipboard`, `setTimeout`, the loading messages and the dark-mode toggle.
- The profile editor, the API-key modal, the intro and loading screens, the search-results list and the i18n tables.
- The infographic's full-size download link: the anchor's `href` and file name are markup with no logic.
- Zoom is modelled as a count of half-steps, so the model does not show binary floating-point arithmetic, which is exact for these values anyway.
- Percentages and pixels are `real`, so IEEE rounding is not modelled.
