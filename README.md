# Kalorify AI meal analysis screen, modelled in Dafny

The single-page React component `App` (src/App.tsx) uploads a photo of a
meal to an analysis web hook and shows what comes back. It shows the meal's
totals, a two-line evaluation and one card per detected food. Every free-text
field goes through a Turkish lookup table before it is shown. Each lookup
is an exact, case-sensitive, whole-string match that falls back to the
text as it came in.

The model has four modules:

- `Js` covers the JavaScript truthiness rules the component relies on: a missing field, the empty string, and the `||` operator.
- `Translations` has the six lookup tables and the rule `table[s] || fallback` behind `getDietFitColor` and the five `translate…` helpers. It also holds facts about the tables: no empty values, and every value is a fixed point. From these follow the hit/miss behaviour and idempotence of each translator.
- `Display` covers the response's shape and what the results screen shows for it:
  - the two summary lines;
  - the diet badges;
  - the item cards;
  - the report.

  The tables come in as a `Dictionaries` value, and lemmas that speak about the component's own tables require its fields to be the constants of `Translations`.
- `Session` covers the four state variables and the handlers `handleFileChange`, `analyzeImage` and `resetAnalysis`:
  - each handler is a function from the old state to the new one;
  - the class `App` runs the handlers on its fields;
  - `Render` says which screen a state shows.

  The network reply is a `FetchOutcome` parameter.

### Behaviour of the code that is easy to get wrong

- **Summary table:** the summary table does not share the tip sentences. It is a table of its own. The tip sentence "Enjoy in moderation or share a portion." is not a summary key, so it passes through `translateSummary` unchanged (`TipSentenceNotASummary`).
- **'high-fat' tag:** the 'high-fat' tag has a label, 'Yüksek Yağ', but no colour. So its badge is translated and grey (`HighFatLabelledButGrey`, `PizzaCard`).
- **Failed re-analysis:** a new submission does not always replace the previous result.
  - `analyzeImage` never clears `analysisResult`. The upload buttons stay in the header while results are shown.
  - So a new photo whose analysis fails is shown next to the previous photo's report (`NewPhotoWithOldReport`).
  - An ok response with an empty array does clear the report (`EmptyResponseShowsNoReport`).

## Model

| member | source | states |
|---|---|---|
| Js.Or | src/App.tsx:458 | `a \|\| b` is `a` when `a` is truthy and `b` otherwise, so it is truthy iff either operand is |
| Js.OrDefault | src/App.tsx:466 | `a \|\| b \|\| lit` is the first truthy operand, else the literal; non-empty when the literal is |
| Translations.Lookup | src/App.tsx:141 | `table[s] \|\| fallback` is the mapped value when the key is present with a non-empty value, and the fallback otherwise |
| Translations.Translate | src/App.tsx:141 | never blanks a non-empty input; a missing key, or a key mapped to the empty string, gives the input back; any other key gives its mapped value |
| Translations.ColourClass | src/App.tsx:116 | never empty; an unknown tag, or one mapped to the empty string, gets the grey class; any other tag gets its mapped class |
| Translations.TranslateIdempotent | src/App.tsx:141 | translating twice equals translating once when the table's values are fixed points |
| Translations.DietFitColor | src/App.tsx:105-117 | a tag in the colour table gets its class, every other tag the grey default |
| Translations.TranslateDietFit | src/App.tsx:119-142 | a known tag gets its Turkish label, an unknown one is shown as it is |
| Translations.TranslateFoodName | src/App.tsx:144-192 | a known food name gets its Turkish name, an unknown one is shown as it is |
| Translations.TranslateNote | src/App.tsx:194-219 | a known note gets its Turkish text, an unknown one is shown as it is |
| Translations.TranslateTip | src/App.tsx:221-238 | a known tip gets its Turkish text, an unknown one is shown as it is |
| Translations.TranslateSummary | src/App.tsx:240-252 | a known summary sentence gets its Turkish text, an unknown one is shown as it is |
| Translations.DietFitColorsNoEmpty | src/App.tsx:106-115 | no tag maps to an empty class |
| Translations.DietFitLabelsNoEmpty | src/App.tsx:120-140 | no tag maps to an empty label |
| Translations.FoodNamesNoEmpty | src/App.tsx:145-190 | no food name maps to an empty string |
| Translations.NotesNoEmpty | src/App.tsx:195-217 | no note maps to an empty string |
| Translations.TipsNoEmpty | src/App.tsx:222-236 | no tip maps to an empty string |
| Translations.SummariesNoEmpty | src/App.tsx:241-250 | no summary sentence maps to an empty string |
| Translations.DietFitLabelsDisjoint | src/App.tsx:120-140 | no Turkish label is itself a tag key |
| Translations.TipsDisjoint | src/App.tsx:222-236 | no Turkish tip is itself a tip key |
| Translations.SummariesDisjoint | src/App.tsx:241-250 | no Turkish summary sentence is itself a summary key |
| Translations.NotesValuesFixed | src/App.tsx:195-217 | every note value that is a key maps to itself (none is a key) |
| Translations.FoodNamesValuesFixed | src/App.tsx:145-190 | every food-name value that is a key maps to itself (only Lahmacun, Menemen, Baklava and Pizza are) |
| Translations.DietFitLabelsValuesFixed | src/App.tsx:120-140 | every label that is a key maps to itself |
| Translations.TipsValuesFixed | src/App.tsx:222-236 | every tip value that is a key maps to itself |
| Translations.SummariesValuesFixed | src/App.tsx:241-250 | every summary value that is a key maps to itself |
| Translations.TranslateDietFitIdempotent | src/App.tsx:119-142 | `translateDietFit(translateDietFit(t)) == translateDietFit(t)` for every string |
| Translations.TranslateFoodNameIdempotent | src/App.tsx:144-192 | `translateFoodName` is idempotent for every string |
| Translations.TranslateNoteIdempotent | src/App.tsx:194-219 | `translateNote` is idempotent for every string |
| Translations.TranslateTipIdempotent | src/App.tsx:221-238 | `translateTip` is idempotent for every string |
| Translations.TranslateSummaryIdempotent | src/App.tsx:240-252 | `translateSummary` is idempotent for every string |
| Translations.ColourKeysAreLabelKeys | src/App.tsx:106-140 | every tag with a colour also has a label |
| Translations.GreyMeansUncoloured | src/App.tsx:105-117 | a tag's badge is grey exactly when the colour table does not know it |
| Translations.HighFatLabelledButGrey | src/App.tsx:135 | 'high-fat' is labelled 'Yüksek Yağ' yet coloured grey |
| Translations.FoodNameLookupIsExact | src/App.tsx:159 | "Pizza" maps to itself; the lower-case "pizza" misses and is shown as it is |
| Translations.TipSentenceNotASummary | src/App.tsx:241-250 | a sentence of the tip table is not a summary key and passes through the summary translator unchanged |
| Display.PrimaryLine | src/App.tsx:457-459 | never empty; the translated quality sentence, else the balance sentence, else the placeholder |
| Display.SecondaryLine | src/App.tsx:461-470 | present iff the overall tip or the general tip is non-empty; then the translation of the first such, and never empty |
| Display.TagViews | src/App.tsx:514-521 | one badge per tag, same order, each the tag's label and colour class |
| Display.ViewItem | src/App.tsx:484-542 | translated name; numbers passed through; badges iff tags present and non-empty; note and tip blocks iff those strings are non-empty, translated and never empty |
| Display.ViewItems | src/App.tsx:483-543 | one card per item, same order |
| Display.ViewReport | src/App.tsx:400-547 | calories, protein, carbs and fat totals as given; the two summary lines; the item cards |
| Display.TagViewsAppend | src/App.tsx:514 | badges of a concatenation are the concatenation of the badges (order kept, tags independent) |
| Display.ViewItemsAppend | src/App.tsx:483 | cards of a concatenation are the concatenation of the cards |
| Display.SummaryLinesIndependent | src/App.tsx:458-466 | the first line depends only on quality and balance, the second only on the two tips |
| Display.FieldPairSymmetry | src/App.tsx:458-466 | (balance, general tip) reads exactly like (quality, overall tip) with the same texts |
| Display.PlaceholderShownVerbatim | src/App.tsx:458 | with neither quality nor balance, the first line reads "Analiz tamamlandı" |
| Display.PizzaCard | src/App.tsx:486-540 | a 'high-fat' pizza with empty note and tip: name "Pizza", one grey 'Yüksek Yağ' badge, no note, no tip |
| Session.ParseResponse | src/App.tsx:76-90 | network error and bad status fail (status first); an unparsable or null body fails; otherwise `data[0]`: the first array element (absent for an empty array or a falsy element), or a non-array body's property "0" |
| Session.Render | src/App.tsx:336-400 | welcome screen iff no image; spinner iff analysing, else the photo; error banner iff a non-empty error; report iff a result and not analysing |
| Session.Started | src/App.tsx:73-74 | analysing on, error cleared, image and result kept |
| Session.Finished | src/App.tsx:76-96 | analysing off; success stores the first element; failure keeps the result and sets the fixed message |
| Session.Analyzed | src/App.tsx:72-97 | analysing off; an error iff the request failed; the result replaced on success, kept on failure |
| Session.FileChanged | src/App.tsx:58-70 | no file or an empty data URL changes nothing; otherwise the new image is selected, analysing is off, the error is set iff the request failed, and the result is replaced on success and kept on failure |
| Session.Reset | src/App.tsx:99-103 | image, result and error cleared, analysing flag untouched |
| Session.InitialShowsLanding | src/App.tsx:44-47 | a fresh component shows the welcome screen |
| Session.ResetShowsLanding | src/App.tsx:99-103 | after a reset the welcome screen shows |
| Session.AnalysingShowsOnlySpinner | src/App.tsx:366-400 | while a request is out: spinner, no banner, no report |
| Session.SuccessShowsFirstReport | src/App.tsx:89-90 | after a success: photo, no banner, and the report of `data[0]` when it is a response object |
| Session.EmptyResponseShowsNoReport | src/App.tsx:89-90 | an ok empty array shows the photo with neither banner nor report |
| Session.FailureKeepsPreviousReport | src/App.tsx:91-95 | a failure shows the fixed message beside the previous result's report |
| Session.NewPhotoWithOldReport | src/App.tsx:58-97 | a new photo that fails to analyse is shown beside the old photo's report |
| Session.AnalysisAlwaysEnds | src/App.tsx:94-96 | a file change never leaves the analysing flag on when it was off before |
| Session.App.constructor | src/App.tsx:44-47 | the four variables start as no image, not analysing, no result, no error |
| Session.App.StartAnalysis | src/App.tsx:73-74 | the new state is `Started` of the old |
| Session.App.FinishAnalysis | src/App.tsx:76-96 | the new state is `Finished` of the old and the outcome |
| Session.App.AnalyzeImage | src/App.tsx:72-97 | the new state is `Analyzed` of the old and the outcome |
| Session.App.HandleFileChange | src/App.tsx:58-70 | the new state is `FileChanged` of the old, the pick and the outcome |
| Session.App.ResetAnalysis | src/App.tsx:99-103 | the new state is `Reset` of the old |

## Left out

- **Network and file reading:**
  - The `fetch` request and the `FileReader` are not modelled. Their results are parameters: a `FetchOutcome`, and a `FilePick` with the data URL.
  - The file itself, the form data and the web-hook address are not modelled.
- **Asynchrony:**
  - The `await` splits `analyzeImage` into `StartAnalysis` and `FinishAnalysis`. Interleavings of two runs are not modelled.
  - React's batching of state updates is not modelled. Neither is the render between `setSelectedImage` and the start of the analysis.
- **Disabled controls:** the capture, upload and close buttons and the file input are disabled while analysing. The model lets every handler run in every state.
- **Numbers:** every number is a `real` passed through unchanged. How JavaScript formats numbers for display, and `NaN` or missing numbers, are not modelled.
- **Response bodies:**
  - A falsy `data[0]` (`null`, `false`, `0`, `""`) is modelled as no result, since the page only tests it for truthiness.
  - A JSON string body is not modelled: `data[0]` would be its first character, a truthy non-object.
  - A truthy `data[0]` that is not an object, or a response object without `output`, `items`, `totals` or `summary`, is not modelled. On those the real page throws while rendering the report.
  - An item without a `name` shows a blank heading, because `translateFoodName(undefined)` returns `undefined`. This is not modelled: names are strings.
  - A missing number renders as an empty text. This is not modelled: numbers are always present.
- **Object keys:** the tables model only the keys written in the literals. Inherited JavaScript object keys such as `constructor` are not modelled.
- **Markup:**
  - The layout, styles and icons are not modelled, apart from the badge colour classes.
  - The welcome screen's content, `handleCaptureClick` and `handleUploadClick` are left out. These two only open the file dialog.
  - `console.error` logging is left out.
- **Table layout:** the food-name and note tables are written as unions of parts in `Translations`. The parts have pairwise distinct keys, so each union is the table of the source. This keeps each proof about them small.
