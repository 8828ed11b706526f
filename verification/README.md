# Sentinel AI change-analysis workflow, modelled in Dafny

This project models the change-analysis workflow of the Sentinel AI
dashboard, a React single-page app. An operator puts a "before" and an
"after" satellite image into two slots, either from the file picker, by
drag-and-drop or from a fixed sample pair. Analyze starts a simulated run.
After a delay the run completes with a pseudo-random change score in
[0.1, 1.0). The dashboard stores the score. Above 0.3 it prepends an alert
(`critical` above 0.7, `warning` otherwise) to a newest-first list. The
change-detection view classifies the score into a category
(Deforestation, Urban Expansion, Flooding, No significant change), colours
it, shows a separate alert level, and compares the two images side by side
or through a reveal slider. The alert panel renders one card per alert.

One module per source file, plus one shared helper module:

- `Images` (images.dfy), the shared helper: the optional image handle, the
  two slots, and JavaScript truthiness of a handle. `null` and `""` both
  count as absent.
- `AlertsPanel` (alerts_panel.dfy): the alert record, type-to-colour
  mapping, card style and icon, and the panel's rendering. Pure functions.
- `ChangeDetection` (change_detection.dfy): the category ladder, the two
  colour bands, the alert-level ladder and view selection, as pure
  functions. The view's local state (comparison toggle, slider position and
  the `detectionType` label written by the score effect) is the class
  `ComparisonState`.
- `App` (app.dfy): the class `Dashboard`, which holds the five state
  cells. Its start and complete callbacks are methods. Alert construction and
  the registry update are pure functions. A ghost history of completions
  lets the class invariant say that the list is every raised alert, newest
  first.
- `ImageUploader` (image_uploader.dfy): the class `Uploader`, holding the
  drag-over highlight and a count of scheduled completions. It writes the
  dashboard's slots and drives its callbacks. `ProcessImages` is the
  guarded start. `CompleteRun` is one timer firing.

The browser supplies the image data, the random draw and the clock, so they
are parameters. A data URL or sample URL is an opaque string. `Math.random()`
is a `real` in [0, 1), mapped by the source's own formula. `Date.now()` is an
integer id and timestamp. The model assumes scores are exact reals. The
source compares them only against 0, 0.3, 0.5 and 0.7.

Facts about the code that the model keeps:

- The code does not guard against a second start. The run trigger does not
  look at the processing flag, so it can schedule a second run while one is
  pending.
- The code has no invalid-media error. The file input only advertises
  `image/*`.
- Scores lie in [0.1, 1.0).
- Alert ids come from the clock and are not guaranteed unique.
- The view's alert level cuts at 0.5 and 0.3. The App's alert type cuts at
  0.7, and its alerting threshold is 0.3.
- The processing flag is only ever set while a completion is scheduled.
  The uploader's invariant states this.

## Model

| member | source | states |
|---|---|---|
| Images.Shown | src/components/ChangeDetection.tsx:187-206 | an image is drawn exactly when its handle is non-null and non-empty, and then it is the handle itself |
| AlertsPanel.ToneOf | src/components/AlertsPanel.tsx:18-38 | the type-to-colour mapping: red iff `critical`, yellow iff `warning`, blue for every other type |
| AlertsPanel.AlertStyle | src/components/AlertsPanel.tsx:29-38 | the card style switch agrees with the type-to-colour mapping: red for `critical`, yellow for `warning`, blue otherwise |
| AlertsPanel.AlertIcon | src/components/AlertsPanel.tsx:18-27 | the icon colour switch follows the same type-to-colour mapping as the style |
| AlertsPanel.CardOf | src/components/AlertsPanel.tsx:62-90 | a card is keyed by the alert id and shows the alert's own type, message, location, time and score unchanged, styled by its type's colour |
| AlertsPanel.Cards | src/components/AlertsPanel.tsx:61-92 | exactly one card per alert, card i for alert i, so list order is kept |
| AlertsPanel.RenderPanel | src/components/AlertsPanel.tsx:47-63 | the "No alerts detected" view iff the list is empty; otherwise exactly one card per alert in order |
| ChangeDetection.DetectionType | src/components/ChangeDetection.tsx:21-31 | Deforestation iff score > 0.7, Urban Expansion iff 0.5 < score <= 0.7, Flooding iff 0.3 < score <= 0.5, No significant change iff score <= 0.3 (total, strict boundaries) |
| ChangeDetection.LabelInjective | src/components/ChangeDetection.tsx:23-29 | the four category labels are pairwise distinct, so a label names one category |
| ChangeDetection.StrictBoundaries | src/components/ChangeDetection.tsx:22-27 | 0.3 gives No significant change, 0.5 gives Flooding, 0.7 gives Urban Expansion; the alert level of 0.3 is Low and of 0.5 is Moderate |
| ChangeDetection.ScoreColor | src/components/ChangeDetection.tsx:33-38 | the score colour is the colour of the score's category band (red, orange, yellow, emerald) |
| ChangeDetection.ScoreBackground | src/components/ChangeDetection.tsx:40-45 | the bar colour is the colour of the score's category band, the same four bands |
| ChangeDetection.AlertLevelOf | src/components/ChangeDetection.tsx:99 | Critical iff score > 0.5 (the two top categories), Moderate iff Flooding, Low iff No significant change |
| ChangeDetection.Render | src/components/ChangeDetection.tsx:47-208 | processing view whenever processing; upload prompt when neither image is present; results block iff score > 0; side-by-side shows each image iff present; slider draws after full-frame and before clipped at the slider position |
| ChangeDetection.SyncedResultsNameCategory | src/components/ChangeDetection.tsx:93-96 | once the score effect has run, the results block names the score's category |
| ChangeDetection.ComparisonState.constructor | src/components/ChangeDetection.tsx:17-19 | comparison hidden, slider at 50, empty label |
| ChangeDetection.ComparisonState.ToggleComparison | src/components/ChangeDetection.tsx:127 | flips the toggle and changes nothing else |
| ChangeDetection.ComparisonState.SetSliderPosition | src/components/ChangeDetection.tsx:170-175 | takes the range input's value, always in 0..100, and changes nothing else |
| ChangeDetection.ComparisonState.OnScoreChange | src/components/ChangeDetection.tsx:21-31 | the effect writes the label of the score's category |
| App.MakeAlert | src/App.tsx:19-26 | type `critical` iff score > 0.7, else `warning`, with the matching message; carries the score unchanged, location `Sample Region` and the supplied id and time |
| App.Record | src/App.tsx:18-28 | score <= 0.3 leaves the list as it was; score > 0.3 grows it by one, the new alert in front and the old alerts after it in their order |
| App.RecordAllNewestFirst | src/App.tsx:27 | after any sequence of completions the list is the raised alerts in reverse completion order followed by the earlier list |
| App.RecordAllSnoc | src/App.tsx:27 | recording one more completion on a history equals recording the extended history |
| App.RaisedAlertsWellFormed | src/App.tsx:18-26 | every raised alert comes from a completion with score > 0.3, is in `Sample Region`, and is critical iff its score > 0.7 |
| App.RegistryOrderExample | src/App.tsx:27 | scores 0.4, 0.8, 0.35 in that order give the alerts for 0.35, 0.8, 0.4 |
| App.AlertTypeAgainstAlertLevel | src/App.tsx:18-22 | an alert is raised iff the view's alert level is not Low and the category is not No significant change; critical iff Deforestation; at 0.6 the level is Critical but the alert only a warning |
| App.NewestCardFollowsScore | src/components/AlertsPanel.tsx:60-68 | after a raising completion the first card is the new alert's, red iff score > 0.7 and yellow otherwise |
| App.MountedPanelNeverPrompts | src/App.tsx:123-138 | the change-detection panel is mounted only with an image present, so it never shows its upload prompt |
| App.RegistryIsHistory | src/App.tsx:13-28 | in a valid dashboard the alert list is exactly the raised alerts of all completions, newest first |
| App.Dashboard.constructor | src/App.tsx:10-14 | both slots empty, not processing, no alerts, score 0 |
| App.Dashboard.SetBeforeImage | src/App.tsx:10 | sets only the before slot |
| App.Dashboard.SetAfterImage | src/App.tsx:11 | sets only the after slot |
| App.Dashboard.HandleProcessing | src/App.tsx:16-29 | the score always becomes the current one; the list becomes Record of the old list; the images and flag are untouched |
| App.Dashboard.OnProcessStart | src/App.tsx:114 | sets the processing flag and nothing else |
| App.Dashboard.OnProcessComplete | src/App.tsx:115-118 | clears the processing flag, then records the score as HandleProcessing does |
| ImageUploader.ScoreFromRandom | src/components/ImageUploader.tsx:63 | a draw in [0, 1) gives a score in [0.1, 1.0) |
| ImageUploader.ScoreRangeIsCovered | src/components/ImageUploader.tsx:63 | every score in [0.1, 1.0) comes from exactly one draw |
| ImageUploader.AnalyzeDisabled | src/components/ImageUploader.tsx:196 | the button is disabled iff either slot is null or the empty string |
| ImageUploader.Uploader.constructor | src/components/ImageUploader.tsx:23 | no drag highlight, no run scheduled; the invariant holds, so the processing flag is set only while a completion is pending |
| ImageUploader.Uploader.HandleFileUpload | src/components/ImageUploader.tsx:25-36 | the read image replaces the targeted slot only; the other slot, flag, score and alerts are untouched |
| ImageUploader.Uploader.HandleDragOver | src/components/ImageUploader.tsx:38-41 | the highlight becomes the hovered slot |
| ImageUploader.Uploader.HandleDragLeave | src/components/ImageUploader.tsx:43-45 | the highlight is cleared |
| ImageUploader.Uploader.HandleDrop | src/components/ImageUploader.tsx:47-54 | clears the highlight; the first file only replaces the targeted slot; no files leaves both slots unchanged |
| ImageUploader.Uploader.HandlePick | src/components/ImageUploader.tsx:126-130 | the first chosen file, if any, replaces the targeted slot only |
| ImageUploader.Uploader.LoadSampleImages | src/components/ImageUploader.tsx:68-72 | both slots hold the two fixed sample URLs, replacing what was there, which enables Analyze |
| ImageUploader.Uploader.ProcessImages | src/components/ImageUploader.tsx:56-61 | starts iff both slots are present; on start sets the processing flag and schedules exactly one completion; otherwise changes nothing |
| ImageUploader.Uploader.CompleteRun | src/components/ImageUploader.tsx:62-65 | one scheduled completion fires with a score in [0.1, 1.0): the flag is cleared, the score recorded, and the pending count drops by one |
| ImageUploader.EndToEnd | src/components/ImageUploader.tsx:56-65 | drop before, pick after, start, and a completion drawing 0.8 give score 0.82, a clear processing flag, a critical alert in front, and a slider view with after full-frame and before clipped, labelled Deforestation |

## Left out

- `e.preventDefault()` in the drag-over and drop handlers
  (src/components/ImageUploader.tsx:39, 48). It suppresses the browser's
  default navigation, which has no state in the model.
- JSX layout, CSS beyond the colour classes, and animations. The drop
  zone's highlight style and the image previews in the uploader are not
  modelled.
- The browser's file reader. Reading a file into a data URL is
  asynchronous. The model stores the finished data URL as soon as the
  handler runs, so it does not capture a read finishing after a later one.
- The 3-second timer. Start and completion are two separate calls. The
  model does not fix which pending completion fires first, and it ignores
  timing.
- `Math.random()` and floating point. The draw is a parameter, and
  ScoreFromRandom is computed on exact reals rather than doubles. In doubles
  the largest draw, 1 - 2^-53, still gives 0.9999999999999999, so the range
  [0.1, 1.0) is the same.
- The clock. Alert ids and timestamps are parameters. Their uniqueness is
  not proved, because the code does not guarantee it.
- Number and time formatting: `toFixed`, `toLocaleTimeString` and
  percentage strings. Cards carry the raw score and timestamp.
- React's render cycle. State updates in one callback are applied together.
  The model applies them in program order, which gives the same end state.
  Until the score effect has run, the view shows the previous
  `detectionType` label. `Render` takes that label as an input, and
  SyncedResultsNameCategory covers the state after the effect.
- The processing-status and system-statistics panels. They only echo
  the processing flag or show static and random figures.
- The header's score and alert-count figures. They are formatting of
  `changeScore` and `alerts.length`.
