# Medical note-taking app: session persistence model

This project models the state machine at the heart of the browser clinical-notes
app in `app.js`. The app object holds three things:

- a configuration: the font size, the current-session pointer, and the named
  sessions, each a snapshot of every note section's text with the time it was saved;
- the text of the nine editable note sections;
- one durable storage slot that each "save configuration" step copies the
  whole configuration into.

The model is a Dafny class, `App.MedicalApp`, with fields `config`, `fields`
(section id to text), `placeholders` (the `data-placeholder` attribute of each
section) and `stored` (the storage slot). Each operation is a method that states
the whole new state. The pure parts are separate functions:

- `Text`: JavaScript's `trim`;
- `Sections`: section labels, the "effectively empty" test, and the bulk rewrites;
- `Sessions`: the configuration record and its save, delete and auto-save transitions.

Lemmas state what the app promises: a save followed by a load round-trips,
the last save under a name wins, templates fill blanks and are idempotent, and
auto-save never persists the default scratch session.

Inputs from outside are method parameters:

- the answer to `prompt` (an `Option<string>`, with `None` for a cancelled prompt);
- the answer to `confirm` (a `bool`);
- the clock `Date.now()` (an `int`).

Delayed completions scheduled with `setTimeout` are separate methods that a
caller invokes later: `SimulateTranscription`, `AutoFillSections` and
`AppendRecommendations`.

In four places the code departs from the evident session rules, and the model follows the code:

- Creating or saving a session named `"default"` is accepted, so `"default"`
  can become a saved session.
- Loading a session leaves sections that are missing from its snapshot untouched.
  It does not blank them.
- Stored text that cannot be parsed is not recovered from. The model has no
  parsing step at all.
- The pointer is not always `"default"` or a saved name. After creating a
  session it names an unsaved session. After start-up it can name a session
  while the sections shown are blank.

## Model

| member | source | states |
|---|---|---|
| `Text.TrimStart` | app.js:358 | drops exactly the leading whitespace: the result is a suffix of the input, everything removed is whitespace, and the result does not start with whitespace |
| `Text.TrimEnd` | app.js:358 | drops exactly the trailing whitespace: the result is a prefix, everything removed is whitespace, and the result does not end with whitespace |
| `Text.Trim` | app.js:358 | the trimmed name is empty exactly when the input is all whitespace; a non-empty result has no whitespace at either end |
| `Text.TrimIdempotent` | app.js:360 | trimming an already trimmed name changes nothing |
| `Text.TrimPadded` | app.js:288 | whitespace added at either end of a text never changes its trim |
| `Sections.SectionName` | app.js:200-214 | a section id with a label gets that label, which differs from the id; any other id is its own label; a non-empty id never gets an empty label |
| `Sections.IsEffectivelyEmpty` | app.js:288 | a section counts as unfilled exactly when its text is all whitespace or its trim equals the untrimmed placeholder attribute |
| `Sections.EffectivelyEmptyIgnoresPadding` | app.js:221 | surrounding whitespace never changes whether a section counts as filled in |
| `Sections.PaddedPlaceholderNeverMatches` | app.js:259 | a placeholder that is empty or padded with whitespace can never match, so only blank texts count as unfilled under it |
| `Sections.Restored` | app.js:400-405 | writing a snapshot back keeps the set of sections on the page |
| `Sections.RestoreSnapshot` | app.js:400-405 | writing back a snapshot of all sections yields exactly that snapshot, whatever the page held before |
| `Sections.RestorePartial` | app.js:400-405 | a section missing from the snapshot keeps its current text |
| `Sections.Templated` | app.js:286-291 | applying templates keeps the set of sections on the page |
| `Sections.TemplatesNotBlank` | app.js:275-284 | every template contains a non-whitespace character |
| `Sections.TemplatedFillsBlanks` | app.js:286-291 | after applying templates no templated section is blank, and a section that was filled in keeps its text |
| `Sections.TemplatedIdempotent` | app.js:286-291 | applying the templates a second time changes nothing |
| `Sections.TemplatedSections` | app.js:168-177 | the auto-fill table here and the template table at app.js:275-284 cover the same eight sections, every editable one except the transcription |
| `Sections.SampleTranscriptFilled` | app.js:151-157 | the sample transcript passes the analysis guard unless the placeholder is the transcript itself |
| `Sessions.Saved` | app.js:383-388 | a save creates or replaces exactly the entry under its name with the given texts and time, moves the pointer to that name, and keeps every other entry and the font size |
| `Sessions.SaveOverwrites` | app.js:383-386 | saving twice under one name keeps only the second save and its timestamp |
| `Sessions.AutoSaved` | app.js:439-444 | an auto-save keeps the pointer; with the pointer empty or `"default"` it leaves the sessions alone, otherwise it replaces the current session's entry with the texts and time |
| `Sessions.AutoSaveStable` | app.js:441 | an auto-save never changes whether the next edit is auto-saved |
| `Sessions.Deleted` | app.js:419 | deleting removes exactly that entry and keeps the others, the pointer and the font size |
| `Sessions.DeleteUndoesSave` | app.js:419 | deleting a name that was just saved for the first time restores the other entries exactly |
| `App.MedicalApp.constructor` | app.js:2-8 | the app starts with the built-in defaults (`normal`, `default`, no sessions), the page's initial texts and whatever the storage slot already holds |
| `App.MedicalApp.SaveConfig` | app.js:28-30 | the storage slot holds a copy of the whole configuration |
| `App.MedicalApp.LoadConfig` | app.js:20-25 | a stored copy replaces the configuration; an empty slot keeps the defaults |
| `App.MedicalApp.ChangeFontSize` | app.js:88-95 | only the font size changes, and the configuration is persisted |
| `App.MedicalApp.CaptureAll` | app.js:379-381 | the snapshot maps every editable section to its current text |
| `App.MedicalApp.ClearAllSections` | app.js:432-436 | every section becomes the empty string |
| `App.MedicalApp.WriteEntries` | app.js:400-405 | each entry that names a section sets that section's text; every other section keeps its text |
| `App.MedicalApp.FillEffectivelyEmpty` | app.js:286-291 | each unfilled section gets its template; every other section keeps its text |
| `App.MedicalApp.SaveSession` | app.js:375-392 | the entry under the name holds every section's current text and the given time; the name becomes current; other entries and all sections are unchanged; the storage slot equals the configuration |
| `App.MedicalApp.LoadSession` | app.js:395-414 | a saved name: the snapshot's sections get the saved texts, the rest keep theirs, the name becomes current, the sessions are unchanged and the configuration is persisted. An unsaved `"default"`: every section is blanked and nothing else changes. Any other unsaved name: nothing changes |
| `App.MedicalApp.CreateNewSession` | app.js:356-364 | a cancelled or blank answer changes nothing. Otherwise every section is blank, the trimmed answer becomes current (`"default"` included), no entry is added or removed, and the configuration is persisted |
| `App.MedicalApp.SaveCurrentSession` | app.js:367-372 | a cancelled or blank answer changes nothing; otherwise it saves under the trimmed answer, `"default"` included |
| `App.MedicalApp.DeleteSession` | app.js:417-429 | unconfirmed: nothing changes. Confirmed: exactly that entry is removed, and the stored copy is taken before the pointer is reset, so it still names the deleted session. If the deleted session was current, the pointer becomes `"default"` and every section is blank; otherwise the pointer and sections are unchanged |
| `App.MedicalApp.AutoSave` | app.js:439-444 | with the pointer empty or `"default"`, neither the sessions nor the storage slot change; otherwise the effect is exactly a save under the current session |
| `App.MedicalApp.Edit` | app.js:74-76 | typing into a section changes only that section's text and then auto-saves |
| `App.MedicalApp.ApplyTemplates` | app.js:274-295 | every unfilled templated section gets its template, every other section (the transcription included) keeps its text, and then an auto-save runs |
| `App.MedicalApp.AutoFillSections` | app.js:164-184 | the eight non-transcription sections receive the fixed texts, the transcription keeps its text, and then an auto-save runs |
| `App.MedicalApp.SimulateTranscription` | app.js:150-161 | the transcription becomes the sample transcript, the other sections are auto-filled, and then an auto-save runs |
| `App.MedicalApp.CheckDrugCompatibility` | app.js:217-233 | the check is scheduled exactly when the current medications are not blank and do not trim to the placeholder; no section and no configuration changes |
| `App.MedicalApp.AnalyzeConversation` | app.js:256-271 | the analysis is scheduled exactly when the transcription is not blank and does not trim to the placeholder; no section and no configuration changes |
| `App.MedicalApp.AppendRecommendations` | app.js:240-252 | the old prescriptions text stays as a prefix and is followed by a blank line and the recommendations; every other section keeps its text; then an auto-save runs |
| `App.MedicalApp.Init` | app.js:11-17 | start-up loads the stored configuration, persists it, then loads `"default"`. Without a saved `"default"` the sections are blank but the pointer keeps the stored current session |
| `App.MedicalApp.InitAsDefault` | app.js:11-17 | corrected start-up: the pointer is `"default"`, so nothing auto-saves until a session is chosen |
| `App.SaveThenLoadRestores` | app.js:375-409 | a save followed by a load of the same name leaves every section as it was, with that name current and its entry holding those texts |
| `App.ReloadThenEditAsWritten` | app.js:11-17 | after a reload, the first edit replaces the stored current session's entry with the blank page plus that edit |
| `App.ReloadLosesSavedComplaints` | app.js:15 | concrete case: complaints saved as "headache" in "visit1" are lost to a reload and one edit |
| `App.ReloadThenEditCorrected` | app.js:11-17 | with the corrected start-up, a reload and an edit leave every stored session untouched |

## Left out

- Page rendering and event wiring are not modelled. This covers `setupEventListeners`, the session list (`updateSessionsList`), the session modal, and the body class names set by `changeFontSize`. Only the edit-then-auto-save wiring is modelled, as `Edit`.
- `showNotification` is not modelled: it only shows a message and changes no state.
- Timer delays carry no timing semantics. Each delayed completion is a method that a caller invokes later.
- The completion of the drug-compatibility check only shows a notification, so it is not modelled.
- Starting `generateRecommendations` only schedules its completion. That completion is modelled as `AppendRecommendations`.
- The recording controls (`startRecording`, `stopRecording`, `recordingSimulation`, `handleAudioUpload`) only toggle buttons. Their delayed completion is `SimulateTranscription`.
- `copyToClipboard` is not modelled: it calls the browser's asynchronous clipboard API.
- JSON serialisation is not modelled. The storage slot holds a configuration value. The shallow merge in `loadConfig` is modelled as a plain replacement, because every copy the app writes carries all three keys.
- A stored blob with missing keys or unparseable text is not modelled. On unparseable text the app throws and does not recover.
- Session names that coincide with inherited object properties (`__proto__`, `constructor`, `toString`, ...) are not modelled. The source's plain-object lookups treat them specially. The model treats every name as an ordinary key.
- The page markup is not part of this model, and the sections are its only elements the model knows. Loading a snapshot writes only keys that name one of the nine sections and skips every other key. The page also has other elements with ids (buttons, the session list and modal, the file input), and `getElementById` would find those and overwrite their text. The app only ever saves the nine section ids, so this differs from the source only for stored data the app did not write.
- `Object.entries` and `forEach` visit keys in some order, and the model does not track it. Each key is written once, so the final texts do not depend on the order.
- SaveConfig: the model's save always succeeds. In the source, `localStorage.setItem` (app.js:29) can throw when storage is full or disabled. The configuration in memory has then already changed (for a save, app.js:383-388), the rest of the handler is skipped, and the storage slot no longer matches memory.
- Strings are sequences of Unicode scalar values. A JavaScript string is UTF-16 and may hold an unpaired surrogate, which a Dafny string cannot. No surrogate is whitespace, so `Trim` and string equality give the same answers on every string both can hold.
- The font size is any string, as stored. The three buttons only ever pass `small`, `normal` or `large`.

## Findings

| source | as written | input that shows it | evidently intended | confidence | as-written member | corrected member |
|---|---|---|---|---|---|---|
| app.js:11-17 | Start-up loads the session `"default"`. When no such session is saved, the sections are blanked but the pointer keeps the stored current session, so the next edit auto-saves the blank page over that session's entry | stored configuration with current session `"visit1"` whose saved complaints are "headache" and no `"default"` session; reload; type `x` into the transcription; the entry for `"visit1"` now holds empty complaints | the blank start-up page is the default scratch session, so stored sessions stay untouched until the user loads or saves one | high; not executed | `App.ReloadThenEditAsWritten` | `App.MedicalApp.InitAsDefault` |
