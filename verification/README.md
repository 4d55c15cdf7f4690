# Volumify core, modelled in Dafny

Volumify is a browser extension that boosts a tab's audio volume up to 1000 %
and offers a three-band equaliser with presets. Its logic sits in three
scripts, and this project models each as pure functions over immutable values:

- **popup.js** (modules `Equalizer` and `Popup`). `createState` normalises an
  untrusted settings record. The module also holds the band clamp `clampEq`,
  the exact preset match `computePresetForEq`, the state changes of the UI
  handlers, the preset fix-up of `pushState` and the gain/slider conversions.
  The invariant the popup keeps is `Popup.Valid`: the gain is NaN or lies in
  [0, 10], every band is an integer in [-12, 12], and a named preset carries
  exactly its table triple.
- **background.js** (module `Background`). This is the per-tab store
  `tabStates`, a map from tab id to `{gain, enabled}`. The module models the
  badge text and colour, the three message handlers and the tab events.
  Extension-API calls are returned as `Effect` values.
- **content.js** (module `Content`). `VolumeController` is modelled as a state
  machine over element ids. It holds an optional audio context with an
  optional gain node, and every media element moves
  unseen -> tracked -> {connected | unavailable}. A platform call that may
  throw becomes an outcome argument.

`JsValues` holds the JavaScript number semantics these depend on:
`Num = Finite(real) | PosInf | NegInf | NaN`, the `typeof` tags, `Math.max`,
`Math.min`, `Math.round` and `String(n)` for integers. `Pipeline` states what
happens when the three parts are chained together.

Notable behaviour of the code, which the model keeps:
- The store does not normalise. It keeps only `gain` and `enabled` from an
  update and drops `eq` and `preset`. A popup opened later therefore restores
  the default bands (`Pipeline.EqNotPersisted`).
- The content script has no equaliser filter chain, only a gain node.
- `createState` keeps `"custom"` even when the bands equal a named preset.
- A NaN gain passes `typeof gain === "number"` and `clamp`, so it is kept.
  Infinite gains are clamped to 0 or 10. They do not fall back to the default.
- A context whose gain node failed to build is never rebuilt. The controller
  stays inert for the life of the page (`Content.InertForever`).

## Model

| member | source | states |
|---|---|---|
| JsValues.MaxWith | popup.js:42 | `Math.max` with a finite bound: NaN in gives NaN out, +Infinity stays, -Infinity gives the bound, otherwise the larger of the two |
| JsValues.MinWith | popup.js:42 | `Math.min` with a finite bound: NaN in gives NaN out, -Infinity stays, +Infinity gives the bound, otherwise the smaller of the two |
| JsValues.Clamp | popup.js:41-43 | `clamp` keeps an in-range value, sends values and infinities beyond either end to that end, and lets NaN through |
| JsValues.Round | popup.js:49 | `Math.round` gives the nearest integer n, with n - 1/2 <= x < n + 1/2, so halves go up |
| JsValues.RoundNum | background.js:27 | `Math.round` on any number: finite values go to the nearest integer, NaN and the infinities come back unchanged |
| JsValues.Scale | background.js:27 | `gain * 100` for a positive factor: finite values are multiplied, NaN and the infinities keep their value |
| JsValues.DecimalString | background.js:28 | `String` of an integer is canonical: digits with no leading zero, exactly "0" for zero, and a leading minus exactly for negatives |
| JsValues.CanonicalDigitsRoundTrip | background.js:28 | a canonical digit string is the rendering of its own value |
| JsValues.DecimalStringUnique | background.js:28 | every canonical decimal string is `String(n)` of the integer it parses to, so the rendering is the only canonical text for its value |
| JsValues.NatDigitsRoundTrip | background.js:28 | reading back the digits of a natural number gives the number |
| JsValues.DecimalRoundTrip | background.js:28 | parsing the decimal rendering of any integer gives the integer back |
| Equalizer.ParsePreset | popup.js:30-31 | membership in `PRESET_SET` is exactly being the name of one of the four presets, and the parse inverts the naming |
| Equalizer.PresetKeysComplete | popup.js:30 | `PRESET_KEYS` lists every named preset |
| Equalizer.TableInjective | popup.js:32-36 | no two entries of `EQ_PRESETS` share a triple |
| Equalizer.TableInRange | popup.js:32-36 | every preset triple lies in `EQ_RANGE` |
| Equalizer.ClampEq | popup.js:45-50 | non-finite input gives 0; finite input gives an integer in [-12, 12] that is the nearest integer to the input, or the bound it exceeds |
| Equalizer.ClampEqOfBandValue | popup.js:45-50 | an integer already in [-12, 12] passes through `clampEq` unchanged |
| Equalizer.BandsMatchAllKeys | popup.js:55 | `EQ_KEYS.every(band => a[band] === b[band])` holds exactly when the two band records are equal |
| Equalizer.FirstMatch | popup.js:53-59 | the loop returns a key from the list whose triple equals the bands, and returns custom only if no listed key matches |
| Equalizer.PresetForEq | popup.js:52-60 | `computePresetForEq` is the named preset k exactly when the bands equal k's triple, and custom exactly when no triple matches |
| Equalizer.ConsistentIffInferred | popup.js:52-60 | a named preset is consistent with the bands exactly when it is the inferred one; the inferred preset is always consistent |
| Popup.NormaliseBand | popup.js:80-82 | a band in [-12, 12]; a finite input goes through `clampEq`, a non-finite one is replaced by the fallback first |
| Popup.NormaliseEq | popup.js:79-83 | every band of the result is `clampEq` of the coerced input band and lies in range |
| Popup.ReconcilePreset | popup.js:85-91 | `"custom"` is kept; any other string, whether unknown or a mismatching name, becomes the inferred preset; the result is consistent with the bands |
| Popup.CreateState | popup.js:62-94 | the result is valid. Gain is the clamped number, or 1 if not a number. `enabled` is the input if boolean, else true. Each band is `clampEq` of its input. The preset is custom when `"custom"` was given, else inferred from the bands |
| Popup.ValidIffFixedPoint | popup.js:62-94 | a state is valid exactly when normalising it gives it back |
| Popup.CreateStateIdempotent | popup.js:62-94 | normalising the result of `createState` changes nothing |
| Popup.EmptyPartialGivesDefault | popup.js:18-39 | `createState()` with no argument is `DEFAULT_STATE` |
| Popup.ClampingExample | popup.js:62-94 | gain 2.5 and bands (20, -1, 0) with `"custom"` normalise to bands (12, -1, 0) with custom kept |
| Popup.UntypedFieldsExample | popup.js:62-94 | gain NaN stays NaN, `enabled: "yes"` becomes true, and missing bands with `"vocalBoost"` become the default preset |
| Popup.GainFromSlider | popup.js:196 | slider percentage to gain: NaN stays NaN, an in-range percentage p gives p / 100, anything above 1000 (+Infinity included) gives 10 and anything below 0 gives 0 |
| Popup.HandleSliderInput | popup.js:194-200 | only the gain changes; validity is preserved |
| Popup.SliderPosition | popup.js:298 | gain to slider: an integer in [0, 1000] within half a step of gain * 100 for an in-range gain; NaN for NaN |
| Popup.SliderRoundTrip | popup.js:298 | for every integer slider position in [0, 1000], converting to gain and back gives the same position |
| Popup.GainSliderRoundTrip | popup.js:298 | a gain in [0, 10] shown on the slider and read back moves by at most half a percent |
| Popup.HandleEqSliderInput | popup.js:202-214 | the chosen band becomes `clampEq(value)`; other bands, gain and enabled are unchanged; the preset is named k exactly when the bands equal k's triple |
| Popup.HandlePresetChange | popup.js:216-239 | a value outside `PRESET_SET` changes nothing; `"custom"` changes only the preset; a named key loads its triple and name; validity is preserved |
| Popup.PresetSurvivesNormalisation | popup.js:229-235 | after loading a preset, normalising the state keeps that preset and its triple |
| Popup.HandlePowerToggle | popup.js:241-245 | `enabled` flips and nothing else changes |
| Popup.HandleReset | popup.js:247-254 | the state becomes the normalised empty record, whatever it was before |
| Popup.ClampBands | popup.js:155-163 | each payload band is `clampEq` of the state's band, so all are in range, and they equal the state's bands when those already were |
| Popup.PushState | popup.js:165-192 | without a numeric tab id nothing changes and nothing is sent. Otherwise each band becomes `clampEq` of itself, a non-custom preset becomes `computePresetForEq` of the clamped bands, custom stays custom, and the message carries the resulting state. A valid state is left unchanged |
| Popup.RestoreState | popup.js:264-295 | the restored state is valid: the normalised response, or `DEFAULT_STATE` without a numeric tab or a response |
| Background.GetState | background.js:12-21 | a non-numeric id gets a fresh default and the store is unchanged. A numeric id gets its stored record, or a newly stored default. Only that key can be added, and no existing record changes |
| Background.BadgeText | background.js:23-29 | `"Off"` exactly when disabled; otherwise, for a finite gain, the canonical decimal text of round(gain * 100); `"NaN"`, `"Infinity"` or `"-Infinity"` for the matching non-finite gain |
| Background.BadgeTextIsDecimal | background.js:27-28 | the contract of the badge text fixes it to `String(Math.round(gain * 100))` for every enabled finite gain |
| Background.BadgeExample | background.js:23-29 | an enabled gain of 1.5 shows `"150"` |
| Background.BadgeColor | background.js:7-8 | `#1f8a70` exactly when enabled, `#adb5bd` exactly when disabled |
| Background.UpdateBadge | background.js:31-41 | a non-numeric id produces no effect; a numeric one produces one badge effect for that tab, carrying the badge text and colour of the record |
| Background.ApplyStateToTab | background.js:43-62 | a non-numeric id produces no effect; a numeric one pushes the record to the tab and then updates its badge |
| Background.FetchAndPush | background.js:67-73 | `getSettings` responds with the fetched-or-created record and pushes it and its badge to a numeric tab. Existing records are untouched |
| Background.UpdateSettings | background.js:75-91 | a non-numeric id gets `{ok:false}` and the store is unchanged. Otherwise the tab's record becomes exactly `{gain, enabled}`, other tabs are untouched, the reply is `{ok:true}` and the record is pushed |
| Background.ContentReadyTab | background.js:94 | the sender's tab id when the sender is a tab, else the message's own `tabId` |
| Background.OnMessage | background.js:64-102 | `getSettings` and `contentReady` (for the sender's tab, else the message's `tabId`) are handled by fetch-and-push, `updateSettings` by the update handler, and an unknown message type changes nothing and gets no response; no message removes a key |
| Background.OnMessageIsolation | background.js:64-102 | a message adds at most the key it addresses and changes no other tab's record |
| Background.FetchKeepsExisting | background.js:67-73 | `getSettings` and `contentReady` never overwrite an existing record |
| Background.UpdateIgnoresEqAndPreset | background.js:76-87 | the `eq` and `preset` of an update have no influence on the store, the response or the effects |
| Background.OnRemoved | background.js:104-106 | exactly the given key is removed; a missing key leaves the store as it was |
| Background.OnUpdated | background.js:108-112 | effects happen exactly when the status is `"complete"` and the tab has a record; they are the push of that record followed by its badge refresh |
| Background.OnActivated | background.js:114-117 | the record is fetched or created as a default, other records are untouched, and only the badge is refreshed |
| Content.EnsureContext | content.js:14-27 | an existing context is never replaced. Without one, the outcome decides: no context, a context without a gain node, or both with the node at 1 |
| Content.EnsureResumed | content.js:29-39 | a resume is requested exactly when a context exists and is suspended; nothing else changes |
| Content.ApplyGain | content.js:117-125 | without a gain node nothing changes; otherwise the node holds `enabled ? gainValue : 1`, so it is 1 when disabled, and a resume is attempted |
| Content.SetGain | content.js:107-110 | only `gainValue` changes: elements and the context with its state are kept, an existing node then holds the effective gain for the new value, and a resume is requested exactly when a node exists and the context is suspended |
| Content.SetEnabled | content.js:112-115 | only `enabled` changes: elements and the context with its state are kept, an existing node then holds the effective gain for the new flag, and a resume is requested exactly when a node exists and the context is suspended |
| Content.OnApply | content.js:147-153 | the `apply` message leaves the node at `enabled ? gain : 1`, keeps the context and its state, touches no element, and requests a resume exactly when a node exists and the context is suspended |
| Content.ApplyOrderIndependent | content.js:150-151 | calling `setEnabled` before `setGain` ends in the same controller as the handler's order |
| Content.Attach | content.js:41-75 | non-media or already tracked input changes nothing. Otherwise the element is tracked and `ensureContext` runs: without a prior context the outcome decides whether a context and a gain node exist, and a prior context is kept with its node or lack of one. The element ends tracked-only without a gain node, unavailable when the source fails, connected when it succeeds. At most one resume is requested, and one is requested exactly when the element is connected to a suspended context. No other element changes |
| Content.AttachIdempotent | content.js:46-48 | attaching an element a second time, under any outcome, is a no-op |
| Content.OnPlay | content.js:62-68 | playback requests a resume exactly for a connected element of a suspended context |
| Content.StepKeepsStatus | content.js:46-56 | no event changes the status of an element that has been seen |
| Content.RunKeepsStatus | content.js:46-56 | over any sequence of events an element's first status is final: it is never retried |
| Content.StepKeepsValid | content.js:41-125 | every event preserves the controller invariant |
| Content.RunKeepsValid | content.js:41-125 | over any sequence of events, whenever an element is connected the gain node holds `enabled ? gainValue : 1` |
| Content.InertForever | content.js:14-27 | once a context exists without a gain node, no sequence of events creates a node or connects an element |
| Content.InitialValid | content.js:5-12 | the constructed controller satisfies the invariant and has seen no element |
| Pipeline.PushReachesPage | background.js:82-89 | a valid popup state pushed to a tab is stored as `{gain, enabled}`, pushed to the page first, and the page's node ends at `enabled ? gain : 1` |
| Pipeline.EqNotPersisted | background.js:82-87 | after an update, `getSettings` returns `{gain, enabled}`. A popup restored from it keeps those but gets the default bands and preset |

## Left out

- Pipeline.PushReachesPage: assumes the gain crosses `runtime.sendMessage` and `tabs.sendMessage` unchanged. The transport's JSON conversion, which turns a NaN gain into `null`, is not modelled. Pipeline.EqNotPersisted makes the same assumption.
- The extension API and transport are not modelled. This covers `runtime.sendMessage`, `tabs.sendMessage`, `tabs.query`, `action.*` and delivery errors. Messages and badge calls are values (`Effect`, `Reply`); background.js and popup.js ignore delivery failures.
- DOM work in the popup is not modelled: element lookup, `classList`, `textContent`, `--slider-fill` percentages, `formatPercent`, `formatEqValue`, `updateSliderLabel`, `updateButtonView`, `updatePresetSelect`, `updateEqUi` and listener registration. It is display only.
- Web Audio and DOM observation in the page are abstract. `AudioContext`, `createGain`, `createMediaElementSource`, `connect`, `attachExisting`, `observeNewElements` and `initialize` become outcome arguments and a stream of offered element ids (`Content.Event`).
- The promise returned by `resume()` is not modelled. The model counts resume requests; the context's state changes only through a `ContextChanged` event.
- The model uses real arithmetic, not IEEE-754. `x / 100` and `(x / 100) * 100` are exact here, and rounding error of doubles is not modelled. NaN and the infinities are modelled explicitly.
- Popup.NormaliseEq: takes each band after the `Number(...)` coercion of popup.js:80, as a number. The conversion of strings, booleans, null and objects to numbers is not modelled.
- Background.UpdateSettings: types the message's `gain` as a number and `enabled` as a boolean. These are what `pushState` sends. background.js stores whatever values arrive, and other value types are not modelled.
- Background.BadgeText: renders integers in plain decimal. JavaScript switches to exponent notation at magnitude 10^21, far beyond any reachable gain; that is not modelled.
- Content.ApplyGain: assigns any number to the gain node. In a browser, assigning a non-finite value to `AudioParam.value` throws. Inside `attachToElement` that would mark a connected element unavailable. In the `apply` handler (content.js:150-151), `setGain(NaN)` would throw before `setEnabled` runs, so with a NaN gain Content.OnApply and Content.ApplyOrderIndependent do not hold in a browser: the two call orders leave different `enabled` values. This is reachable only with a NaN gain, and it is not modelled.
- Content.Attach: treats `createMediaElementSource` and `connect` as one step that succeeds or throws. A `connect` failure after the source exists is not distinguished.
- Popup.PushState: the `else if (!PRESET_SET.has(state.preset))` branch of popup.js:173-175 is dead for every value and is absent. It runs only when `state.preset === "custom"`, and `"custom"` is always in `PRESET_SET`. Any other preset string, known or not, is already re-derived by the first branch.
- Background store keys are JavaScript numbers compared with SameValueZero. Non-integer and NaN ids are representable, but no property singles them out.
