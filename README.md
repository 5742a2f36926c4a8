# copy-on-select-2: option handling, copy decision and option maintenance

A Dafny model of three pieces of decision logic in the copy-on-select-2 browser add-on. The add-on copies text to the clipboard when the mouse button is released.

- **Option library** (`common.dfy`, module `Common`). This is the option table and its defaults. It includes the `check` validator of the `multi_range_sep` option. It also includes `loadOptions` and `saveOptions` in their two modes. Cooked mode sanitises values against the defaults' types. Raw mode passes the store through.
- **Content script** (`copy_on_select.dfy`, module `ContentScript`). This is the guard chain of `handleEvent`, which chooses the text to copy for a mouse release. It also includes the `CopyOnSelect` object's one option field, `in_input_elements`, which its storage-change listener keeps current.
- **Background script** (`background.dfy`, module `Background`). This is the reconciliation of local storage with the known options on install or upgrade. It also includes the decision whether to open the onboarding page.

Shared modules:

- `values.dfy` (module `Values`) holds JavaScript values as options see them: `VBool`, `VStr` and `VOther`. `VOther` keeps only its truthiness. "Same type" means the same constructor.
- `storage.dfy` (module `Storage`) models local storage as a `map<string, Value>`. It defines the two writing calls, `set` (merge) and `remove` (delete keys), as `StoreOp` values. An operation returns the calls it issues, and `ApplyAll` gives the store they leave behind.

The loops of `loadOptions`, `saveOptions` and `maintainAddOnOptions` are methods with loop invariants. Each is proved equal to a specification function, and the properties are proved about those functions.

The table of known options in `background.js` (`OPTIONS`) is not defined in the files modelled here. It is therefore a parameter. `ReconcileKeepsCookedOptions` and `ReconcileExample` instantiate it with the defaults from `src/common.js`. The same holds for the helpers `loadLocalStorage`, `saveLocalStorage` and `cleanLocalStorage`. They are modelled as reading the store, a `set` call and a `remove` call.

The content script modelled here has no press/release disambiguation, triple-click trimming, multi-range joining or empty-string guard. It copies the page selection, or an input-element substring, on every qualifying mouse release. Unknown keys in a change notification are ignored without any logging.

The text the content script reads and copies is a JavaScript string, modelled as a sequence of UTF-16 code units (`Values.JsString`). So `value.length`, `selectionStart`, `selectionEnd` and `substring` count code units as the DOM does: a character outside the Basic Multilingual Plane is two units, and a lone surrogate can be copied.

## Model

| member | source | states |
|---|---|---|
| `Storage.Apply` | src/common.js:104-107 | a `set` call merges its items into the store (new values win); a `remove` call deletes the listed keys and leaves every other value as it was |
| `Common.DefaultsTable` | src/common.js:130-166 | the table has exactly the four options; the `multi_range_sep` default is the string `"%0a"`; `in_input_elements` defaults to `false` and `trim_triple_clicks` to `true`; every default is sane for its own option |
| `Common.CheckMultiRangeSep` | src/common.js:155-163 | returns `(true, None)` exactly when the value percent-decodes, and otherwise `(false, Some(message))` with the decoder's message |
| `Common.SelectMode` | src/common.js:35-37 | raw mode exactly when the first argument is the boolean `true`; any leading boolean, `false` included, is taken off before the remaining arguments are read; otherwise the arguments are unchanged |
| `Common.CookedValue` | src/common.js:46-56 | the cooked value of a known option is always of its default's type; it is the stored value when that is present and correctly typed, and the default otherwise |
| `Common.CookedOptions` | src/common.js:45-57 | the cooked record has exactly the keys of the option table (extra stored keys never appear), each with its cooked value |
| `Common.LoadOptions` | src/common.js:33-64 | raw mode returns the store unchanged; cooked mode's loop over the table builds exactly the cooked record |
| `Common.CookedOptionsIdempotent` | src/common.js:44-57 | loading the cooked record again, as if it were the store, returns it unchanged |
| `Common.EmptyStoreLoadsDefaults` | src/common.js:47-49 | an empty store loads as the table of defaults |
| `Common.SaneEntries` | src/common.js:89-96 | the entries kept from a proposed record are exactly those with a known key and a value of the default's type; their values are not altered |
| `Common.SaneSubset` | src/common.js:89-96 | the loop of cooked `saveOptions` collects exactly the sane entries |
| `Common.SaveOptions` | src/common.js:77-108 | cooked mode issues one `set` of the sane entries; raw mode issues `set` of its record and then `remove` of its key list; a missing or wrongly shaped argument fails at the call that reads it, after any calls already issued |
| `Common.SaveThenLoad` | src/common.js:89-97 | after a cooked save, a cooked load reads each sane entry of the record unaltered and every other option as before |
| `Common.CookedOptionsAreSane` | src/common.js:89-97 | a cooked save keeps every entry of a cooked load's result |
| `Common.RawSaveEffect` | src/common.js:104-107 | after a raw save the store is the old store merged with the record, with every listed key removed |
| `ContentScript.Substring` | src/copy-on-select.js:58 | `substring` over UTF-16 code units: with offsets inside the string it is the slice between them; in general its length is the distance between the two offsets clamped to the string |
| `ContentScript.SubstringCountsCodeUnits` | src/copy-on-select.js:58 | offsets count code units: over U+1F600 followed by `x`, the range 0 to 2 is the surrogate pair alone and 0 to 1 the lone high surrogate |
| `ContentScript.CopyDecision` | src/copy-on-select.js:23-59 | an untrusted event, a default-prevented event or an event on `docs.google.com` never copies; if none of those holds, a non-empty page selection is copied as is; otherwise an input-element substring is copied exactly when the option is on, the target is the active element, value and offsets have the right types and start < end |
| `ContentScript.InputCopyNonEmpty` | src/copy-on-select.js:57-58 | for start < end, the substring is non-empty exactly when the range meets the string (start < length, end > 0, string non-empty) |
| `ContentScript.CopiedTextNonEmpty` | src/copy-on-select.js:48-58 | the copied text is never empty when the offsets lie within the value (0 <= start, end <= `value.length` in code units) |
| `ContentScript.PageSelectionFirst` | src/copy-on-select.js:48-49 | with a non-empty page selection, the decision does not depend on the option or on the target |
| `ContentScript.FlagOnlyAddsInputCopies` | src/copy-on-select.js:52-58 | with the option off only the page selection is ever copied; turning the option on never takes a copy away |
| `ContentScript.CopyOnSelect.constructor` | src/copy-on-select.js:3-6 | the option field starts out `false` |
| `ContentScript.CopyOnSelect.Initialize` | src/copy-on-select.js:63-65 | the option field takes the stored value as is, or `undefined` when none is stored |
| `ContentScript.CopyOnSelect.OnChanged` | src/copy-on-select.js:68-73 | a notification containing `in_input_elements` sets the field to its `newValue`; any other notification leaves it unchanged |
| `ContentScript.CopyOnSelect.HandleEvent` | src/copy-on-select.js:23-59 | the handler copies what the decision yields for the field's current truthiness |
| `Background.MissingDefaults` | src/background.js:22-26 | the written entries are exactly the known options absent from the store, each with its default |
| `Background.UnknownKeys` | src/background.js:33-34 | the removed keys are exactly the stored keys that name no known option |
| `Background.MaintainAddOnOptions` | src/background.js:17-35 | the loop's deletions and defaults produce a write of the missing defaults (only if any) followed by a removal of the unknown keys (only if any) |
| `Background.ReconcileEffect` | src/background.js:17-35 | afterwards the store holds exactly the known options; a present option keeps its value, even a mistyped one; a missing option has its default |
| `Background.ReconciledKeys` | src/background.js:17-35 | afterwards the store's key set is exactly the key set of the known options |
| `Background.ReconcileOpsShape` | src/background.js:29-34 | there is a write exactly when something is missing and a removal exactly when something is unknown; no other call is issued; written and removed keys are disjoint |
| `Background.ReconcileIdempotent` | src/background.js:17-35 | reconciling an already reconciled store issues no call |
| `Background.ReconcileKeepsCookedOptions` | src/background.js:22-26 | with the add-on's own option table, the reconciliation does not change what a cooked load reads |
| `Background.ReconcileExample` | src/background.js:17-35 | a store with an unknown key `foo` that lacks `trim_triple_clicks` ends up with that option's default, with no `foo`, and with its stored `in_input_elements` kept |
| `Background.ShowOnboardingPage` | src/background.js:37-43 | the onboarding tab is opened exactly when the install is not temporary and the reason is `"install"` |
| `Background.OnInstalled` | src/background.js:45-48 | the install listener reconciles the store to exactly the known options and opens the onboarding page by the same rule |

## Left out

- Storage I/O: the asynchronous `browser.storage.local` calls and their sequencing are not modelled. The store is a map passed in. Writing operations return the list of calls they issue.
- The clipboard write `copy` (src/copy-on-select.js:8-21), both the asynchronous clipboard API and the `execCommand` fallback: this is browser I/O.
- Listener attachment: `addEventListener` (src/copy-on-select.js:77-78), the `initialize()` call (src/copy-on-select.js:83) and the `onInstalled` registration (src/background.js:45). These are modelled only as the bodies the listeners run. Because `initialize` awaits before registering its change listener, notifications that arrive earlier are lost. That ordering is not modelled.
- DOM reads: the selection text, the host name of the document's URL (parsed by `new URL`) and the target's properties are inputs of the handler.
- `console.error` diagnostics in `loadOptions` and `saveOptions`.
- Percent-decoding: `decodeURIComponent` is a parameter (a function to `Decoded` or `UriError`). The default separator `encodeURIComponent("\n").toLowerCase()` is the literal `"%0a"`.
- The `onchange` handler of `use_native_copy` (src/common.js:139-143): it only toggles form elements.
- `src/options.js`, the `browser`/`chrome` polyfill and the `Object.hasOwn` shim (src/common.js:16-21), and the unused `OPTION_VERSION` constant.
- Opening the tab: `browser.tabs.create` (src/background.js:41-42). Only the decision whether the tab is opened is modelled.
- Common.SaveOptions: JavaScript's coercions of wrongly shaped arguments are not modelled. For example, `Object.entries(true)` yields no entries, and `remove` also accepts a single key string. The model treats any argument that is not a record (or, in raw mode, not a key list) as a failure.
- Values.SameType: `VOther` merges numbers, objects, `null` and `undefined`, which `typeof` tells apart. No option default is of such a type, so sanitisation is unaffected.
- ContentScript.CopyDecision: selection offsets are integers. Non-integer numbers (`NaN`, fractions), which `substring` would truncate, are not modelled.
- At most one copy per event holds by construction, since the decision returns a single `Option`. It is not stated as a separate lemma.
