# Code style highlighter: view controller and image URLs

A Dafny model of the core of a single-page syntax-highlighting application written in
Rust with the Yew framework. The user pastes code, picks one of twelve languages, and the
page calls an external JavaScript highlighter after every render in which both are
present. One preference, whether to show the intro panel, is kept in the browser's
local storage under the key `"codestyle.state"`.

- `wrappers.dfy` (module `Wrappers`): the `Option` datatype.
- `images.dfy` (module `Images`): `build_webp_url` from `src/utils/images.rs`. The
  function `WebpUrl` states the URL as one concatenation. The method `BuildWebpUrl`
  builds it step by step, as the source does, and is proved equal to `WebpUrl`.
- `app.dfy` (module `CodeStyle`): everything from `src/app.rs`.
  - The `Language` catalog and its three lookup tables.
  - The `State`, `StoredState` and `Msg` types, with local storage as a map from key to
    parsed record.
  - The pure transition functions `InitialState`, `Transition` and `Persist`, and their
    folds `Run` and `RunStorage` over a sequence of messages.
  - The class `App`. Its constructor and methods mirror `create`, `change`, `update`,
    `rendered` and `format_code`, and are proved against those functions.

Calls to the external highlighter are recorded in the ghost field `App.highlights`. Each entry
is the `<pre>` block (text and CSS class) that the highlighter rewrites. The ghost field
`App.overlays` counts the highlighter's output nodes (`div.dp-highlighter`) in the
document. The invariant `App.Valid` says there is never more than one.

Behaviour of the source worth knowing:
- `rendered` tests `is_empty`, so whitespace-only code triggers the highlighter.
- `State` has no WebP-support field, and `app.rs` never calls `build_webp_url`.
- The dropdown button's logo and label for the chosen language come from `to_file_path`
  and `to_name`. The twelve dropdown entries hard-code the same logo paths and their own
  labels, two of which differ from `to_name` ("C++ / C", "XML/HTML").
- `create` unwraps `StorageService::new`, so an unavailable storage area panics. The
  model takes the storage contents as a parameter.
- Dismissal stores `show_info = !dont_show_again`.

## Model

| member | source | states |
|---|---|---|
| `CodeStyle.CatalogComplete` | src/app.rs:20-33 | the catalog in declaration order lists all twelve languages, each exactly once |
| `CodeStyle.ClassRoundTrip` | src/app.rs:36-51 | the CSS class of each language reads back to that language |
| `CodeStyle.ClassesDistinct` | src/app.rs:36-51 | the twelve class strings are non-empty and pairwise distinct |
| `CodeStyle.NamesDistinct` | src/app.rs:53-67 | the twelve display names are non-empty and pairwise distinct |
| `CodeStyle.FilePathInAssetDirectory` | src/app.rs:69-84 | every logo path starts with `./assets/images/` and has a file name after it |
| `CodeStyle.FilePathExtension` | src/app.rs:69-84 | every logo path ends in `.svg` for VisualBasic and in `.png` for every other language |
| `CodeStyle.FilePathIsWebpUrlOfStem` | src/app.rs:69-84 | each logo path is the URL `build_webp_url` builds from its stem without WebP support; with support the `png` logos become `.webp` and the `svg` logo is unchanged |
| `CodeStyle.InitialState` | src/app.rs:127-137 | a new session starts with empty code and no language; the intro is hidden exactly when the restored record holds `show_info = Some(false)` |
| `CodeStyle.App.constructor` | src/app.rs:121-144 | `create` keeps the storage it was given and seeds the state with `InitialState` of the record restored under the state key; no highlighter call and no overlay yet |
| `CodeStyle.App.Change` | src/app.rs:146-148 | a property change never asks for a re-render |
| `CodeStyle.App.Update` | src/app.rs:157-188 | the new state is `Transition` of the old one, the new storage is `Persist` of the old one, and every message asks for a re-render |
| `CodeStyle.HideInitMessageEffect` | src/app.rs:159-160 | dismissing the intro hides it whatever the choice; code and language are unchanged |
| `CodeStyle.ChooseLanguageEffect` | src/app.rs:178-182 | choosing a language sets only the language |
| `CodeStyle.InputCodeEffect` | src/app.rs:183-186 | an edit sets only the code |
| `CodeStyle.PersistEffect` | src/app.rs:162-175 | dismissal stores `show_info = Some(!dont_show_again)` under the state key and touches no other key, whether or not a record could be restored; other messages leave storage unchanged |
| `CodeStyle.PersistenceRoundTrip` | src/app.rs:159-176 | after a dismissal, the next session's initial state shows the intro exactly when "don't show again" was not chosen |
| `CodeStyle.RestartAfterDismissal` | src/app.rs:133-175 | the same round trip through two `App` objects: create, dismiss, create again on the written storage |
| `CodeStyle.App.Rendered` | src/app.rs:150-155 | the hook appends the rendered code block to the highlighter log exactly when the code is non-empty and a language is chosen; it then leaves exactly one overlay, and otherwise changes nothing |
| `CodeStyle.App.FormatCode` | src/app.rs:106-114 | removing the previous output node before calling the highlighter leaves exactly one overlay and logs the block the highlighter rewrote |
| `CodeStyle.FormattedBlockCarriesLanguage` | src/app.rs:521 | whenever the hook fires, the highlighter sees exactly the entered code, under a class that reads back to the chosen language |
| `CodeStyle.RunShowInfo` | src/app.rs:157-188 | after any sequence of messages the intro is shown exactly when it was shown before and no message dismissed it |
| `CodeStyle.RunKeepsCode` | src/app.rs:157-188 | a sequence of messages with no edit leaves the code unchanged |
| `CodeStyle.RunLastCode` | src/app.rs:183-186 | after any sequence of messages the code is that of the last edit |
| `CodeStyle.RunKeepsLanguage` | src/app.rs:157-188 | a sequence of messages with no language choice leaves the language unchanged |
| `CodeStyle.RunLastLanguage` | src/app.rs:178-182 | after any sequence of messages the language is the last one chosen |
| `CodeStyle.FormatsAfterLatestEdits` | src/app.rs:150-155 | after any sequence that chose a language and edited the code, the highlighter fires exactly when the latest edit is non-empty, and it sees that edit under the last chosen language's class |
| `CodeStyle.RunStorageKeeps` | src/app.rs:157-188 | a sequence of messages with no dismissal leaves storage unchanged |
| `CodeStyle.RunStorageLastDismissal` | src/app.rs:162-175 | after any sequence, storage holds the record written by the last dismissal, and the next session shows the intro exactly when that dismissal was not "don't show again" |
| `CodeStyle.FirstVisit` | src/app.rs:121-188 | first visit with empty storage: dismiss with "don't show again", choose Python, type `print(1)`, rendering after each message; storage then holds `show_info = Some(false)`, the intro is hidden, and the highlighter ran once, on `print(1)` with class `python` |
| `Images.BuildWebpUrl` | src/utils/images.rs:80-97 | the buffer built step by step equals `WebpUrl`: the path, a dot, and `webp` when supported and converted, else the native extension |
| `Images.NoSupportKeepsExtension` | src/utils/images.rs:88-95 | without support the URL is `path + "." + default_extension`, of length `|path| + 1 + |default_extension|` |
| `Images.SupportConvertsPngAndJpg` | src/utils/images.rs:78-95 | with support, `png` and `jpg` give `path + ".webp"` and every other extension is kept |
| `Images.UrlLayout` | src/utils/images.rs:84-93 | every URL is the path, then a dot, then the chosen extension |
| `Images.UrlLength` | src/utils/images.rs:82-89 | the URL has length `|path| + 5` in the WebP branch and `|path| + 1 + |default_extension|` otherwise |
| `Images.PngAndJpgShareWebpUrl` | src/utils/images.rs:78-87 | with support, a `png` and a `jpg` asset at one path give the same URL |
| `Images.UrlDeterminesPath` | src/utils/images.rs:80-97 | for a fixed extension and support flag, equal URLs come from equal paths |

## Left out

- `view` (src/app.rs:190-534): HTML markup and event wiring. Only the code block that the highlighter rewrites is modelled, as `RenderedBlock` (line 521).
- The DOM work in `format_code` and the highlighter itself: the model records each call and the block it rewrote. It assumes the highlighter adds one output node for the page's one code block.
- `StorageService` and JSON (de)serialisation: storage is a map from key to parsed record. A missing key and an entry that does not parse both restore as `None`.
- Failure to open local storage: the source panics (`unwrap`). The model is always given a storage map.
- `ImageFuture` and `has_webp_support` (src/utils/images.rs:11-76): asynchronous polling, waker callbacks and browser image loading. The support flag is a parameter of `BuildWebpUrl`.
- Logging (`debug!`), `main` and the build configuration: plumbing with no logic.
- `Run` and `RunStorage` model the framework's message loop as a fold. Re-rendering between messages does not affect state or storage, so it is left out of them. `FirstVisit` shows the rendering.
