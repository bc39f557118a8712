# yt-tui core, modelled in Dafny

yt-tui is a terminal client for a YouTube account. A key-reading thread and a timer feed a channel. The main loop of `tui_render` takes one event at a time and hands each key to `event_handler`. That handler is a modal state machine over one `AppState` record. Depending on the active menu (Account, Commands, Home, Playlists, Search) and on the typing and selection flags, a key edits the search query, runs a search, switches menu, fetches playlists, arms a numbered pick, or plays or loads the item picked. Before each key, the handler refreshes a process-wide OAuth token cache.

This project models that core, plus three small pieces of pure logic around it:

- `app_state.dfy` (module `App`) covers the key handler, the token cache and the application state.
  - `AppState` is a class whose fields are the struct's fields. The search, playlist and theme groups are each held as one pane value.
  - `EventHandler` updates those fields arm by arm, in the order of the Rust `match`.
  - Its contract ties the new state to `Handle`, a pure transition function over `State` snapshots. The lemmas state what the program promises about `Handle`.
  - `ArmFor` names the first arm whose pattern and guard accept a key, so overlapping arms resolve exactly as in Rust.
  - Collaborators the handler calls are oracles passed in as a `Replies` value: video search, playlist listing, theme-file discovery, theme loading and playlist playback. The handler reports in a `Request` which collaborator it called and with which arguments.
  - The log holds `Notice` values. `Text` gives the exact line each one shows, including the leading space of `" Failed to fetch playlists"`.
  - `TokenStore` is the `OAUTH_TOKEN` cache, modelled sequentially with a ghost history of the tokens set.
- `tui.dfy` (module `Tui`) covers the main loop.
  - It has the tab numbering and the initial state.
  - It has the once-per-run start of the OAuth flow.
  - It handles deliveries: a key goes to the handler, a tick does nothing, and a relayed message is appended to the log.
  - `RunLoop` is the loop over a given sequence of deliveries, as a function. `TuiRender` and `Drive` run the same loop on an `AppState` object and are proved against it.
- `duration.dfy` (module `Duration`) covers `parse_iso8601_duration`. It is a character-scanning loop over the ISO 8601 duration syntax `PnYnMnDTnHnMnS` (ISO 8601 section 4.4.3.2) that honours only the H, M and S designators. It prints `H:MM:SS` or `M:SS`.
- `colors.dfy` (module `Colors`) covers three things: `parse_color`, the `MyColor` deserialization rule, and the default `Theme::new`.
- `text.dfy` (module `Strings`) covers the parts of Rust's string library the core relies on.
  - `str::parse` into `u8`, `i32` and `usize` is modelled as: an optional `+`, one or more ASCII digits, and a value no larger than the type's maximum. For `i32` this is exact only because `parse_iso8601_duration` feeds it nothing but the ASCII digits it collects into `num` (src/render.rs:284-286); Rust's `i32` parse would also accept a leading `-`.
  - Also modelled are `{}` and `{:02}` formatting, `trim`, `split` and `to_lowercase`.
- `wrappers.dfy` (module `Wrappers`) defines `Option` and `Result`.

Behaviour of the source that the model keeps on purpose:

- While a query is typed in Search, every character goes into the query, `q`, `s`, `b` and digits included.
- `search_typing` stays on after a search. To pick a result the user must press Esc first, because Enter and `b` are taken by the query.
- A digit goes to the first armed buffer: search results, then playlists, then themes. Theme Enter is matched before playlist Enter.
- `b` in Home clears `playlist_number_input`, not `theme_number_input`.
- A theme pick has no Esc arm.
- `theme_selected_path` is never updated by a pick.
- `h` switches to Home before theme discovery. When discovery fails, the `?` returns that error with the menu already switched.
- When playlist playback fails, the `?` returns the error before the pick is reset, so the state is left as it was.
- The token cache is loaded only at the start of `event_handler`, which runs for keys only, not for ticks or relayed messages (src/tui.rs:213-224). Nothing loads it at startup.
- The "Video not found.", "Playlist not found." and "Theme not found." branches cannot be reached. The index is checked against the list length just before `get(idx - 1)`, so the model has no such branch.

## Model

| member | source | states |
|---|---|---|
| `App.TokenStore.constructor` | src/app_state.rs:20 | before any `set_token` the cache is empty and its history is empty |
| `App.TokenStore.Set` | src/app_state.rs:380-386 | `set_token` replaces the cached token with the new one and records it as the latest |
| `App.TokenStore.Get` | src/app_state.rs:388-390 | `get_token` returns None before any set, and the most recently set token afterwards |
| `App.TokenStore.LoadAndSet` | src/app_state.rs:392-396 | a successful load sets the token; a failed load returns the error and leaves the cached token unchanged |
| `App.AppState.Initial` | src/tui.rs:34-53 | the struct literal: Home, empty lists and buffers, every flag false, theme path "themes/blue_theme.json" |
| `App.AppState.EventHandler` | src/app_state.rs:64-371 | reloads the token cache, then leaves the state, outcome and collaborator request exactly as `Handle` gives them; the selected theme changes only on a successful theme load |
| `App.AppState.PressKey` | src/app_state.rs:78-365 | runs the first arm whose pattern and guard accept the key, matching `KeyPress` |
| `App.AppState.EditQuery` | src/app_state.rs:81-192 | the query arms: type a character, start a search, submit, stop typing, backspace |
| `App.AppState.SubmitSearch` | src/app_state.rs:98-123 | Enter while typing marks the search attempted; results replace the list, or exactly one failure line is logged |
| `App.AppState.PickSearchResult` | src/app_state.rs:125-181 | the search-result pick arms: arm it, add a digit, pick, cancel |
| `App.AppState.PlaySearchResult` | src/app_state.rs:140-173 | picks result n-1 for 1 <= n <= length, or logs why not; the pick is reset either way |
| `App.AppState.SwitchMenu` | src/app_state.rs:194-259 | the menu arms `q`, `a`, `c`, `h`, `p`, `b` |
| `App.AppState.ShowHome` | src/app_state.rs:211-216 | switches to Home, then stores the discovered theme files or returns the discovery error |
| `App.AppState.FetchPlaylists` | src/app_state.rs:219-241 | switches to Playlists; the list is replaced only by a fetched one, otherwise " Failed to fetch playlists" is logged |
| `App.AppState.Bind` | src/app_state.rs:243-259 | `b` arms the playlist pick in Playlists, and the theme pick in Home while clearing the playlist buffer |
| `App.AppState.PickFromList` | src/app_state.rs:261-362 | the playlist and theme pick arms: digits, Enter, Esc |
| `App.AppState.ApplyTheme` | src/app_state.rs:278-317 | loads theme n-1 for 1 <= n <= length and installs it on success; logs the result; resets the pick |
| `App.AppState.PlaySelectedPlaylist` | src/app_state.rs:320-355 | plays playlist n-1 with the cached token; a playback error returns early, skipping the reset |
| `App.Selected` | src/app_state.rs:142-145 | the 0-based index a digit buffer selects is always inside the list |
| `App.PushDigitBounded` | src/app_state.rs:133-136 | a digit is pushed only below two characters; the buffer stays at most two ASCII digits |
| `App.BufferNumber` | src/app_state.rs:142 | a bounded digit buffer fails to parse only when it is empty, and otherwise reads as a number of at most 99 |
| `App.SelectedBuffer` | src/app_state.rs:142-145 | a pick succeeds exactly when the buffer is non-empty and its value n satisfies 1 <= n <= length, and then selects n-1 |
| `App.DigitArmsTakeDigits` | src/app_state.rs:131-276 | the three digit arms are chosen only for ASCII digits |
| `App.HandleKeepsBuffersBounded` | src/app_state.rs:131-276 | no event makes any of the three selection buffers longer than two characters or lets it take a non-digit |
| `App.KeysKeepBuffersBounded` | src/app_state.rs:131-276 | the buffer bound holds after any sequence of key presses |
| `App.OnlyInputActs` | src/app_state.rs:366-367 | a non-key event changes nothing and requests nothing |
| `App.QuitOnlyOnQ` | src/app_state.rs:194-199 | the handler quits if and only if the key is `q` and no query is being typed; quitting leaves the state unchanged |
| `App.FailuresComeFromCollaborators` | src/app_state.rs:211-355 | the handler fails only with the theme-discovery error after `h`, or the playback error on a playlist pick |
| `App.RequestsUseCachedToken` | src/app_state.rs:98-355 | every search, playlist-listing and playback request carries the cached token's access secret; none is made without a token |
| `App.ThemeChangesOnlyOnPick` | src/app_state.rs:278-298 | the selected theme changes only through a successful load of the listed theme picked with Enter |
| `App.TypingCapturesCharacters` | src/app_state.rs:81-85 | while a query is typed, any character, `q`/`s`/`b`/digits included, is appended to the query and nothing else changes |
| `App.TypingAppendsText` | src/app_state.rs:81-85 | typing a word while a query is typed appends the whole word and changes nothing else |
| `App.BackspaceErases` | src/app_state.rs:189-192 | Backspace while typing drops the last query character, if any, and changes nothing else |
| `App.StartSearchResets` | src/app_state.rs:88-94 | `s` selects Search and empties the query and results; it clears `search_attempted`, turns typing on and leaves the selection flags alone |
| `App.SubmitSearchSpec` | src/app_state.rs:98-123 | Enter while typing sets `search_attempted` and keeps typing on; results replace the list only on success; "No token available" or "Failed to search videos" is logged otherwise |
| `App.MenuKeepsSelections` | src/app_state.rs:194-241 | the menu arms other than `b` leave every selection flag and buffer unchanged |
| `App.MenuKeysKeepSelections` | src/app_state.rs:88-241 | `a`, `c`, `s`, `h`, `p` outside a query leave every selection flag and buffer unchanged |
| `App.AccountKey` | src/app_state.rs:201-205 | `a` empties the log, clears `authenticated` and selects Account |
| `App.HomeKey` | src/app_state.rs:211-216 | `h` selects Home and stores the discovered theme files, or fails with the discovery error with Home already selected |
| `App.PlaylistsKey` | src/app_state.rs:219-241 | `p` selects Playlists; with no token or a failed fetch, the list is unchanged and " Failed to fetch playlists" is logged |
| `App.BindArmsSelection` | src/app_state.rs:125-259 | `b` arms the pick of Search, Playlists or Home; in Home it clears the playlist buffer, not the theme one; elsewhere it does nothing |
| `App.DigitGoesToOneBuffer` | src/app_state.rs:131-276 | outside a query, a digit goes to the first armed buffer, in the order search results, playlists, themes |
| `App.PickResultSpec` | src/app_state.rs:140-173 | Enter on a search pick plays the video id of entry n-1 only when 1 <= n <= length; otherwise it logs "Invalid number input." or "Video number out of range."; the pick is reset and the list unchanged |
| `App.PickThemeSpec` | src/app_state.rs:278-317 | Enter on a theme pick loads path n-1 only when 1 <= n <= length and logs the result; the pick is reset and the list unchanged |
| `App.PickPlaylistSpec` | src/app_state.rs:320-355 | Enter on a playlist pick plays entry n-1 only with 1 <= n <= length and a token; a playback error keeps the whole state; otherwise the pick is reset and one message logged |
| `App.EscapeCancels` | src/app_state.rs:176-362 | Esc cancels a search pick, then query typing (keeping the results), then a playlist pick, each with its message; a theme pick is not cancelled |
| `App.ScenarioPlaySecondPlaylist` | src/app_state.rs:320-355 | with playlists Lo-fi Mix/PL1 and Focus/PL2, keys `2` Enter play PL2 and log "Playing playlist: Focus" |
| `App.ScenarioPlaylistOutOfRange` | src/app_state.rs:320-355 | with two playlists, keys `9` Enter play nothing and log "Playlist number out of range." |
| `App.SearchWithoutToken` | src/app_state.rs:88-123 | `s`, a word and Enter with no token leave the word as the query and the results empty, mark the search attempted and log "No token available" |
| `App.ScenarioSearchWithoutToken` | src/app_state.rs:98-123 | typing "lofi" and Enter with no token: attempted, results empty, "No token available" logged |
| `Tui.MenuIndex` | src/tui.rs:19-29 | the tab index of a menu item is always below the number of tabs |
| `Tui.MenuIndexBijective` | src/tui.rs:19-29 | tab index and menu item are inverse to each other |
| `Tui.MenuIndexInjective` | src/tui.rs:19-29 | distinct menu items have distinct tab indices |
| `Tui.MenuTitleNames` | src/tui.rs:69 | the title of tab `MenuIndex(m)` is the name of menu item `m`, for every `m` |
| `Tui.TitleLetterOpensTab` | src/tui.rs:69 | the title of tab `MenuIndex(m)` starts with the capital of the key that opens menu `m` |
| `Tui.Serve` | src/tui.rs:213-224 | a key goes to the handler, a tick changes nothing, and a message appends exactly its text; this agrees with `Deliver` |
| `Tui.Drive` | src/tui.rs:95-225 | the loop's final state, exit and effects are those of `RunLoop` over the deliveries |
| `Tui.TuiRender` | src/tui.rs:32-226 | a failed initial theme load returns its error; otherwise the run is `RunLoop` from the initial state with the loaded theme |
| `Tui.CheckAuthentication` | src/tui.rs:98-115 | on the Account tab with the flag unset, it sets the flag, empties the log and records one `StartAuthentication` effect; otherwise nothing changes; the new state, flag and effects equal `BeginCycle` and `AuthEffects` of the state it started from |
| `Tui.BeginCycleIdempotent` | src/tui.rs:98-100 | the authentication check clears the log at most once; once the flag is set it never fires again |
| `Tui.DeliverKeepsFlag` | src/tui.rs:213-224 | no delivery changes the loop's `authenticated` flag or starts authentication |
| `Tui.AuthAtMostOnce` | src/tui.rs:95-99 | over any run, the OAuth flow starts at most once, even though `a` resets `state.authenticated` |
| `Tui.DeliverEnds` | src/tui.rs:213-220 | a delivery ends the loop only if it is a key: `q` for a normal exit, or a key whose discovery or playback failed |
| `Tui.RunEnds` | src/tui.rs:213-220 | a run exits normally only on `q`, errors only with a collaborator's error, and otherwise consumes every delivery |
| `Tui.TicksOnlyWait` | src/tui.rs:222 | a run of ticks changes nothing after the first authentication check |
| `Tui.MessagesAppended` | src/tui.rs:223 | relayed messages are appended to the log exactly and in order, and change nothing else |
| `Tui.RunKeepsBuffersBounded` | src/tui.rs:97-225 | every state the loop reaches has selection buffers of at most two ASCII digits |
| `Tui.StartBuffersBounded` | src/tui.rs:34-53 | from the initial state, every run keeps the buffers bounded and authenticates at most once |
| `Duration.ParseIso8601Duration` | src/render.rs:270-316 | the scanning loop returns the format of the fields `Scan` gives for the whole input |
| `Duration.SkipsDateTimeMarkers` | src/render.rs:280-282 | `P` and `T` are skipped wherever they occur |
| `Duration.IgnoresOtherCharacters` | src/render.rs:284-307 | other non-digit characters are ignored without clearing the digit run |
| `Duration.ScanDigits` | src/render.rs:284-286 | a run of digits is collected into the pending number and changes nothing else |
| `Duration.DesignatorAssigns` | src/render.rs:288-305 | H, M or S overwrites its field with the parsed run; an empty or overflowing run keeps the old value; the run is cleared either way |
| `Duration.TrailingDigitsDiscarded` | src/render.rs:279-309 | digits after the last designator do not affect the result |
| `Duration.ScanInRange` | src/render.rs:272-274 | every field stays within the `i32` range |
| `Duration.ScanIsoDuration` | src/render.rs:279-309 | scanning `PT<h>H<m>M<s>S` recovers h, m and s |
| `Duration.EmptyDuration` | src/render.rs:272-274 | missing components are 0, so "" and "PT" both give "0:00" |
| `Duration.FormatDurationFields` | src/render.rs:311-315 | the output is `H:MM:SS` with hours and `M:SS` without; minutes and seconds are padded to two digits and keep their values |
| `Duration.ExampleMinutes` | src/render.rs:311-315 | "PT4M13S" gives "4:13" |
| `Duration.ExampleHours` | src/render.rs:311-315 | "PT1H2M3S" gives "1:02:03" |
| `Strings.ParseUnsignedCases` | src/colors.rs:111-113 | an integer parse fails on the empty string, a lone `+`, a non-digit or a value above the maximum |
| `Strings.ParseDecimal` | src/colors.rs:111-113 | the decimal text of any value within the maximum parses back to it |
| `Strings.TrimPadded` | src/colors.rs:86 | whitespace around a string does not survive `trim` |
| `Strings.LowerTrim` | src/colors.rs:86 | trimming and lower-casing commute |
| `Strings.SplitThree` | src/colors.rs:108 | splitting three comma-free parts joined by commas gives the three parts |
| `Colors.DeserializeColor` | src/colors.rs:11-17 | a colour string deserializes to a colour exactly when, trimmed and lower-cased, it spells that colour (its name, or `rgb(` with three comma-separated parts that trim to its bytes, then `)`); the canonical text of any colour deserializes to that colour; any other string fails with "Invalid color: " followed by the string as given |
| `Colors.ParseColorText` | src/colors.rs:84-120 | every colour's canonical text, a name or `rgb(r,g,b)`, parses back to it |
| `Colors.ParseNamedText` | src/colors.rs:88-104 | each of the 16 names parses to its colour |
| `Colors.ParseColorSoundNamed` | src/colors.rs:88-104 | a string accepted as a named colour normalizes to exactly that colour's name |
| `Colors.ParseColorSoundRgb` | src/colors.rs:106-115 | a string accepted as an RGB colour is `rgb(` and three comma-separated parts, each trimming to its byte, then `)` |
| `Colors.ParseColorRgb` | src/colors.rs:106-115 | `rgb(a,b,c)` with three byte-valued parts gives `Rgb(a,b,c)` |
| `Colors.ParseColorBadPart` | src/colors.rs:111-113 | a part that is not a byte (empty, negative (a `-` sign), non-numeric, above 255) makes the literal fail |
| `Colors.ParseColorPartCount` | src/colors.rs:108-116 | an `rgb(...)` literal whose inner text does not have exactly three parts is refused |
| `Colors.ParseColorOther` | src/colors.rs:106-118 | a string that is neither a name nor of the `rgb(...)` shape, for example with a space before `(`, is refused |
| `Colors.ParseColorPadded` | src/colors.rs:86 | surrounding whitespace never changes what a colour string parses to |
| `Colors.ParseColorCase` | src/colors.rs:86 | strings that agree up to letter case parse to the same colour |
| `Colors.DefaultThemeSlots` | src/colors.rs:52-80 | the default theme is White everywhere except auth success Green, auth failure Red and odd command lines Gray |

## Left out

- The input pump thread, the mpsc channel and the tokio runtime (src/tui.rs:58-93) are not modelled. The channel's output is a given sequence of deliveries.
- The detached authentication task (src/tui.rs:102-114) is recorded as a `StartAuthentication` effect. Its progress and errors reach the loop as `Message` deliveries.
- Terminal drawing is not modelled: `terminal.draw` (src/tui.rs:117-211) and every widget builder of src/render.rs except `parse_iso8601_duration`.
- Failures of the terminal and the channel are not modelled as exits of `tui_render`: the `expect` on `enable_raw_mode` (src/tui.rs:56), the `?` on `terminal.draw` (src/tui.rs:211) and the `?` on `rx.recv()` (src/tui.rs:213). The model's loop ends only when its deliveries run out, a key quits, or the handler returns an error.
- The YouTube HTTP calls, the `yt-dlp`/`mpv` subprocesses (src/utilities.rs) and `get_theme_files` are oracles. Their answers arrive in `Replies`, and the handler's `Request` names the call made. `play_song_by_id` is not part of this model; its call is recorded as a `PlayVideo` request.
- The OAuth exchange, browser, local HTTP server and token file I/O (src/authenticate.rs) are not modelled. Only the Ok/Err result of `load_token` is modelled.
- For theme files (`load_theme_from_file`, `load_and_set_theme_from_file`), only the Ok/Err outcome is used. The JSON decoding of the 23 colour slots is not modelled, apart from the per-slot `DeserializeColor` rule.
- The token cache is modelled sequentially, without the `Mutex`/`OnceCell` thread safety.
- App.AppState.EventHandler: a `q` always quits. The `?` on `disable_raw_mode` and `show_cursor` is not modelled because those terminal calls are outside the model; their effect is recorded as a `RestoreTerminal` request.
- App.AppState.EventHandler: the `eprintln!` on a failed token load and the debug-log write of `p` without a token (src/app_state.rs:74, 228) are not modelled, because they are output only.
- Strings.LowerTrim: `to_lowercase` maps only ASCII capitals and KELVIN SIGN. Other non-ASCII characters are kept, which cannot change whether a colour name or number matches.
- src/state_test.rs (a copy of the token cache that is never compiled) and src/main.rs (the entry point) are not part of this model.
