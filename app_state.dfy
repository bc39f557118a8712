/**
 * The application state and its keypress handler (src/app_state.rs).
 *
 * `AppState` is a class whose fields are those of the Rust struct; `EventHandler`
 * updates them field by field, arm by arm, in the order of the Rust `match`. Its
 * contract ties the new state to `Handle`, a pure transition function over `State`
 * snapshots, about which the lemmas at the end state what the program promises.
 *
 * The collaborators the handler calls (YouTube search, playlist listing, theme file
 * discovery, theme loading, playlist playback) are not modelled: their answers come in
 * as a `Replies` value, and the handler reports in a `Request` which of them it
 * called and with what arguments.
 */
module App {
  import opened Wrappers
  import opened Strings

  /** The key codes the handler distinguishes; every other crossterm key code is `OtherKey`. */
  datatype KeyCode = Char(c: char) | Enter | Esc | Backspace | OtherKey

  datatype Event = Input(key: KeyCode) | Tick | Message(text: string)

  datatype MenuItem = Account | Commands | Home | Playlists | Search

  /** The OAuth token: its access secret and an optional refresh secret. */
  datatype Token = Token(accessSecret: string, refreshSecret: Option<string>)

  /** A playlist as listed by the catalogue: (title, id). */
  datatype Playlist = Playlist(title: string, id: string)

  /** A search hit: (title, duration, uploader, video id). */
  datatype Video = Video(title: string, duration: string, uploader: string, id: string)

  /** The Search pane: the query, whether one was run, the hits, and the pick among them. */
  datatype SearchPane = SearchPane(
    input: string,          // search_input
    attempted: bool,        // search_attempted
    typing: bool,           // search_typing
    result: seq<Video>,     // search_result
    selectionMode: bool,    // search_selection_mode
    numberInput: string)    // search_number_input

  /** The user's playlists and the pick among them. */
  datatype PlaylistPane = PlaylistPane(
    list: seq<Playlist>,    // playlists
    numberInput: string,    // playlist_number_input
    selectionMode: bool)    // playlist_selection_mode

  /** The theme files found, the pick among them, and the remembered theme path. */
  datatype ThemePane = ThemePane(
    files: seq<string>,     // themes
    selectionMode: bool,    // theme_selection_mode
    numberInput: string,    // theme_number_input
    selectedPath: string)   // theme_selected_path

  /**
   * A snapshot of every field of `AppState` except `selected_theme`, which the class
   * keeps beside it and `ThemeAfter` specifies. The fields are grouped by pane as in
   * the struct declaration (src/app_state.rs:40-61).
   */
  datatype State = State(
    messages: seq<Notice>,
    authenticated: bool,
    activeMenuItem: MenuItem,
    playlist: PlaylistPane,
    search: SearchPane,
    theme: ThemePane)

  /** What each collaborator answers if the handler calls it during this event. */
  datatype Replies<Theme> = Replies(
    search: Option<seq<Video>>,             // search_videos(..).await.ok()
    playlists: Option<seq<Playlist>>,       // list_playlists(..).await.ok()
    themeFiles: Result<seq<string>, string>, // get_theme_files()
    themeLoad: Result<Theme, string>, // load_theme_from_file(path)
    playback: Result<(), string>)           // play_playlist(..).await

  /** The collaborator call an event made, with its arguments. */
  datatype Request =
    | NoRequest
    | SearchVideos(accessToken: string, query: string)
    | ListPlaylists(accessToken: string)
    | GetThemeFiles
    | LoadTheme(path: string)
    | PlayVideo(videoId: string)
    | PlayPlaylist(accessToken: string, playlistId: string)
    | RestoreTerminal

  /** `Ok(false)`, `Ok(true)` and `Err(e)` of the handler's `Result<bool>`. */
  datatype Outcome = Continue | Quit | Failed(error: string)

  datatype Transition = Transition(state: State, outcome: Outcome, request: Request)

  /** An entry of the message log; `Text` is the line the program shows for it. */
  datatype Notice =
    | NoTokenAvailable | SearchFailed | PlayingVideo(videoId: string) | VideoOutOfRange | InvalidNumber
    | SearchPickCancelled | PlaylistsFailed | ThemeLoaded(path: string) | ThemeLoadFailed(error: string)
    | ThemeOutOfRange | NoValidToken | PlayingPlaylist(title: string) | PlaylistOutOfRange
    | PlaylistPickCancelled | Relayed(text: string)

  function Text(n: Notice): string {
    match n
    case NoTokenAvailable => "No token available"
    case SearchFailed => "Failed to search videos"
    case PlayingVideo(id) => "Playing video " + id
    case VideoOutOfRange => "Video number out of range."
    case InvalidNumber => "Invalid number input."
    case SearchPickCancelled => "Search selection cancelled."
    case PlaylistsFailed => " Failed to fetch playlists"
    case ThemeLoaded(path) => "Theme " + path + " loaded successfully."
    case ThemeLoadFailed(e) => "Failed to load theme: " + e
    case ThemeOutOfRange => "Theme number out of range."
    case NoValidToken => "No valid token."
    case PlayingPlaylist(title) => "Playing playlist: " + title
    case PlaylistOutOfRange => "Playlist number out of range."
    case PlaylistPickCancelled => "Playlist selection cancelled."
    case Relayed(text) => text
  }

  function Stay(s: State): Transition {
    Transition(s, Continue, NoRequest)
  }

  /** `if buffer.len() < 2 { buffer.push(c) }`. */
  function PushDigit(buffer: string, c: char): string {
    if |buffer| < 2 then buffer + [c] else buffer
  }

  /** `String::pop`, result discarded. */
  function DropLast(s: string): string {
    if s == [] then s else s[..|s| - 1]
  }

  predicate TypingSearch(s: State) {
    s.activeMenuItem == Search && s.search.typing
  }

  /** Enter while typing a search (src/app_state.rs:98-123). */
  function OnSearchEnter(s: State, token: Option<Token>, reply: Option<seq<Video>>): Transition {
    var s1 := s.(search := s.search.(attempted := true));
    match token
    case None => Stay(s1.(messages := s.messages + [NoTokenAvailable]))
    case Some(t) =>
      var req := SearchVideos(t.accessSecret, s.search.input);
      match reply
      case Some(found) => Transition(s1.(search := s1.search.(result := found)), Continue, req)
      case None => Transition(s1.(messages := s.messages + [SearchFailed]), Continue, req)
  }

  /** Enter while choosing a search result (src/app_state.rs:140-173). */
  function OnSearchSelect(s: State): Transition {
    var done := s.(search := s.search.(selectionMode := false, numberInput := ""));
    match ParseUnsigned(s.search.numberInput, USIZE_MAX)
    case None => Stay(done.(messages := s.messages + [InvalidNumber]))
    case Some(idx) =>
      if 0 < idx <= |s.search.result| then
        var id := s.search.result[idx - 1].id;
        Transition(done.(messages := s.messages + [PlayingVideo(id)]), Continue, PlayVideo(id))
      else Stay(done.(messages := s.messages + [VideoOutOfRange]))
  }

  /** `h` (src/app_state.rs:211-216): the `?` returns the discovery error after the mode switch. */
  function OnHome(s: State, themeFiles: Result<seq<string>, string>): Transition {
    var s1 := s.(activeMenuItem := Home);
    match themeFiles
    case Ok(files) => Transition(s1.(theme := s.theme.(files := files)), Continue, GetThemeFiles)
    case Err(e) => Transition(s1, Failed(e), GetThemeFiles)
  }

  /** `p` (src/app_state.rs:219-241). */
  function OnPlaylists(s: State, token: Option<Token>, reply: Option<seq<Playlist>>): Transition {
    var s1 := s.(activeMenuItem := Playlists);
    match token
    case None => Stay(s1.(messages := s.messages + [PlaylistsFailed]))
    case Some(t) =>
      var req := ListPlaylists(t.accessSecret);
      match reply
      case Some(found) => Transition(s1.(playlist := s.playlist.(list := found)), Continue, req)
      case None => Transition(s1.(messages := s.messages + [PlaylistsFailed]), Continue, req)
  }

  /** `b` outside Search (src/app_state.rs:243-259); in Home it clears the playlist buffer. */
  function OnBind(s: State): State {
    var s1 := if s.activeMenuItem == Playlists then s.(playlist := s.playlist.(selectionMode := true, numberInput := "")) else s;
    if s1.activeMenuItem == Home
    then s1.(theme := s1.theme.(selectionMode := true), playlist := s1.playlist.(numberInput := ""))
    else s1
  }

  /** Enter while choosing a theme (src/app_state.rs:278-317). */
  function OnThemeSelect<Theme>(s: State, load: Result<Theme, string>): Transition {
    var done := s.(theme := s.theme.(selectionMode := false, numberInput := ""));
    match ParseUnsigned(s.theme.numberInput, USIZE_MAX)
    case None => Stay(done.(messages := s.messages + [InvalidNumber]))
    case Some(idx) =>
      if 0 < idx <= |s.theme.files| then
        var path := s.theme.files[idx - 1];
        match load
        case Ok(_) => Transition(done.(messages := s.messages + [ThemeLoaded(path)]), Continue, LoadTheme(path))
        case Err(e) => Transition(done.(messages := s.messages + [ThemeLoadFailed(e)]), Continue, LoadTheme(path))
      else Stay(done.(messages := s.messages + [ThemeOutOfRange]))
  }

  /** Enter while choosing a playlist (src/app_state.rs:320-355): the `?` on playback skips the reset. */
  function OnPlaylistSelect(s: State, token: Option<Token>, playback: Result<(), string>): Transition {
    var done := s.(playlist := s.playlist.(selectionMode := false, numberInput := ""));
    match ParseUnsigned(s.playlist.numberInput, USIZE_MAX)
    case None => Stay(done.(messages := s.messages + [InvalidNumber]))
    case Some(idx) =>
      if !(0 < idx <= |s.playlist.list|) then Stay(done.(messages := s.messages + [PlaylistOutOfRange]))
      else
        match token
        case None => Stay(done.(messages := s.messages + [NoValidToken]))
        case Some(t) =>
          var p := s.playlist.list[idx - 1];
          var req := PlayPlaylist(t.accessSecret, p.id);
          match playback
          case Err(e) => Transition(s, Failed(e), req)
          case Ok(_) => Transition(done.(messages := s.messages + [PlayingPlaylist(p.title)]), Continue, req)
  }

  /**
   * The arms of the key `match` in src/app_state.rs, grouped by what they work on:
   * editing the search query, picking a search result, switching menus, and picking
   * from the playlist or theme list. The character arms carry their character.
   */
  datatype QueryArm = TypeQueryChar(c: char) | StartSearch | SubmitQuery | StopTyping | EraseQueryChar
  datatype ResultArm = ArmResultPick | ResultDigit(d: char) | PickResult | CancelResultPick
  datatype MenuArm = QuitApp | OpenAccount | OpenCommands | OpenHome | OpenPlaylists | ArmPick
  datatype ListArm = PlaylistDigit(d: char) | ThemeDigit(d: char) | PickTheme | PickPlaylist | CancelPlaylistPick | NoArm
  datatype Arm = Query(q: QueryArm) | ResultPick(p: ResultArm) | Menu(m: MenuArm) | ListPick(l: ListArm)

  /** The first arm whose pattern and guard accept `key` in state `s`. */
  function ArmFor(s: State, key: KeyCode): Arm {
    if key.Char? && TypingSearch(s) then Query(TypeQueryChar(key.c))
    else if key == Char('s') then Query(StartSearch)
    else if key == Enter && TypingSearch(s) then Query(SubmitQuery)
    else if key == Char('b') && s.activeMenuItem == Search then ResultPick(ArmResultPick)
    else if key.Char? && s.search.selectionMode && IsAsciiDigit(key.c) then ResultPick(ResultDigit(key.c))
    else if key == Enter && s.search.selectionMode then ResultPick(PickResult)
    else if key == Esc && s.search.selectionMode then ResultPick(CancelResultPick)
    else if key == Esc && TypingSearch(s) then Query(StopTyping)
    else if key == Backspace && TypingSearch(s) then Query(EraseQueryChar)
    else if key == Char('q') then Menu(QuitApp)
    else if key == Char('a') then Menu(OpenAccount)
    else if key == Char('c') then Menu(OpenCommands)
    else if key == Char('h') then Menu(OpenHome)
    else if key == Char('p') then Menu(OpenPlaylists)
    else if key == Char('b') then Menu(ArmPick)
    else if key.Char? && s.playlist.selectionMode && IsAsciiDigit(key.c) then ListPick(PlaylistDigit(key.c))
    else if key.Char? && s.theme.selectionMode && IsAsciiDigit(key.c) then ListPick(ThemeDigit(key.c))
    else if key == Enter && s.theme.selectionMode then ListPick(PickTheme)
    else if key == Enter && s.playlist.selectionMode then ListPick(PickPlaylist)
    else if key == Esc && s.playlist.selectionMode then ListPick(CancelPlaylistPick)
    else ListPick(NoArm)
  }

  function QueryKey(a: QueryArm, s: State, token: Option<Token>, search: Option<seq<Video>>): Transition {
    match a
    case TypeQueryChar(c) => Stay(s.(search := s.search.(input := s.search.input + [c])))
    case StartSearch =>
      Stay(s.(activeMenuItem := Search, search := s.search.(input := "", result := [], attempted := false, typing := true)))
    case SubmitQuery => OnSearchEnter(s, token, search)
    case StopTyping => Stay(s.(search := s.search.(typing := false, input := "")))
    case EraseQueryChar => Stay(s.(search := s.search.(input := DropLast(s.search.input))))
  }

  function ResultPickKey(a: ResultArm, s: State): Transition {
    match a
    case ArmResultPick => Stay(s.(search := s.search.(selectionMode := true, numberInput := "")))
    case ResultDigit(d) => Stay(s.(search := s.search.(numberInput := PushDigit(s.search.numberInput, d))))
    case PickResult => OnSearchSelect(s)
    case CancelResultPick =>
      Stay(s.(search := s.search.(selectionMode := false, numberInput := ""), messages := s.messages + [SearchPickCancelled]))
  }

  function MenuKey<Theme>(a: MenuArm, s: State, token: Option<Token>, r: Replies<Theme>): Transition {
    match a
    case QuitApp => Transition(s, Quit, RestoreTerminal)
    case OpenAccount => Stay(s.(messages := [], authenticated := false, activeMenuItem := Account))
    case OpenCommands => Stay(s.(activeMenuItem := Commands))
    case OpenHome => OnHome(s, r.themeFiles)
    case OpenPlaylists => OnPlaylists(s, token, r.playlists)
    case ArmPick => Stay(OnBind(s))
  }

  function ListPickKey<Theme>(a: ListArm, s: State, token: Option<Token>, r: Replies<Theme>): Transition {
    match a
    case PlaylistDigit(d) => Stay(s.(playlist := s.playlist.(numberInput := PushDigit(s.playlist.numberInput, d))))
    case ThemeDigit(d) => Stay(s.(theme := s.theme.(numberInput := PushDigit(s.theme.numberInput, d))))
    case PickTheme => OnThemeSelect(s, r.themeLoad)
    case PickPlaylist => OnPlaylistSelect(s, token, r.playback)
    case CancelPlaylistPick =>
      Stay(s.(playlist := s.playlist.(selectionMode := false, numberInput := ""), messages := s.messages + [PlaylistPickCancelled]))
    case NoArm => Stay(s)
  }

  /** What the arm chosen by `ArmFor` does. */
  function KeyPress<Theme>(s: State, key: KeyCode, token: Option<Token>, r: Replies<Theme>): Transition {
    match ArmFor(s, key)
    case Query(a) => QueryKey(a, s, token, r.search)
    case ResultPick(a) => ResultPickKey(a, s)
    case Menu(a) => MenuKey(a, s, token, r)
    case ListPick(a) => ListPickKey(a, s, token, r)
  }

  /** `event_handler` after the token reload: only key input changes anything. */
  function Handle<Theme>(s: State, event: Event, token: Option<Token>, r: Replies<Theme>): Transition {
    match event
    case Input(key) => KeyPress(s, key, token, r)
    case _ => Stay(s)
  }

  /** The token the cache holds after `load_and_set_token`. */
  function TokenAfterLoad(cached: Option<Token>, loaded: Result<Token, string>): Option<Token> {
    match loaded
    case Ok(t) => Some(t)
    case Err(_) => cached
  }

  /** The most recently set token, if any. */
  function Latest(history: seq<Token>): Option<Token> {
    if history == [] then None else Some(history[|history| - 1])
  }

  /** The process-wide token cache (`OAUTH_TOKEN`), modelled sequentially. */
  class TokenStore {
    var cached: Option<Token>
    /** Every token ever set, oldest first. */
    ghost var history: seq<Token>

    ghost predicate Valid()
      reads this
    {
      cached == Latest(history)
    }

    /** The cache before the first `set_token`: the `OnceCell` is still empty. */
    constructor ()
      ensures Valid() && history == [] && cached == None
    {
      cached := None;
      history := [];
    }

    /** `set_token`. */
    method Set(token: Token)
      requires Valid()
      modifies this
      ensures Valid() && history == old(history) + [token] && cached == Some(token)
    {
      cached := Some(token);
      history := history + [token];
    }

    /** `get_token`: nothing before any `set_token`, the latest token afterwards. */
    method Get() returns (token: Option<Token>)
      requires Valid()
      ensures token == Latest(history)
      ensures history == [] ==> token == None
      ensures history != [] ==> token == Some(history[|history| - 1])
    {
      token := cached;
    }

    /** `load_and_set_token`: a failed load leaves the cache as it was. */
    method LoadAndSet(loaded: Result<Token, string>) returns (r: Result<(), string>)
      requires Valid()
      modifies this
      ensures Valid()
      ensures history == if loaded.Ok? then old(history) + [loaded.value] else old(history)
      ensures cached == TokenAfterLoad(old(cached), loaded)
      ensures r == if loaded.Ok? then Ok(()) else Err(loaded.error)
    {
      match loaded
      case Ok(t) =>
        Set(t);
        r := Ok(());
      case Err(e) =>
        r := Err(e);
    }
  }

  /** The state `tui_render` starts from (src/tui.rs:34-53). */
  function InitialState(): State {
    State([], false, Home, PlaylistPane([], "", false), SearchPane("", false, false, [], false, ""),
          ThemePane([], false, "", "themes/blue_theme.json"))
  }

  /** The selected theme after transition `t`: only a successful theme load replaces it. */
  function ThemeAfter<Theme>(t: Transition, load: Result<Theme, string>, current: Theme): Theme {
    if t.request.LoadTheme? && load.Ok? then load.value else current
  }

  /**
   * `AppState`. The struct's fields come in groups (src/app_state.rs:40-61); the class
   * keeps the ungrouped ones as fields of their own and each group as one field
   * holding a pane value, which the arms update field by field.
   */
  class AppState<Theme> {
    var messages: seq<Notice>
    var authenticated: bool
    var activeMenuItem: MenuItem
    var playlist: PlaylistPane
    var search: SearchPane
    var selectedTheme: Theme
    var theme: ThemePane

    function Snapshot(): State
      reads this
    {
      State(messages, authenticated, activeMenuItem, playlist, search, theme)
    }

    /** The struct literal of `tui_render`, whose `selected_theme` is `theme`. */
    constructor Initial(selected: Theme)
      ensures Snapshot() == InitialState() && selectedTheme == selected
    {
      messages := [];
      authenticated := false;
      activeMenuItem := Home;
      playlist := PlaylistPane([], "", false);
      search := SearchPane("", false, false, [], false, "");
      selectedTheme := selected;
      theme := ThemePane([], false, "", "themes/blue_theme.json");
    }

    method SubmitSearch(store: TokenStore, reply: Option<seq<Video>>) returns (outcome: Outcome, request: Request)
      requires store.Valid()
      modifies this
      ensures Transition(Snapshot(), outcome, request) == OnSearchEnter(old(Snapshot()), store.cached, reply)
      ensures selectedTheme == old(selectedTheme)
    {
      search := search.(attempted := true);
      outcome, request := Continue, NoRequest;
      var token := store.Get();
      if token.Some? {
        request := SearchVideos(token.value.accessSecret, search.input);
        if reply.Some? {
          search := search.(result := reply.value);
        } else {
          messages := messages + [SearchFailed];
        }
      } else {
        messages := messages + [NoTokenAvailable];
      }
    }

    method PlaySearchResult() returns (outcome: Outcome, request: Request)
      modifies this
      ensures Transition(Snapshot(), outcome, request) == OnSearchSelect(old(Snapshot()))
      ensures selectedTheme == old(selectedTheme)
    {
      outcome, request := Continue, NoRequest;
      var idx := ParseUnsigned(search.numberInput, USIZE_MAX);
      if idx.Some? {
        if idx.value > 0 && idx.value <= |search.result| {
          var id := search.result[idx.value - 1].id;
          request := PlayVideo(id);
          messages := messages + [PlayingVideo(id)];
        } else {
          messages := messages + [VideoOutOfRange];
        }
      } else {
        messages := messages + [InvalidNumber];
      }
      search := search.(selectionMode := false, numberInput := "");
    }

    method ShowHome(themeFiles: Result<seq<string>, string>) returns (outcome: Outcome, request: Request)
      modifies this
      ensures Transition(Snapshot(), outcome, request) == OnHome(old(Snapshot()), themeFiles)
      ensures selectedTheme == old(selectedTheme)
    {
      activeMenuItem := Home;
      request := GetThemeFiles;
      if themeFiles.Err? {
        return Failed(themeFiles.error), request;
      }
      theme := theme.(files := themeFiles.value);
      outcome := Continue;
    }

    method FetchPlaylists(store: TokenStore, reply: Option<seq<Playlist>>) returns (outcome: Outcome, request: Request)
      requires store.Valid()
      modifies this
      ensures Transition(Snapshot(), outcome, request) == OnPlaylists(old(Snapshot()), store.cached, reply)
      ensures selectedTheme == old(selectedTheme)
    {
      activeMenuItem := Playlists;
      outcome, request := Continue, NoRequest;
      var token := store.Get();
      var fetched: Option<seq<Playlist>> := None;
      if token.Some? {
        request := ListPlaylists(token.value.accessSecret);
        fetched := reply;
      }
      if fetched.Some? {
        playlist := playlist.(list := fetched.value);
      } else {
        messages := messages + [PlaylistsFailed];
      }
    }

    method Bind()
      modifies this
      ensures Snapshot() == OnBind(old(Snapshot()))
      ensures selectedTheme == old(selectedTheme)
    {
      if activeMenuItem == Playlists {
        activeMenuItem := Playlists;
        playlist := playlist.(selectionMode := true, numberInput := "");
      }
      if activeMenuItem == Home {
        activeMenuItem := Home;
        theme := theme.(selectionMode := true);
        playlist := playlist.(numberInput := "");
      }
    }

    method ApplyTheme(load: Result<Theme, string>) returns (outcome: Outcome, request: Request)
      modifies this
      ensures Transition(Snapshot(), outcome, request) == OnThemeSelect(old(Snapshot()), load)
      ensures selectedTheme == ThemeAfter(Transition(Snapshot(), outcome, request), load, old(selectedTheme))
    {
      outcome, request := Continue, NoRequest;
      var idx := ParseUnsigned(theme.numberInput, USIZE_MAX);
      if idx.Some? {
        if idx.value > 0 && idx.value <= |theme.files| {
          var path := theme.files[idx.value - 1];
          request := LoadTheme(path);
          match load {
            case Ok(loaded) =>
              selectedTheme := loaded;
              messages := messages + [ThemeLoaded(path)];
            case Err(e) =>
              messages := messages + [ThemeLoadFailed(e)];
          }
        } else {
          messages := messages + [ThemeOutOfRange];
        }
      } else {
        messages := messages + [InvalidNumber];
      }
      theme := theme.(selectionMode := false, numberInput := "");
    }

    method PlaySelectedPlaylist(store: TokenStore, playback: Result<(), string>) returns (outcome: Outcome, request: Request)
      requires store.Valid()
      modifies this
      ensures Transition(Snapshot(), outcome, request) == OnPlaylistSelect(old(Snapshot()), store.cached, playback)
      ensures selectedTheme == old(selectedTheme)
    {
      outcome, request := Continue, NoRequest;
      var idx := ParseUnsigned(playlist.numberInput, USIZE_MAX);
      if idx.Some? {
        if idx.value > 0 && idx.value <= |playlist.list| {
          var token := store.Get();
          if token.Some? {
            var chosen := playlist.list[idx.value - 1];
            request := PlayPlaylist(token.value.accessSecret, chosen.id);
            if playback.Err? {
              return Failed(playback.error), request;
            }
            messages := messages + [PlayingPlaylist(chosen.title)];
          } else {
            messages := messages + [NoValidToken];
          }
        } else {
          messages := messages + [PlaylistOutOfRange];
        }
      } else {
        messages := messages + [InvalidNumber];
      }
      playlist := playlist.(selectionMode := false, numberInput := "");
    }

    /** `event_handler`: reload the token, then run the first matching arm. */
    method EventHandler(event: Event, store: TokenStore, loaded: Result<Token, string>, replies: Replies<Theme>)
      returns (outcome: Outcome, request: Request)
      requires store.Valid()
      modifies this, store
      ensures store.Valid()
      ensures store.history == if loaded.Ok? then old(store.history) + [loaded.value] else old(store.history)
      ensures store.cached == TokenAfterLoad(old(store.cached), loaded)
      ensures Transition(Snapshot(), outcome, request) == Handle(old(Snapshot()), event, store.cached, replies)
      ensures selectedTheme == ThemeAfter(Transition(Snapshot(), outcome, request), replies.themeLoad, old(selectedTheme))
    {
      var _ := store.LoadAndSet(loaded);
      outcome, request := Continue, NoRequest;
      if !event.Input? {
        return;
      }
      outcome, request := PressKey(event.key, store, replies);
    }

    /** The arm `ArmFor` picks, run on the fields. */
    method PressKey(key: KeyCode, store: TokenStore, replies: Replies<Theme>) returns (outcome: Outcome, request: Request)
      requires store.Valid()
      modifies this
      ensures Transition(Snapshot(), outcome, request) == KeyPress(old(Snapshot()), key, store.cached, replies)
      ensures selectedTheme == ThemeAfter(Transition(Snapshot(), outcome, request), replies.themeLoad, old(selectedTheme))
    {
      match ArmFor(Snapshot(), key) {
        case Query(a) =>
          outcome, request := EditQuery(a, store, replies.search);
        case ResultPick(a) =>
          outcome, request := PickSearchResult(a);
        case Menu(a) =>
          outcome, request := SwitchMenu(a, store, replies);
        case ListPick(a) =>
          outcome, request := PickFromList(a, store, replies);
      }
    }

    method EditQuery(a: QueryArm, store: TokenStore, reply: Option<seq<Video>>) returns (outcome: Outcome, request: Request)
      requires store.Valid()
      modifies this
      ensures Transition(Snapshot(), outcome, request) == QueryKey(a, old(Snapshot()), store.cached, reply)
      ensures selectedTheme == old(selectedTheme)
    {
      outcome, request := Continue, NoRequest;
      match a {
        case TypeQueryChar(c) =>
          search := search.(input := search.input + [c]);
        case StartSearch =>
          activeMenuItem := Search;
          search := search.(input := "", result := [], attempted := false, typing := true);
        case SubmitQuery =>
          outcome, request := SubmitSearch(store, reply);
        case StopTyping =>
          search := search.(typing := false, input := "");
        case EraseQueryChar =>
          if search.input != [] {
            search := search.(input := search.input[..|search.input| - 1]);
          }
      }
    }

    method PickSearchResult(a: ResultArm) returns (outcome: Outcome, request: Request)
      modifies this
      ensures Transition(Snapshot(), outcome, request) == ResultPickKey(a, old(Snapshot()))
      ensures selectedTheme == old(selectedTheme)
    {
      outcome, request := Continue, NoRequest;
      match a {
        case ArmResultPick =>
          search := search.(selectionMode := true, numberInput := "");
        case ResultDigit(d) =>
          if |search.numberInput| < 2 {
            search := search.(numberInput := search.numberInput + [d]);
          }
        case PickResult =>
          outcome, request := PlaySearchResult();
        case CancelResultPick =>
          search := search.(selectionMode := false, numberInput := "");
          messages := messages + [SearchPickCancelled];
      }
    }

    method SwitchMenu(a: MenuArm, store: TokenStore, replies: Replies<Theme>) returns (outcome: Outcome, request: Request)
      requires store.Valid()
      modifies this
      ensures Transition(Snapshot(), outcome, request) == MenuKey(a, old(Snapshot()), store.cached, replies)
      ensures selectedTheme == old(selectedTheme)
    {
      outcome, request := Continue, NoRequest;
      match a {
        case QuitApp =>
          outcome, request := Quit, RestoreTerminal;
        case OpenAccount =>
          messages := [];
          authenticated := false;
          activeMenuItem := Account;
        case OpenCommands =>
          activeMenuItem := Commands;
        case OpenHome =>
          outcome, request := ShowHome(replies.themeFiles);
        case OpenPlaylists =>
          outcome, request := FetchPlaylists(store, replies.playlists);
        case ArmPick =>
          Bind();
      }
    }

    method PickFromList(a: ListArm, store: TokenStore, replies: Replies<Theme>) returns (outcome: Outcome, request: Request)
      requires store.Valid()
      modifies this
      ensures Transition(Snapshot(), outcome, request) == ListPickKey(a, old(Snapshot()), store.cached, replies)
      ensures selectedTheme == ThemeAfter(Transition(Snapshot(), outcome, request), replies.themeLoad, old(selectedTheme))
    {
      outcome, request := Continue, NoRequest;
      match a {
        case PlaylistDigit(d) =>
          if |playlist.numberInput| < 2 {
            playlist := playlist.(numberInput := playlist.numberInput + [d]);
          }
        case ThemeDigit(d) =>
          if |theme.numberInput| < 2 {
            theme := theme.(numberInput := theme.numberInput + [d]);
          }
        case PickTheme =>
          outcome, request := ApplyTheme(replies.themeLoad);
        case PickPlaylist =>
          outcome, request := PlaySelectedPlaylist(store, replies.playback);
        case CancelPlaylistPick =>
          playlist := playlist.(selectionMode := false, numberInput := "");
          messages := messages + [PlaylistPickCancelled];
        case NoArm =>
      }
    }
  }

  // Properties of the handler.

  /** The 0-based position a digit buffer selects in a list of `length` items, if any. */
  function Selected(buffer: string, length: nat): (r: Option<nat>)
    ensures r.Some? ==> r.value < length
  {
    match ParseUnsigned(buffer, USIZE_MAX)
    case Some(n) => if 1 <= n <= length then Some(n - 1) else None
    case None => None
  }

  /** A selection buffer: at most two ASCII digits. */
  predicate DigitBuffer(b: string) {
    |b| <= 2 && AllDigits(b)
  }

  predicate BuffersBounded(s: State) {
    DigitBuffer(s.search.numberInput) && DigitBuffer(s.playlist.numberInput) && DigitBuffer(s.theme.numberInput)
  }

  /** The states a sequence of key presses passes through, ending in the last one. */
  function Keys<Theme>(s: State, keys: seq<KeyCode>, token: Option<Token>, r: Replies<Theme>): State
    decreases |keys|
  {
    if keys == [] then s else Keys(KeyPress(s, keys[0], token, r).state, keys[1..], token, r)
  }

  lemma PushDigitBounded(b: string, c: char)
    requires DigitBuffer(b) && IsAsciiDigit(c)
    ensures DigitBuffer(PushDigit(b, c))
    ensures |b| < 2 ==> PushDigit(b, c) == b + [c]
    ensures |b| == 2 ==> PushDigit(b, c) == b
  {
  }

  /** A bounded buffer reads as a number of at most 99, and fails to read only when empty. */
  lemma BufferNumber(b: string)
    requires DigitBuffer(b)
    ensures ParseUnsigned(b, USIZE_MAX) == if b == [] then None else Some(DigitsValue(b))
    ensures DigitsValue(b) <= 99
  {
    if |b| == 2 {
      assert b[..1][..0] == [];
      assert DigitsValue(b[..1]) == DigitValue(b[0]) <= 9;
      assert DigitsValue(b) == DigitsValue(b[..1]) * 10 + DigitValue(b[1]);
    } else if |b| == 1 {
      assert b[..0] == [];
      assert DigitsValue(b) == DigitValue(b[0]);
    }
  }

  lemma SelectedBuffer(b: string, length: nat)
    requires DigitBuffer(b)
    ensures Selected(b, length).Some? <==> b != [] && 1 <= DigitsValue(b) <= length
    ensures Selected(b, length).Some? ==> Selected(b, length).value == DigitsValue(b) - 1
  {
    BufferNumber(b);
  }

  lemma InitialBuffersBounded()
    ensures BuffersBounded(InitialState())
  {
  }

  lemma QueryKeepsBuffers(a: QueryArm, s: State, token: Option<Token>, search: Option<seq<Video>>)
    requires BuffersBounded(s)
    ensures BuffersBounded(QueryKey(a, s, token, search).state)
  {
  }

  lemma ResultPickKeepsBuffers(a: ResultArm, s: State)
    requires BuffersBounded(s)
    requires a.ResultDigit? ==> IsAsciiDigit(a.d)
    ensures BuffersBounded(ResultPickKey(a, s).state)
  {
    if a.ResultDigit? {
      PushDigitBounded(s.search.numberInput, a.d);
    }
  }

  lemma MenuKeepsBuffers<Theme>(a: MenuArm, s: State, token: Option<Token>, r: Replies<Theme>)
    requires BuffersBounded(s)
    ensures BuffersBounded(MenuKey(a, s, token, r).state)
  {
  }

  lemma ListPickKeepsBuffers<Theme>(a: ListArm, s: State, token: Option<Token>, r: Replies<Theme>)
    requires BuffersBounded(s)
    requires a.PlaylistDigit? || a.ThemeDigit? ==> IsAsciiDigit(a.d)
    ensures BuffersBounded(ListPickKey(a, s, token, r).state)
  {
    match a
    case PlaylistDigit(d) => PushDigitBounded(s.playlist.numberInput, d);
    case ThemeDigit(d) => PushDigitBounded(s.theme.numberInput, d);
    case _ =>
  }

  /** The digit arms are chosen only for ASCII digits. */
  lemma DigitArmsTakeDigits(s: State, key: KeyCode)
    ensures ArmFor(s, key).ResultPick? && ArmFor(s, key).p.ResultDigit? ==> IsAsciiDigit(ArmFor(s, key).p.d)
    ensures ArmFor(s, key).ListPick? && (ArmFor(s, key).l.PlaylistDigit? || ArmFor(s, key).l.ThemeDigit?) ==> IsAsciiDigit(ArmFor(s, key).l.d)
  {
  }

  /** No event lets a selection buffer grow past two digits or take a non-digit. */
  lemma HandleKeepsBuffersBounded<Theme>(s: State, event: Event, token: Option<Token>, r: Replies<Theme>)
    requires BuffersBounded(s)
    ensures BuffersBounded(Handle(s, event, token, r).state)
  {
    if event.Input? {
      DigitArmsTakeDigits(s, event.key);
      match ArmFor(s, event.key)
      case Query(a) => QueryKeepsBuffers(a, s, token, r.search);
      case ResultPick(a) => ResultPickKeepsBuffers(a, s);
      case Menu(a) => MenuKeepsBuffers(a, s, token, r);
      case ListPick(a) => ListPickKeepsBuffers(a, s, token, r);
    }
  }

  lemma {:induction false} KeysKeepBuffersBounded<Theme>(s: State, keys: seq<KeyCode>, token: Option<Token>, r: Replies<Theme>)
    requires BuffersBounded(s)
    ensures BuffersBounded(Keys(s, keys, token, r))
    decreases |keys|
  {
    if keys != [] {
      HandleKeepsBuffersBounded(s, Input(keys[0]), token, r);
      KeysKeepBuffersBounded(KeyPress(s, keys[0], token, r).state, keys[1..], token, r);
    }
  }

  /** Ticks and relayed messages reach the handler only to reload the token; nothing else changes. */
  lemma OnlyInputActs<Theme>(s: State, event: Event, token: Option<Token>, r: Replies<Theme>)
    requires !event.Input?
    ensures Handle(s, event, token, r) == Stay(s)
  {
  }

  /** `q` is the only quit, and it is an ordinary character while a query is typed. */
  lemma QuitOnlyOnQ<Theme>(s: State, event: Event, token: Option<Token>, r: Replies<Theme>)
    ensures Handle(s, event, token, r).outcome == Quit <==> event == Input(Char('q')) && !TypingSearch(s)
    ensures Handle(s, event, token, r).outcome == Quit ==> Handle(s, event, token, r) == Transition(s, Quit, RestoreTerminal)
  {
    if event.Input? {
      match ArmFor(s, event.key)
      case Query(a) =>
      case ResultPick(a) =>
      case Menu(a) =>
      case ListPick(a) =>
    }
  }

  /** The handler fails only with the error of theme discovery or of playlist playback. */
  lemma FailuresComeFromCollaborators<Theme>(s: State, key: KeyCode, token: Option<Token>, r: Replies<Theme>)
    ensures var t := KeyPress(s, key, token, r);
      t.outcome.Failed? ==>
        || (ArmFor(s, key) == Menu(OpenHome) && r.themeFiles == Err(t.outcome.error)
            && t.request == GetThemeFiles && t.state == s.(activeMenuItem := Home))
        || (ArmFor(s, key) == ListPick(PickPlaylist) && r.playback == Err(t.outcome.error)
            && t.request.PlayPlaylist? && t.state == s)
  {
    match ArmFor(s, key)
    case Query(a) =>
      assert !QueryKey(a, s, token, r.search).outcome.Failed?;
    case ResultPick(a) =>
      assert !ResultPickKey(a, s).outcome.Failed?;
    case Menu(a) =>
      assert MenuKey(a, s, token, r).outcome.Failed? ==> a == OpenHome;
    case ListPick(a) =>
      assert ListPickKey(a, s, token, r).outcome.Failed? ==> a == PickPlaylist;
  }

  /** Every catalogue or playback request carries the cached token's access secret; none is made without one. */
  lemma RequestsUseCachedToken<Theme>(s: State, key: KeyCode, token: Option<Token>, r: Replies<Theme>)
    ensures var q := KeyPress(s, key, token, r).request;
      (q.SearchVideos? || q.ListPlaylists? || q.PlayPlaylist?) ==> token.Some? && q.accessToken == token.value.accessSecret
  {
    match ArmFor(s, key)
    case Query(a) => QueryRequestsUseToken(a, s, token, r.search);
    case ResultPick(a) =>
    case Menu(a) => MenuRequestsUseToken(a, s, token, r);
    case ListPick(a) => ListPickRequestsUseToken(a, s, token, r);
  }

  lemma QueryRequestsUseToken(a: QueryArm, s: State, token: Option<Token>, search: Option<seq<Video>>)
    ensures var q := QueryKey(a, s, token, search).request;
      q.SearchVideos? ==> token.Some? && q.accessToken == token.value.accessSecret
    ensures !QueryKey(a, s, token, search).request.ListPlaylists? && !QueryKey(a, s, token, search).request.PlayPlaylist?
  {
  }

  lemma MenuRequestsUseToken<Theme>(a: MenuArm, s: State, token: Option<Token>, r: Replies<Theme>)
    ensures var q := MenuKey(a, s, token, r).request;
      q.ListPlaylists? ==> token.Some? && q.accessToken == token.value.accessSecret
    ensures !MenuKey(a, s, token, r).request.SearchVideos? && !MenuKey(a, s, token, r).request.PlayPlaylist?
  {
  }

  lemma ListPickRequestsUseToken<Theme>(a: ListArm, s: State, token: Option<Token>, r: Replies<Theme>)
    ensures var q := ListPickKey(a, s, token, r).request;
      q.PlayPlaylist? ==> token.Some? && q.accessToken == token.value.accessSecret
    ensures !ListPickKey(a, s, token, r).request.SearchVideos? && !ListPickKey(a, s, token, r).request.ListPlaylists?
  {
  }

  /** Only a successful load of a listed theme, picked with Enter, replaces the selected theme. */
  lemma ThemeChangesOnlyOnPick<Theme>(s: State, key: KeyCode, token: Option<Token>, r: Replies<Theme>, current: Theme)
    ensures var t := KeyPress(s, key, token, r);
      ThemeAfter(t, r.themeLoad, current) != current ==>
        && ArmFor(s, key) == ListPick(PickTheme) && r.themeLoad.Ok?
        && Selected(s.theme.numberInput, |s.theme.files|).Some?
        && t.request == LoadTheme(s.theme.files[Selected(s.theme.numberInput, |s.theme.files|).value])
  {
  }

  /** While a query is typed every character, command letters included, goes into the query. */
  lemma TypingCapturesCharacters<Theme>(s: State, c: char, token: Option<Token>, r: Replies<Theme>)
    requires TypingSearch(s)
    ensures KeyPress(s, Char(c), token, r) == Stay(s.(search := s.search.(input := s.search.input + [c])))
  {
  }

  lemma BackspaceErases<Theme>(s: State, token: Option<Token>, r: Replies<Theme>)
    requires TypingSearch(s)
    ensures var t := KeyPress(s, Backspace, token, r);
      && t == Stay(t.state) && t.state == s.(search := s.search.(input := t.state.search.input))
      && t.state.search.input == if s.search.input == [] then [] else s.search.input[..|s.search.input| - 1]
  {
  }

  /** `s` starts a fresh query whatever the state, and leaves the selection flags alone. */
  lemma StartSearchResets<Theme>(s: State, token: Option<Token>, r: Replies<Theme>)
    requires !TypingSearch(s)
    ensures var t := KeyPress(s, Char('s'), token, r);
      && t == Stay(t.state)
      && TypingSearch(t.state)
      && t.state.search.input == [] && t.state.search.result == [] && !t.state.search.attempted
      && t.state == s.(activeMenuItem := Search, search := s.search.(input := [], result := [], attempted := false, typing := true))
  {
  }

  /** Enter while typing runs the search with the cached token; typing mode stays on. */
  lemma SubmitSearchSpec<Theme>(s: State, token: Option<Token>, r: Replies<Theme>)
    requires TypingSearch(s)
    ensures var t := KeyPress(s, Enter, token, r);
      && t.outcome == Continue
      && t.request == (if token.Some? then SearchVideos(token.value.accessSecret, s.search.input) else NoRequest)
      && t.state.search.result == (if token.Some? && r.search.Some? then r.search.value else s.search.result)
      && t.state.messages == s.messages + (if token.None? then [NoTokenAvailable] else if r.search.None? then [SearchFailed] else [])
      && t.state == s.(search := s.search.(attempted := true, result := t.state.search.result), messages := t.state.messages)
      && TypingSearch(t.state)
  {
  }

  /** The menu arms other than `b` leave every selection flag and buffer as they were. */
  lemma MenuKeepsSelections<Theme>(a: MenuArm, s: State, token: Option<Token>, r: Replies<Theme>)
    requires a != ArmPick
    ensures var t := MenuKey(a, s, token, r).state;
      && t.search.selectionMode == s.search.selectionMode && t.search.numberInput == s.search.numberInput
      && t.playlist.selectionMode == s.playlist.selectionMode && t.playlist.numberInput == s.playlist.numberInput
      && t.theme.selectionMode == s.theme.selectionMode && t.theme.numberInput == s.theme.numberInput
  {
  }

  /** Menu letters outside a query leave every selection flag and buffer as they were. */
  lemma MenuKeysKeepSelections<Theme>(s: State, c: char, token: Option<Token>, r: Replies<Theme>)
    requires c in "acshp" && !TypingSearch(s)
    ensures var t := KeyPress(s, Char(c), token, r);
      && t.state.search.selectionMode == s.search.selectionMode && t.state.search.numberInput == s.search.numberInput
      && t.state.playlist.selectionMode == s.playlist.selectionMode && t.state.playlist.numberInput == s.playlist.numberInput
      && t.state.theme.selectionMode == s.theme.selectionMode && t.state.theme.numberInput == s.theme.numberInput
  {
    if c == 's' {
      assert ArmFor(s, Char(c)) == Query(StartSearch);
    } else {
      var a := if c == 'a' then OpenAccount else if c == 'c' then OpenCommands else if c == 'h' then OpenHome else OpenPlaylists;
      assert ArmFor(s, Char(c)) == Menu(a);
      MenuKeepsSelections(a, s, token, r);
    }
  }

  /** `a` clears the log, drops the authenticated flag and opens Account. */
  lemma AccountKey<Theme>(s: State, token: Option<Token>, r: Replies<Theme>)
    requires !TypingSearch(s)
    ensures KeyPress(s, Char('a'), token, r) == Stay(s.(messages := [], authenticated := false, activeMenuItem := Account))
  {
  }

  /** `h` opens Home even when theme discovery fails, and then fails with its error. */
  lemma HomeKey<Theme>(s: State, token: Option<Token>, r: Replies<Theme>)
    requires !TypingSearch(s)
    ensures var t := KeyPress(s, Char('h'), token, r);
      && t.request == GetThemeFiles
      && (r.themeFiles.Ok? ==> t.outcome == Continue && t.state == s.(activeMenuItem := Home, theme := s.theme.(files := r.themeFiles.value)))
      && (r.themeFiles.Err? ==> t.outcome == Failed(r.themeFiles.error) && t.state == s.(activeMenuItem := Home))
  {
  }

  /** `p` opens Playlists and replaces the list only with a fetched one; otherwise it logs the failure. */
  lemma PlaylistsKey<Theme>(s: State, token: Option<Token>, r: Replies<Theme>)
    requires !TypingSearch(s)
    ensures var t := KeyPress(s, Char('p'), token, r);
      var fetched := token.Some? && r.playlists.Some?;
      && t.outcome == Continue
      && t.request == (if token.Some? then ListPlaylists(token.value.accessSecret) else NoRequest)
      && t.state == s.(activeMenuItem := Playlists,
                       playlist := s.playlist.(list := if fetched then r.playlists.value else s.playlist.list),
                       messages := if fetched then s.messages else s.messages + [PlaylistsFailed])
  {
  }

  /** `b` arms the selection of the current menu; in Home it also clears the playlist buffer, not the theme one. */
  lemma BindArmsSelection<Theme>(s: State, token: Option<Token>, r: Replies<Theme>)
    requires !TypingSearch(s)
    ensures var t := KeyPress(s, Char('b'), token, r);
      && t == Stay(t.state)
      && (s.activeMenuItem == Search ==> t.state == s.(search := s.search.(selectionMode := true, numberInput := "")))
      && (s.activeMenuItem == Playlists ==> t.state == s.(playlist := s.playlist.(selectionMode := true, numberInput := "")))
      && (s.activeMenuItem == Home ==> t.state == s.(theme := s.theme.(selectionMode := true), playlist := s.playlist.(numberInput := "")))
      && (s.activeMenuItem in {Account, Commands} ==> t.state == s)
  {
  }

  /** A digit goes to the first armed buffer: search results, then playlists, then themes. */
  lemma DigitGoesToOneBuffer<Theme>(s: State, c: char, token: Option<Token>, r: Replies<Theme>)
    requires IsAsciiDigit(c) && !TypingSearch(s)
    ensures var t := KeyPress(s, Char(c), token, r);
      t == Stay(
        if s.search.selectionMode then s.(search := s.search.(numberInput := PushDigit(s.search.numberInput, c)))
        else if s.playlist.selectionMode then s.(playlist := s.playlist.(numberInput := PushDigit(s.playlist.numberInput, c)))
        else if s.theme.selectionMode then s.(theme := s.theme.(numberInput := PushDigit(s.theme.numberInput, c)))
        else s)
  {
  }

  /** Enter on a search result plays entry `n` for 1 <= n <= length and otherwise says why not; the pick ends either way. */
  lemma PickResultSpec<Theme>(s: State, token: Option<Token>, r: Replies<Theme>)
    requires s.search.selectionMode && !TypingSearch(s)
    ensures var t := KeyPress(s, Enter, token, r);
      var i := Selected(s.search.numberInput, |s.search.result|);
      && t.outcome == Continue
      && t.request == (if i.Some? then PlayVideo(s.search.result[i.value].id) else NoRequest)
      && t.state == s.(search := s.search.(selectionMode := false, numberInput := ""), messages := s.messages + [
           if i.Some? then PlayingVideo(s.search.result[i.value].id)
           else if ParseUnsigned(s.search.numberInput, USIZE_MAX).None? then InvalidNumber
           else VideoOutOfRange])
  {
  }

  /**
   * Enter on a theme list loads entry `n` for 1 <= n <= length; the pick ends either way.
   * The remembered theme path is not updated, and an armed playlist pick waits.
   */
  lemma PickThemeSpec<Theme>(s: State, token: Option<Token>, r: Replies<Theme>)
    requires s.theme.selectionMode && !s.search.selectionMode && !TypingSearch(s)
    ensures var t := KeyPress(s, Enter, token, r);
      var i := Selected(s.theme.numberInput, |s.theme.files|);
      && t.outcome == Continue
      && t.request == (if i.Some? then LoadTheme(s.theme.files[i.value]) else NoRequest)
      && t.state == s.(theme := s.theme.(selectionMode := false, numberInput := ""), messages := s.messages + [
           if i.None? then (if ParseUnsigned(s.theme.numberInput, USIZE_MAX).None? then InvalidNumber else ThemeOutOfRange)
           else if r.themeLoad.Ok? then ThemeLoaded(s.theme.files[i.value])
           else ThemeLoadFailed(r.themeLoad.error)])
  {
  }

  /**
   * Enter on a playlist list plays entry `n` for 1 <= n <= length with the cached token.
   * A playback error is returned with the pick still armed; otherwise the pick ends.
   */
  lemma PickPlaylistSpec<Theme>(s: State, token: Option<Token>, r: Replies<Theme>)
    requires s.playlist.selectionMode && !s.theme.selectionMode && !s.search.selectionMode && !TypingSearch(s)
    ensures var t := KeyPress(s, Enter, token, r);
      var i := Selected(s.playlist.numberInput, |s.playlist.list|);
      && t.request == (if i.Some? && token.Some? then PlayPlaylist(token.value.accessSecret, s.playlist.list[i.value].id) else NoRequest)
      && (t.outcome.Failed? <==> i.Some? && token.Some? && r.playback.Err?)
      && (t.outcome.Failed? ==> t.state == s && t.outcome.error == r.playback.error)
      && (!t.outcome.Failed? ==> t.outcome == Continue && t.state == s.(playlist := s.playlist.(selectionMode := false, numberInput := ""), messages := s.messages + [
           if i.None? then (if ParseUnsigned(s.playlist.numberInput, USIZE_MAX).None? then InvalidNumber else PlaylistOutOfRange)
           else if token.None? then NoValidToken
           else PlayingPlaylist(s.playlist.list[i.value].title)]))
  {
    assert ArmFor(s, Enter) == ListPick(PickPlaylist);
    assert KeyPress(s, Enter, token, r) == OnPlaylistSelect(s, token, r.playback);
  }

  /** Escape leaves a search-result pick, then query typing, then a playlist pick; a theme pick has no escape. */
  lemma EscapeCancels<Theme>(s: State, token: Option<Token>, r: Replies<Theme>)
    ensures KeyPress(s, Esc, token, r) == Stay(
      if s.search.selectionMode then s.(search := s.search.(selectionMode := false, numberInput := ""), messages := s.messages + [SearchPickCancelled])
      else if TypingSearch(s) then s.(search := s.search.(typing := false, input := ""))
      else if s.playlist.selectionMode then s.(playlist := s.playlist.(selectionMode := false, numberInput := ""), messages := s.messages + [PlaylistPickCancelled])
      else s)
  {
  }

  /** Picking the second of two playlists plays "PL2" and logs "Playing playlist: Focus". */
  lemma ScenarioPlaySecondPlaylist<Theme>(s: State, token: Token, r: Replies<Theme>)
    requires s.playlist.list == [Playlist("Lo-fi Mix", "PL1"), Playlist("Focus", "PL2")]
    requires s.playlist.selectionMode && s.playlist.numberInput == [] && !s.theme.selectionMode && !s.search.selectionMode
    requires !TypingSearch(s) && r.playback.Ok?
    ensures var t1 := KeyPress(s, Char('2'), Some(token), r);
      var t2 := KeyPress(t1.state, Enter, Some(token), r);
      && t2.outcome == Continue
      && t2.request == PlayPlaylist(token.accessSecret, "PL2")
      && !t2.state.playlist.selectionMode && t2.state.playlist.numberInput == []
      && t2.state.messages == s.messages + [PlayingPlaylist("Focus")]
      && Text(PlayingPlaylist("Focus")) == "Playing playlist: Focus"
  {
    var t1 := KeyPress(s, Char('2'), Some(token), r);
    DigitGoesToOneBuffer(s, '2', Some(token), r);
    assert t1.state == s.(playlist := s.playlist.(numberInput := "2"));
    assert DigitsValue("2") == 2 by { assert "2"[..0] == []; }
    assert Selected("2", 2) == Some(1);
    PickPlaylistSpec(t1.state, Some(token), r);
  }

  /** Picking the ninth of two playlists plays nothing and logs "Playlist number out of range.". */
  lemma ScenarioPlaylistOutOfRange<Theme>(s: State, token: Option<Token>, r: Replies<Theme>)
    requires |s.playlist.list| == 2
    requires s.playlist.selectionMode && s.playlist.numberInput == [] && !s.theme.selectionMode && !s.search.selectionMode
    requires !TypingSearch(s)
    ensures var t1 := KeyPress(s, Char('9'), token, r);
      var t2 := KeyPress(t1.state, Enter, token, r);
      && t2 == Stay(t2.state)
      && t2.state == s.(playlist := s.playlist.(selectionMode := false), messages := s.messages + [PlaylistOutOfRange])
      && Text(PlaylistOutOfRange) == "Playlist number out of range."
  {
    var t1 := KeyPress(s, Char('9'), token, r);
    DigitGoesToOneBuffer(s, '9', token, r);
    assert t1.state == s.(playlist := s.playlist.(numberInput := "9"));
    assert DigitsValue("9") == 9 by { assert "9"[..0] == []; }
    assert Selected("9", 2) == None;
    PickPlaylistSpec(t1.state, token, r);
  }

  /** The keys of typing `text`, one character each. */
  function CharKeys(text: string): (keys: seq<KeyCode>)
    ensures |keys| == |text| && forall i :: 0 <= i < |text| ==> keys[i] == Char(text[i])
  {
    if text == [] then [] else [Char(text[0])] + CharKeys(text[1..])
  }

  /** Pressing `a` and then `b` is pressing `a + b`. */
  lemma {:induction false} KeysAppend<Theme>(s: State, a: seq<KeyCode>, b: seq<KeyCode>, token: Option<Token>, r: Replies<Theme>)
    ensures Keys(s, a + b, token, r) == Keys(Keys(s, a, token, r), b, token, r)
    decreases |a|
  {
    if a == [] {
      assert a + b == b;
    } else {
      assert (a + b)[0] == a[0] && (a + b)[1..] == a[1..] + b;
      KeysAppend(KeyPress(s, a[0], token, r).state, a[1..], b, token, r);
    }
  }

  /** Typing a word while a query is typed appends the whole word to the query and changes nothing else. */
  lemma {:induction false} TypingAppendsText<Theme>(s: State, text: string, token: Option<Token>, r: Replies<Theme>)
    requires TypingSearch(s)
    ensures Keys(s, CharKeys(text), token, r) == s.(search := s.search.(input := s.search.input + text))
    decreases |text|
  {
    if text == [] {
      assert s.search.input + text == s.search.input;
    } else {
      var s1 := KeyPress(s, Char(text[0]), token, r).state;
      TypingCapturesCharacters(s, text[0], token, r);
      TypingAppendsText(s1, text[1..], token, r);
      assert s.search.input + [text[0]] + text[1..] == s.search.input + text;
    }
  }

  /** Pressing `s`, typing `text` and pressing Enter without a token runs no search and logs "No token available". */
  lemma SearchWithoutToken<Theme>(s: State, text: string, r: Replies<Theme>)
    requires !TypingSearch(s)
    ensures var t := Keys(s, [Char('s')] + CharKeys(text) + [Enter], None, r);
      && t == s.(activeMenuItem := Search, messages := s.messages + [NoTokenAvailable],
                 search := s.search.(input := text, result := [], attempted := true, typing := true))
  {
    var s1 := KeyPress(s, Char('s'), None, r).state;
    StartSearchResets(s, None, r);
    assert Keys(s, [Char('s')], None, r) == s1;
    var s5 := Keys(s1, CharKeys(text), None, r);
    TypingAppendsText(s1, text, None, r);
    assert s5.search.input == text;
    SubmitSearchSpec(s5, None, r);
    assert Keys(s5, [Enter], None, r) == KeyPress(s5, Enter, None, r).state;
    KeysAppend(s, [Char('s')] + CharKeys(text), [Enter], None, r);
    KeysAppend(s, [Char('s')], CharKeys(text), None, r);
  }

  /** Typing "lofi" and pressing Enter without a token marks the search attempted and logs "No token available". */
  lemma ScenarioSearchWithoutToken<Theme>(s: State, r: Replies<Theme>)
    requires !TypingSearch(s)
    ensures var t := Keys(s, [Char('s'), Char('l'), Char('o'), Char('f'), Char('i'), Enter], None, r);
      && t.search.attempted && t.search.result == [] && t.search.input == "lofi"
      && t.messages == s.messages + [NoTokenAvailable]
      && Text(NoTokenAvailable) == "No token available"
  {
    assert [Char('s'), Char('l'), Char('o'), Char('f'), Char('i'), Enter] == [Char('s')] + CharKeys("lofi") + [Enter];
    SearchWithoutToken(s, "lofi", r);
  }
}
