/**
 * The terminal front end (src/tui.rs): the numbering of the menu tabs, the state the
 * program starts from, and the main loop of `tui_render`.
 *
 * Each turn of the loop first starts the OAuth flow the first time the Account menu is
 * shown, then draws, then takes the next event from the channel. A key goes to the key
 * handler of src/app_state.rs, a tick does nothing, and a relayed message is appended to
 * the log. `RunLoop` is the loop over a given sequence of deliveries, as a function;
 * `TuiRender` runs the same loop on an `AppState` object and is proved against it.
 */
module Tui {
  import opened Wrappers
  import opened App
  import Colors

  /** `From<MenuItem> for usize`: the tab index of a menu item (src/tui.rs:19-29). */
  function MenuIndex(m: MenuItem): (i: nat)
    ensures i < |MenuTitles()|
  {
    match m
    case Account => 0
    case Commands => 1
    case Home => 2
    case Playlists => 3
    case Search => 4
  }

  /** The tab titles, in tab order (src/tui.rs:69). */
  function MenuTitles(): seq<string> {
    ["Account", "Commands", "Home", "Playlists", "Search"]
  }

  /** The menu item of tab `i`. */
  function MenuAt(i: nat): MenuItem
    requires i < |MenuTitles()|
  {
    [Account, Commands, Home, Playlists, Search][i]
  }

  /** The name of a menu item, as the source spells its variant. */
  function MenuName(m: MenuItem): string {
    match m
    case Account => "Account"
    case Commands => "Commands"
    case Home => "Home"
    case Playlists => "Playlists"
    case Search => "Search"
  }

  /** `menu_titles[i]` names the menu item whose tab index is `i`. */
  lemma MenuTitleNames(m: MenuItem)
    ensures MenuTitles()[MenuIndex(m)] == MenuName(m)
    ensures MenuTitles()[MenuIndex(Account)] == "Account" && MenuTitles()[MenuIndex(Commands)] == "Commands"
    ensures MenuTitles()[MenuIndex(Home)] == "Home" && MenuTitles()[MenuIndex(Playlists)] == "Playlists"
    ensures MenuTitles()[MenuIndex(Search)] == "Search"
  {
  }

  /** Tab index and menu item are in one-to-one correspondence. */
  lemma MenuIndexBijective(m: MenuItem, i: nat)
    requires i < |MenuTitles()|
    ensures MenuAt(MenuIndex(m)) == m
    ensures MenuIndex(MenuAt(i)) == i
    ensures MenuIndex(m) == i <==> MenuAt(i) == m
  {
  }

  lemma MenuIndexInjective(m: MenuItem, n: MenuItem)
    ensures MenuIndex(m) == MenuIndex(n) ==> m == n
  {
    MenuIndexBijective(m, MenuIndex(n));
  }

  /**
   * The highlighted tab's title begins, underlined, with the capital of the key that
   * opens its menu: pressing that key outside a query gives the tab its highlight.
   */
  lemma TitleLetterOpensTab<Theme>(m: MenuItem, s: State, token: Option<Token>, r: Replies<Theme>)
    requires !TypingSearch(s)
    ensures var title := MenuTitles()[MenuIndex(m)];
      && |title| > 0 && 'A' <= title[0] <= 'Z'
      && KeyPress(s, Char(title[0] + ('a' - 'A') as char), token, r).state.activeMenuItem == m
  {
    var title := MenuTitles()[MenuIndex(m)];
    var key := title[0] + ('a' - 'A') as char;
    match m
    case Account => assert key == 'a'; AccountKey(s, token, r);
    case Commands => assert key == 'c';
    case Home => assert key == 'h'; HomeKey(s, token, r);
    case Playlists => assert key == 'p'; PlaylistsKey(s, token, r);
    case Search => assert key == 's'; StartSearchResets(s, token, r);
  }

  // The loop.

  /** What the channel delivers, with what the token reload and the collaborators answer if the event is a key. */
  datatype Delivery<Theme> = Delivery(event: Event, loaded: Result<Token, string>, replies: Replies<Theme>)

  /** What the program does outside the state: start the OAuth flow, or call the collaborator a key asked for. */
  datatype Effect = StartAuthentication | Call(request: Request)

  /** How `tui_render` ends: `Ok(())` after `q`, `Err` from the handler, or still blocked on `recv`. */
  datatype Exit = Quitted | Errored(error: string) | Waiting

  /** The loop's state: the app state, its selected theme, the cached token and the local `authenticated` flag. */
  datatype Loop<Theme> = Loop(app: State, theme: Theme, token: Option<Token>, authStarted: bool)

  /** One delivery handled: the new state, the handler's outcome and the effects. */
  datatype Step<Theme> = Step(next: Loop<Theme>, outcome: Outcome, effects: seq<Effect>)

  /** A run of the loop: its last state, how it ends, how many deliveries it took and its effects in order. */
  datatype Run<Theme> = Run(final: Loop<Theme>, exit: Exit, consumed: nat, effects: seq<Effect>)

  predicate StartsAuthentication<Theme>(lp: Loop<Theme>) {
    lp.app.activeMenuItem == Account && !lp.authStarted
  }

  /** The top of the loop (src/tui.rs:98-115): the first time Account is shown, clear the log and authenticate. */
  function BeginCycle<Theme>(lp: Loop<Theme>): Loop<Theme> {
    if StartsAuthentication(lp) then lp.(authStarted := true, app := lp.app.(messages := [])) else lp
  }

  function AuthEffects<Theme>(lp: Loop<Theme>): seq<Effect> {
    if StartsAuthentication(lp) then [StartAuthentication] else []
  }

  function CallEffects(request: Request): seq<Effect> {
    if request == NoRequest then [] else [Call(request)]
  }

  /** The `match rx.recv()` (src/tui.rs:213-224). Only a key reaches `event_handler`, which reloads the token first. */
  function Deliver<Theme>(lp: Loop<Theme>, d: Delivery<Theme>): Step<Theme> {
    match d.event
    case Input(_) =>
      var token := TokenAfterLoad(lp.token, d.loaded);
      var t := Handle(lp.app, d.event, token, d.replies);
      Step(Loop(t.state, ThemeAfter(t, d.replies.themeLoad, lp.theme), token, lp.authStarted), t.outcome, CallEffects(t.request))
    case Tick => Step(lp, Continue, [])
    case Message(text) => Step(lp.(app := lp.app.(messages := lp.app.messages + [Relayed(text)])), Continue, [])
  }

  /** The loop over `ds`: it stops at `q` or at a handler error, and otherwise waits once `ds` is used up. */
  function RunLoop<Theme>(lp: Loop<Theme>, ds: seq<Delivery<Theme>>): Run<Theme>
    decreases |ds|
  {
    var lp1 := BeginCycle(lp);
    if ds == [] then Run(lp1, Waiting, 0, AuthEffects(lp))
    else
      var st := Deliver(lp1, ds[0]);
      if st.outcome == Quit then Run(st.next, Quitted, 1, AuthEffects(lp) + st.effects)
      else if st.outcome.Failed? then Run(st.next, Errored(st.outcome.error), 1, AuthEffects(lp) + st.effects)
      else
        var rest := RunLoop(st.next, ds[1..]);
        Run(rest.final, rest.exit, 1 + rest.consumed, AuthEffects(lp) + st.effects + rest.effects)
  }

  /** The loop's first state: the struct literal of src/tui.rs:34-53 with the theme loaded from its path. */
  function Start<Theme>(themeLoad: Result<Theme, string>, token: Option<Token>): Result<Loop<Theme>, string> {
    match themeLoad
    case Ok(theme) => Ok(Loop(InitialState(), theme, token, false))
    case Err(e) => Err(e)
  }

  /** One delivery, taken by the loop of `tui_render` while its local flag is `authenticated` (src/tui.rs:213-224). */
  method Serve(app: AppState<Colors.Theme>, store: TokenStore, authenticated: bool, d: Delivery<Colors.Theme>)
    returns (outcome: Outcome, effects: seq<Effect>)
    requires store.Valid()
    modifies app, store
    ensures store.Valid()
    ensures var st := Deliver(Loop(old(app.Snapshot()), old(app.selectedTheme), old(store.cached), authenticated), d);
      && Loop(app.Snapshot(), app.selectedTheme, store.cached, authenticated) == st.next
      && outcome == st.outcome && effects == st.effects
  {
    outcome, effects := Continue, [];
    match d.event {
      case Input(_) =>
        var request;
        outcome, request := app.EventHandler(d.event, store, d.loaded, d.replies);
        effects := CallEffects(request);
      case Tick =>
      case Message(text) =>
        app.messages := app.messages + [Relayed(text)];
    }
  }

  /** `tui_render` over the deliveries `ds`, with the theme file's load result `themeLoad` (src/tui.rs:32-226). */
  method TuiRender(store: TokenStore, themeLoad: Result<Colors.Theme, string>, ds: seq<Delivery<Colors.Theme>>)
    returns (exit: Exit, app: AppState<Colors.Theme>, effects: seq<Effect>)
    requires store.Valid()
    modifies store
    ensures store.Valid()
    ensures themeLoad.Err? ==>
      && exit == Errored(themeLoad.error) && effects == []
      && store.cached == old(store.cached) && store.history == old(store.history)
      && app.Snapshot() == InitialState() && app.selectedTheme == Colors.DefaultTheme()
    ensures themeLoad.Ok? ==>
      var run := RunLoop(Start(themeLoad, old(store.cached)).value, ds);
      && exit == run.exit && effects == run.effects
      && app.Snapshot() == run.final.app && app.selectedTheme == run.final.theme
      && store.cached == run.final.token
  {
    app := new AppState.Initial(Colors.DefaultTheme());
    if themeLoad.Err? {
      return Errored(themeLoad.error), app, [];
    }
    app.selectedTheme := themeLoad.value;
    exit, effects := Drive(app, store, ds);
  }

  /** The `loop` of `tui_render` (src/tui.rs:95-225), from the state `app` holds, with `authenticated` still false. */
  method Drive(app: AppState<Colors.Theme>, store: TokenStore, ds: seq<Delivery<Colors.Theme>>)
    returns (exit: Exit, effects: seq<Effect>)
    requires store.Valid()
    modifies app, store
    ensures store.Valid()
    ensures var run := RunLoop(Loop(old(app.Snapshot()), old(app.selectedTheme), old(store.cached), false), ds);
      && exit == run.exit && effects == run.effects
      && app.Snapshot() == run.final.app && app.selectedTheme == run.final.theme
      && store.cached == run.final.token
  {
    ghost var whole := RunLoop(Loop(app.Snapshot(), app.selectedTheme, store.cached, false), ds);
    effects := [];
    assert Resumes(whole, Loop(app.Snapshot(), app.selectedTheme, store.cached, false), ds, effects);
    var authenticated := false;
    var i := 0;
    while true
      invariant 0 <= i <= |ds|
      invariant store.Valid()
      invariant Resumes(whole, Loop(app.Snapshot(), app.selectedTheme, store.cached, authenticated), ds[i..], effects)
      decreases |ds| - i
    {
      ghost var here := Loop(app.Snapshot(), app.selectedTheme, store.cached, authenticated);
      ghost var before := effects;
      var started;
      authenticated, started := CheckAuthentication(app, store, authenticated);
      effects := effects + started;
      if i == |ds| {
        Finish(whole, here, before);
        return Waiting, effects;
      }
      ghost var st := Deliver(BeginCycle(here), ds[i]);
      var outcome, served := Serve(app, store, authenticated, ds[i]);
      assert Loop(app.Snapshot(), app.selectedTheme, store.cached, authenticated) == st.next;
      assert ds[i..][0] == ds[i];
      Advance(whole, here, ds[i..], before);
      effects := effects + served;
      assert effects == before + AuthEffects(here) + st.effects;
      if outcome == Quit {
        return Quitted, effects;
      }
      if outcome.Failed? {
        return Errored(outcome.error), effects;
      }
      assert ds[i..][1..] == ds[i + 1..];
      i := i + 1;
    }
  }

  /** The top of the loop (src/tui.rs:98-115), run on `app`: the first visit to Account clears the log and starts the OAuth flow. */
  method CheckAuthentication(app: AppState<Colors.Theme>, store: TokenStore, authenticated: bool)
    returns (authenticated': bool, effects: seq<Effect>)
    modifies app
    ensures var here := Loop(old(app.Snapshot()), old(app.selectedTheme), store.cached, authenticated);
      && Loop(app.Snapshot(), app.selectedTheme, store.cached, authenticated') == BeginCycle(here)
      && effects == AuthEffects(here)
  {
    authenticated', effects := authenticated, [];
    if app.activeMenuItem == Account && !authenticated {
      authenticated' := true;
      app.messages := [];
      effects := [StartAuthentication];
    }
  }

  /** `whole` is what is left of the run from `lp` over `ds`, after the effects `done`. */
  ghost predicate Resumes<Theme>(whole: Run<Theme>, lp: Loop<Theme>, ds: seq<Delivery<Theme>>, done: seq<Effect>) {
    var rest := RunLoop(lp, ds);
    whole.exit == rest.exit && whole.final == rest.final && whole.effects == done + rest.effects
  }

  /** A run resumed with no deliveries left waits, after the top of the loop. */
  lemma Finish<Theme>(whole: Run<Theme>, lp: Loop<Theme>, prior: seq<Effect>)
    requires Resumes(whole, lp, [], prior)
    ensures whole.exit == Waiting && whole.final == BeginCycle(lp) && whole.effects == prior + AuthEffects(lp)
  {
  }

  /** One turn of a resumed run. */
  lemma Advance<Theme>(whole: Run<Theme>, lp: Loop<Theme>, ds: seq<Delivery<Theme>>, prior: seq<Effect>)
    requires ds != [] && Resumes(whole, lp, ds, prior)
    ensures var st := Deliver(BeginCycle(lp), ds[0]);
      && (st.outcome == Quit ==>
           whole.exit == Quitted && whole.final == st.next && whole.effects == prior + AuthEffects(lp) + st.effects)
      && (st.outcome.Failed? ==>
           whole.exit == Errored(st.outcome.error) && whole.final == st.next
           && whole.effects == prior + AuthEffects(lp) + st.effects)
      && (st.outcome == Continue ==> Resumes(whole, st.next, ds[1..], prior + AuthEffects(lp) + st.effects))
  {
    var st := Deliver(BeginCycle(lp), ds[0]);
    var run := RunLoop(lp, ds);
    if st.outcome == Quit {
      assert run == Run(st.next, Quitted, 1, AuthEffects(lp) + st.effects);
    } else if st.outcome.Failed? {
      assert run == Run(st.next, Errored(st.outcome.error), 1, AuthEffects(lp) + st.effects);
    } else {
      var rest := RunLoop(st.next, ds[1..]);
      assert run == Run(rest.final, rest.exit, 1 + rest.consumed, AuthEffects(lp) + st.effects + rest.effects);
      assert whole.effects == prior + (AuthEffects(lp) + st.effects + rest.effects);
    }
  }

  // Properties of the loop.

  /** How many times `effects` starts the OAuth flow. */
  function AuthCount(effects: seq<Effect>): nat
    decreases |effects|
  {
    if effects == [] then 0
    else (if effects[0] == StartAuthentication then 1 else 0) + AuthCount(effects[1..])
  }

  lemma {:induction false} AuthCountAppend(a: seq<Effect>, b: seq<Effect>)
    ensures AuthCount(a + b) == AuthCount(a) + AuthCount(b)
    decreases |a|
  {
    if a == [] {
      assert a + b == b;
    } else {
      assert (a + b)[1..] == a[1..] + b;
      AuthCountAppend(a[1..], b);
    }
  }

  lemma BeginCycleIdempotent<Theme>(lp: Loop<Theme>)
    ensures BeginCycle(BeginCycle(lp)) == BeginCycle(lp)
    ensures AuthEffects(BeginCycle(lp)) == []
    ensures BeginCycle(lp).authStarted
      || (BeginCycle(lp) == lp && lp.app.activeMenuItem != Account)
  {
  }

  /** A delivery leaves the local `authenticated` flag alone and starts no authentication itself. */
  lemma DeliverKeepsFlag<Theme>(lp: Loop<Theme>, d: Delivery<Theme>)
    ensures Deliver(lp, d).next.authStarted == lp.authStarted
    ensures AuthCount(Deliver(lp, d).effects) == 0
  {
  }

  /**
   * The OAuth flow starts at most once per run, and never again once started: `a` resets
   * the state's `authenticated` field, but the loop reads its own flag, which only the
   * first visit to Account sets.
   */
  lemma {:induction false} AuthAtMostOnce<Theme>(lp: Loop<Theme>, ds: seq<Delivery<Theme>>)
    ensures var run := RunLoop(lp, ds);
      && AuthCount(run.effects) <= (if lp.authStarted then 0 else 1)
      && run.final.authStarted == (lp.authStarted || AuthCount(run.effects) == 1)
    decreases |ds|
  {
    var lp1 := BeginCycle(lp);
    assert AuthCount(AuthEffects(lp)) == if StartsAuthentication(lp) then 1 else 0;
    if ds != [] {
      var st := Deliver(lp1, ds[0]);
      DeliverKeepsFlag(lp1, ds[0]);
      AuthCountAppend(AuthEffects(lp), st.effects);
      if st.outcome == Continue {
        var rest := RunLoop(st.next, ds[1..]);
        AuthAtMostOnce(st.next, ds[1..]);
        AuthCountAppend(AuthEffects(lp) + st.effects, rest.effects);
        if StartsAuthentication(lp) {
          assert st.next.authStarted;
        }
      }
    }
  }

  /**
   * How a run ends: it waits only after taking every delivery, and otherwise ends on the
   * delivery it took last, which is `q` for a normal exit and, for an error, a key whose
   * theme discovery or playlist playback failed with that error.
   */
  lemma {:induction false} RunEnds<Theme>(lp: Loop<Theme>, ds: seq<Delivery<Theme>>)
    ensures var run := RunLoop(lp, ds);
      && run.consumed <= |ds|
      && (run.exit == Waiting ==> run.consumed == |ds|)
      && (run.exit != Waiting ==> 0 < run.consumed && ds[run.consumed - 1].event.Input?)
      && (run.exit == Quitted ==> ds[run.consumed - 1].event == Input(Char('q')))
      && (run.exit.Errored? ==>
           || ds[run.consumed - 1].replies.themeFiles == Err(run.exit.error)
           || ds[run.consumed - 1].replies.playback == Err(run.exit.error))
    decreases |ds|
  {
    if ds != [] {
      var lp1 := BeginCycle(lp);
      var d := ds[0];
      var st := Deliver(lp1, d);
      DeliverEnds(lp1, d);
      if st.outcome == Continue {
        RunEnds(st.next, ds[1..]);
        var rest := RunLoop(st.next, ds[1..]);
        if rest.exit != Waiting {
          assert ds[1..][rest.consumed - 1] == ds[rest.consumed];
        }
      }
    }
  }

  /** A delivery stops the loop only if it is a key: `q`, or one whose theme discovery or playback failed. */
  lemma DeliverEnds<Theme>(lp: Loop<Theme>, d: Delivery<Theme>)
    ensures var st := Deliver(lp, d);
      && (st.outcome != Continue ==> d.event.Input?)
      && (st.outcome == Quit ==> d.event == Input(Char('q')))
      && (st.outcome.Failed? ==>
           d.replies.themeFiles == Err(st.outcome.error) || d.replies.playback == Err(st.outcome.error))
  {
    if d.event.Input? {
      var token := TokenAfterLoad(lp.token, d.loaded);
      QuitOnlyOnQ(lp.app, d.event, token, d.replies);
      FailuresComeFromCollaborators(lp.app, d.event.key, token, d.replies);
    }
  }

  /** A run of ticks only waits: after the first turn's authentication check nothing changes. */
  lemma {:induction false} TicksOnlyWait<Theme>(lp: Loop<Theme>, ds: seq<Delivery<Theme>>)
    requires forall i :: 0 <= i < |ds| ==> ds[i].event == Tick
    ensures RunLoop(lp, ds) == Run(BeginCycle(lp), Waiting, |ds|, AuthEffects(lp))
    decreases |ds|
  {
    BeginCycleIdempotent(lp);
    if ds != [] {
      TicksOnlyWait(BeginCycle(lp), ds[1..]);
      assert AuthEffects(lp) + [] + [] == AuthEffects(lp);
    }
  }

  /** The log entries the relayed messages `texts` add, in order. */
  function Relays(texts: seq<string>): (r: seq<Notice>)
    ensures |r| == |texts| && forall i :: 0 <= i < |texts| ==> r[i] == Relayed(texts[i])
    decreases |texts|
  {
    if texts == [] then [] else [Relayed(texts[0])] + Relays(texts[1..])
  }

  /** The deliveries `ds` are the channel messages `texts`, in order. */
  predicate MessagesOf<Theme>(ds: seq<Delivery<Theme>>, texts: seq<string>) {
    |ds| == |texts| && forall i :: 0 <= i < |ds| ==> ds[i].event == Message(texts[i])
  }

  /**
   * Relayed messages (the OAuth flow's prompts and errors) are appended to the log in the
   * order they arrive, after the authentication check has cleared it, and change nothing else.
   */
  lemma {:induction false} MessagesAppended<Theme>(lp: Loop<Theme>, ds: seq<Delivery<Theme>>, texts: seq<string>)
    requires MessagesOf(ds, texts)
    ensures var lp1 := BeginCycle(lp);
      RunLoop(lp, ds) == Run(lp1.(app := lp1.app.(messages := lp1.app.messages + Relays(texts))), Waiting, |ds|, AuthEffects(lp))
    decreases |ds|
  {
    var lp1 := BeginCycle(lp);
    BeginCycleIdempotent(lp);
    if ds == [] {
      assert lp1.app.messages + Relays(texts) == lp1.app.messages;
    } else {
      var lp2 := RelayTurn(lp, ds, texts[0]);
      assert MessagesOf(ds[1..], texts[1..]);
      MessagesAppended(lp2, ds[1..], texts[1..]);
      RelayedLog(lp1, lp2, texts);
    }
  }

  /** The first turn of a run that starts with the relayed message `text`: it logs it and goes on from `lp2`. */
  lemma RelayTurn<Theme>(lp: Loop<Theme>, ds: seq<Delivery<Theme>>, text: string) returns (lp2: Loop<Theme>)
    requires ds != [] && ds[0].event == Message(text)
    ensures var lp1 := BeginCycle(lp);
      lp2 == lp1.(app := lp1.app.(messages := lp1.app.messages + [Relayed(text)]))
    ensures BeginCycle(lp2) == lp2 && AuthEffects(lp2) == []
    ensures var rest := RunLoop(lp2, ds[1..]);
      RunLoop(lp, ds) == Run(rest.final, rest.exit, 1 + rest.consumed, AuthEffects(lp) + rest.effects)
  {
    var lp1 := BeginCycle(lp);
    BeginCycleIdempotent(lp);
    lp2 := lp1.(app := lp1.app.(messages := lp1.app.messages + [Relayed(text)]));
    var st := Deliver(lp1, ds[0]);
    assert st == Step(lp2, Continue, []);
    assert AuthEffects(lp) + st.effects == AuthEffects(lp);
  }

  lemma RelayedLog<Theme>(lp1: Loop<Theme>, lp2: Loop<Theme>, texts: seq<string>)
    requires texts != []
    requires lp2 == lp1.(app := lp1.app.(messages := lp1.app.messages + [Relayed(texts[0])]))
    ensures lp2.(app := lp2.app.(messages := lp2.app.messages + Relays(texts[1..])))
      == lp1.(app := lp1.app.(messages := lp1.app.messages + Relays(texts)))
  {
    RelaysCons(lp1.app.messages, texts);
  }

  lemma RelaysCons(log: seq<Notice>, texts: seq<string>)
    requires texts != []
    ensures log + [Relayed(texts[0])] + Relays(texts[1..]) == log + Relays(texts)
  {
    assert Relays(texts) == [Relayed(texts[0])] + Relays(texts[1..]);
  }

  /** No run lets a selection buffer grow past two digits or take a non-digit. */
  lemma {:induction false} RunKeepsBuffersBounded<Theme>(lp: Loop<Theme>, ds: seq<Delivery<Theme>>)
    requires BuffersBounded(lp.app)
    ensures BuffersBounded(RunLoop(lp, ds).final.app)
    decreases |ds|
  {
    var lp1 := BeginCycle(lp);
    if ds != [] {
      var d := ds[0];
      HandleKeepsBuffersBounded(lp1.app, d.event, TokenAfterLoad(lp1.token, d.loaded), d.replies);
      var st := Deliver(lp1, d);
      if st.outcome == Continue {
        RunKeepsBuffersBounded(st.next, ds[1..]);
      }
    }
  }

  /** The loop starts from bounded buffers, so every state it reaches has them. */
  lemma StartBuffersBounded<Theme>(themeLoad: Result<Theme, string>, token: Option<Token>, ds: seq<Delivery<Theme>>)
    requires themeLoad.Ok?
    ensures Start(themeLoad, token).Ok?
    ensures BuffersBounded(RunLoop(Start(themeLoad, token).value, ds).final.app)
    ensures AuthCount(RunLoop(Start(themeLoad, token).value, ds).effects) <= 1
  {
    InitialBuffersBounded();
    RunKeepsBuffersBounded(Start(themeLoad, token).value, ds);
    AuthAtMostOnce(Start(themeLoad, token).value, ds);
  }
}
