/**
 * The game-play state page (`/states/game-play`): every 100 ms it reloads the snapshot and,
 * when that parses, the two overlay flags the control page writes; a raised strike flag shows
 * the strike overlay and schedules its 1.2-second dismissal, which lowers the flag again.
 */
module GamePlayPage {
  import opened Wrappers
  import opened JsonValue
  import opened GameUtils
  import Storage

  /** The page's state cells, and the dismissal timers scheduled and not yet fired. */
  datatype Page = Page(gameData: Json, showPassOrPlayOverlay: bool, showStrikeOverlay: bool,
                       pendingStrikeTimers: nat)

  const InitialPage := Page(JNull, false, false, 0)

  /** One run of `loadGameState`: nothing changes unless the stored snapshot parses. */
  function Tick(p: Page, stored: Option<string>, passFlag: Option<string>, strikeFlag: Option<string>,
                parse: string -> Option<Json>): Page
  {
    if stored.None? || stored.value == "" || parse(stored.value).None? then p
    else
      var strike := strikeFlag == Some("true");
      p.(gameData := parse(stored.value).value,
         showPassOrPlayOverlay := passFlag == Some("true"),
         showStrikeOverlay := if strike then true else p.showStrikeOverlay,
         pendingStrikeTimers := if strike then p.pendingStrikeTimers + 1 else p.pendingStrikeTimers)
  }

  /** The 1.2-second timeout: the overlay is hidden (the flag is written "false" beside it). */
  function StrikeTimer(p: Page): Page
    requires p.pendingStrikeTimers > 0
  {
    p.(showStrikeOverlay := false, pendingStrikeTimers := p.pendingStrikeTimers - 1)
  }

  /**
   * The snapshot cell follows the shared polled reader; after a good read the pass-or-play
   * overlay is shown exactly when its flag is the string "true", and a "true" strike flag shows
   * the strike overlay and schedules one more dismissal on every read (so a flag left raised for
   * the 1.2 s before the first dismissal is read about twelve times and schedules as many), while
   * any other strike flag leaves both alone; a bad read changes nothing.
   */
  lemma TickReadsFlags(p: Page, stored: Option<string>, passFlag: Option<string>, strikeFlag: Option<string>,
                       parse: string -> Option<Json>)
    ensures Tick(p, stored, passFlag, strikeFlag, parse).gameData == Polled(p.gameData, stored, parse)
    ensures stored.Some? && stored.value != "" && parse(stored.value).Some? ==>
              (Tick(p, stored, passFlag, strikeFlag, parse).showPassOrPlayOverlay <==> passFlag == Some("true"))
    ensures stored.None? || stored.value == "" || parse(stored.value).None? ==>
              Tick(p, stored, passFlag, strikeFlag, parse) == p
    ensures stored.Some? && stored.value != "" && parse(stored.value).Some? && strikeFlag == Some("true") ==>
              var q := Tick(p, stored, passFlag, strikeFlag, parse);
              q.showStrikeOverlay && q.pendingStrikeTimers == p.pendingStrikeTimers + 1
    ensures stored.Some? && stored.value != "" && parse(stored.value).Some? && strikeFlag != Some("true") ==>
              var q := Tick(p, stored, passFlag, strikeFlag, parse);
              q.showStrikeOverlay == p.showStrikeOverlay && q.pendingStrikeTimers == p.pendingStrikeTimers
  {
  }

  /**
   * A raised strike flag shows the overlay and schedules one dismissal; once it fires the overlay
   * is hidden, and later reads of the lowered flag neither show it again nor schedule more.
   */
  lemma StrikeOverlayCycle(p: Page, stored: Option<string>, passFlag: Option<string>, parse: string -> Option<Json>)
    requires stored.Some? && stored.value != "" && parse(stored.value).Some?
    requires p.pendingStrikeTimers == 0
    ensures var shown := Tick(p, stored, passFlag, Some("true"), parse);
            shown.showStrikeOverlay && shown.pendingStrikeTimers == 1 &&
            var hidden := StrikeTimer(shown);
            !hidden.showStrikeOverlay && hidden.pendingStrikeTimers == 0 &&
            var later := Tick(hidden, stored, passFlag, Some("false"), parse);
            !later.showStrikeOverlay && later.pendingStrikeTimers == 0
  {
  }

  class GamePlayPage {
    var gameData: Json
    var showPassOrPlayOverlay: bool
    var showStrikeOverlay: bool
    var pendingStrikeTimers: nat
    const store: Storage.Store

    function State(): Page
      reads this
    {
      Page(gameData, showPassOrPlayOverlay, showStrikeOverlay, pendingStrikeTimers)
    }

    constructor (store: Storage.Store)
      ensures State() == InitialPage && this.store == store
    {
      this.store := store;
      gameData := JNull;
      showPassOrPlayOverlay := false;
      showStrikeOverlay := false;
      pendingStrikeTimers := 0;
    }

    /** `loadGameState`, on mount and every 100 ms. */
    method LoadGameState(parse: string -> Option<Json>)
      modifies this
      ensures State() == Tick(old(State()), store.GetItem(Storage.GameStateKey),
                              store.GetItem(Storage.PassOrPlayOverlayKey),
                              store.GetItem(Storage.StrikeOverlayKey), parse)
    {
      var saved := store.GetItem(Storage.GameStateKey);
      if saved.Some? && saved.value != "" {
        var parsed := parse(saved.value);
        if parsed.Some? {
          gameData := parsed.value;
          showPassOrPlayOverlay := store.GetItem(Storage.PassOrPlayOverlayKey) == Some("true");
          if store.GetItem(Storage.StrikeOverlayKey) == Some("true") {
            showStrikeOverlay := true;
            pendingStrikeTimers := pendingStrikeTimers + 1;
          }
        }
      }
    }

    /** The oldest pending dismissal fires. */
    method StrikeTimerFires()
      requires pendingStrikeTimers > 0
      modifies this, store
      ensures State() == StrikeTimer(old(State()))
      ensures store.items == old(store.items)[Storage.StrikeOverlayKey := "false"]
      ensures store.cookies == old(store.cookies)
    {
      showStrikeOverlay := false;
      pendingStrikeTimers := pendingStrikeTimers - 1;
      store.SetItem(Storage.StrikeOverlayKey, "false");
    }
  }
}
