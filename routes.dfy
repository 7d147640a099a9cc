/**
 * State-to-route resolution, as every display page repeats it: look the broadcast or stored
 * `gameState` up in the page's route table, fall back to the idle page, and navigate only when
 * the page is not already showing the target. Most pages share one table; the match-winner
 * page has its own.
 */
module Routes {
  import opened Wrappers
  import opened JsonValue
  import Storage

  const IdlePath := "/states/idle"

  /** The twelve states the control page can select. */
  const ControlStates: seq<string> := [
    "idle", "tournament-start", "bracket-show", "team-vs", "round-start", "game-play",
    "pass-or-play", "round-end-reveal", "post-round-scoring", "match-winner",
    "bracket-update", "tournament-winner"
  ]

  /** The states the match-winner page lists: grand-winner is added, three control states are missing. */
  const MatchWinnerStates: seq<string> := [
    "idle", "bracket-show", "team-vs", "round-start", "game-play", "round-end-reveal",
    "match-winner", "bracket-update", "tournament-winner", "grand-winner"
  ]

  /** A route table listing `states`, each at `/states/<state>`. */
  function RouteTable(states: seq<string>): (table: map<string, string>)
    ensures forall s :: s in table <==> s in states
    ensures forall s :: s in table ==> table[s] == "/states/" + s
  {
    map s | s in states :: "/states/" + s
  }

  /** The table of the idle, tournament-start, bracket-show, team-vs, round-start and game-play pages. */
  const StandardTable: map<string, string> := RouteTable(ControlStates)

  /** The match-winner page's table. */
  const MatchWinnerTable: map<string, string> := RouteTable(MatchWinnerStates)

  /** `gameStateRoutes[gameState] || "/states/idle"`. */
  function Resolve(table: map<string, string>, gameState: Prop): string {
    match gameState
    case Some(JStr(s)) => if s in table && table[s] != "" then table[s] else IdlePath
    case _ => IdlePath
  }

  /** `if (window.location.pathname !== targetPath) router.replace(targetPath)`. */
  function NavigateIfDifferent(path: string, target: string): Option<string> {
    if path != target then Some(target) else None
  }

  /**
   * The broadcast handler: `const { gameState } = event.data` throws on a null or missing
   * payload, which ends the handler without navigating.
   */
  function OnMessage(table: map<string, string>, path: string, data: Prop): Option<string> {
    if data.None? || data == Some(JNull) then None
    else NavigateIfDifferent(path, Resolve(table, Get(data, "gameState")))
  }

  /**
   * The 100 ms route poll of the game-play and round-start pages: read the snapshot, and
   * do nothing when it is missing or empty, fails to parse, or parses to null (the `catch {}`).
   */
  function OnPoll(table: map<string, string>, path: string, stored: Option<string>,
                  parse: string -> Option<Json>): Option<string>
  {
    if stored.None? || stored.value == "" then None
    else match parse(stored.value)
      case None => None
      case Some(parsed) => OnMessage(table, path, Some(parsed))
  }

  /** A table lists its states, each mapped to `/states/<state>`. */
  predicate RoutesByName(table: map<string, string>) {
    forall s :: s in table ==> table[s] == "/states/" + s
  }

  /**
   * The standard table covers exactly the twelve control-page states, each at its own route;
   * grand-winner is not among them and resolves to the idle page.
   */
  lemma StandardTableCoversControlStates()
    ensures RoutesByName(StandardTable)
    ensures forall s :: s in StandardTable <==> s in ControlStates
    ensures "grand-winner" !in StandardTable
    ensures Resolve(StandardTable, Some(JStr("grand-winner"))) == IdlePath
  {
  }

  /**
   * The match-winner page's table adds grand-winner and lacks tournament-start, pass-or-play and
   * post-round-scoring, so those three states send that page to the idle page.
   */
  lemma MatchWinnerTableResolution()
    ensures RoutesByName(MatchWinnerTable)
    ensures Resolve(MatchWinnerTable, Some(JStr("grand-winner"))) == "/states/grand-winner"
    ensures forall s :: s in {"tournament-start", "pass-or-play", "post-round-scoring"} ==>
              s in StandardTable && Resolve(MatchWinnerTable, Some(JStr(s))) == IdlePath
    ensures forall s :: s in MatchWinnerTable && s != "grand-winner" ==> s in StandardTable
  {
  }

  /**
   * Resolution is total: a listed state goes to its route and anything else (an unknown
   * name, a missing field, a number) goes to the idle page.
   */
  lemma ResolveTotal(table: map<string, string>, gameState: Prop)
    requires RoutesByName(table)
    ensures Resolve(table, gameState) == IdlePath ||
              (gameState.Some? && gameState.value.JStr? && gameState.value.s in table &&
               Resolve(table, gameState) == "/states/" + gameState.value.s)
    ensures (gameState.Some? && gameState.value.JStr? && gameState.value.s in table) ==>
              Resolve(table, gameState) == "/states/" + gameState.value.s
  {
    if gameState.Some? && gameState.value.JStr? && gameState.value.s in table {
      assert table[gameState.value.s] == "/states/" + gameState.value.s;
    }
  }

  /**
   * A broadcast navigates exactly when the payload is present and the page is not already at
   * the state's route, and then it navigates to that route.
   */
  lemma MessageNavigatesOnlyWhenDifferent(table: map<string, string>, path: string, data: Prop)
    ensures OnMessage(table, path, data).Some? <==>
              data.Some? && data != Some(JNull) && path != Resolve(table, Get(data, "gameState"))
    ensures OnMessage(table, path, data).Some? ==>
              OnMessage(table, path, data).value == Resolve(table, Get(data, "gameState"))
  {
  }

  /** A poll over text that does not parse, or over nothing, never navigates. */
  lemma PollParseFailureIsInert(table: map<string, string>, path: string, stored: Option<string>,
                                parse: string -> Option<Json>)
    requires stored.None? || stored.value == "" || parse(stored.value).None?
    ensures OnPoll(table, path, stored, parse).None?
  {
  }

  /** Once a page has navigated to the target, the same message or poll does not navigate again. */
  lemma NavigationSettles(table: map<string, string>, path: string, data: Prop)
    ensures var next := OnMessage(table, path, data);
            next.Some? ==> OnMessage(table, next.value, data).None?
  {
  }

  /** A display page's router: its own table and the path it is showing. */
  class Follower {
    const table: map<string, string>
    var path: string
    const store: Storage.Store

    constructor (table: map<string, string>, path: string, store: Storage.Store)
      ensures this.table == table && this.path == path && this.store == store
    {
      this.table := table;
      this.path := path;
      this.store := store;
    }

    /** `channel.onmessage`: the broadcast handler of the idle, team-vs, bracket-show, tournament-start and match-winner pages. */
    method OnBroadcast(data: Prop)
      modifies this
      ensures path == OnMessage(table, old(path), data).GetOr(old(path))
    {
      if data.Some? && data != Some(JNull) {
        var targetPath := Resolve(table, Get(data, "gameState"));
        if path != targetPath {
          path := targetPath;
        }
      }
    }

    /** The route interval of the game-play and round-start pages. */
    method OnPollTick(parse: string -> Option<Json>)
      modifies this
      ensures path == OnPoll(table, old(path), store.GetItem(Storage.GameStateKey), parse).GetOr(old(path))
    {
      var saved := store.GetItem(Storage.GameStateKey);
      if saved.Some? && saved.value != "" {
        var parsed := parse(saved.value);
        if parsed.Some? && parsed.value != JNull {
          var targetPath := Resolve(table, Get(parsed, "gameState"));
          if path != targetPath {
            path := targetPath;
          }
        }
      }
    }
  }
}
