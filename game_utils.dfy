/**
 * The shared vocabulary of lib/game-utils.ts: rounds and their point multipliers, the colour
 * and icon lookups with their defaults, and the polling reader of the shared snapshot.
 * The viewer pages carry private copies of the same tables; they are modelled once, here.
 */
module GameUtils {
  import opened Wrappers
  import opened JsonValue
  import Storage

  /** A round of a match: four scored rounds and the tie breaker. */
  datatype Round = R1 | R2 | R3 | R4 | Tiebreaker

  /** How a round is written into stored data: a number, or the string "tiebreaker". */
  function RoundJson(r: Round): Json {
    match r
    case R1 => JNum(1)
    case R2 => JNum(2)
    case R3 => JNum(3)
    case R4 => JNum(4)
    case Tiebreaker => JStr("tiebreaker")
  }

  /** `getPointMultiplier`: the switch over a stored round value, 1 for anything it does not list. */
  function PointMultiplier(round: Prop): nat {
    match round
    case Some(JNum(1)) => 1
    case Some(JNum(2)) => 2
    case Some(JNum(3)) => 3
    case Some(JNum(4)) => 3
    case Some(JStr("tiebreaker")) => 1
    case _ => 1
  }

  /** The multiplier of a round of the game. */
  function Multiplier(r: Round): nat {
    PointMultiplier(Some(RoundJson(r)))
  }

  /** The table as the rounds see it: 1, 2, 3, 3 and 1; anything else counts single. */
  lemma MultiplierTable(other: Prop)
    requires forall r: Round :: other != Some(RoundJson(r))
    ensures Multiplier(R1) == 1 && Multiplier(R2) == 2 && Multiplier(R3) == 3
    ensures Multiplier(R4) == 3 && Multiplier(Tiebreaker) == 1
    ensures PointMultiplier(other) == 1
  {
    assert other != Some(JNum(1)) by { assert RoundJson(R1) == JNum(1); }
    assert other != Some(JNum(2)) by { assert RoundJson(R2) == JNum(2); }
    assert other != Some(JNum(3)) by { assert RoundJson(R3) == JNum(3); }
    assert other != Some(JNum(4)) by { assert RoundJson(R4) == JNum(4); }
  }

  /** Every round value, listed or not, scores at single, double or triple points. */
  lemma MultiplierRange(round: Prop)
    ensures PointMultiplier(round) in {1, 2, 3}
    ensures PointMultiplier(round) == 1 <==> round !in {Some(JNum(2)), Some(JNum(3)), Some(JNum(4))}
  {
  }

  /** `roundNames`: the title shown for each round. */
  function RoundName(r: Round): string {
    match r
    case R1 => "Round 1"
    case R2 => "Round 2 - Double Points"
    case R3 => "Round 3 - Triple Points"
    case R4 => "Round 4 - Triple Points"
    case Tiebreaker => "Tie Breaker"
  }

  /** The titles announce the multiplier the scoring table applies. */
  lemma RoundNamesAgreeWithMultipliers(r: Round)
    ensures Multiplier(r) == 2 <==> RoundName(r) == "Round 2 - Double Points"
    ensures Multiplier(r) == 3 <==> RoundName(r) in {"Round 3 - Triple Points", "Round 4 - Triple Points"}
    ensures Multiplier(r) == 1 <==> RoundName(r) in {"Round 1", "Tie Breaker"}
  {
  }

  /** The four Tailwind classes of a team colour. */
  datatype ColorEntry = ColorEntry(bg: string, text: string, glow: string, shadow: string)

  /** `colorMap`: the eight named team colours. */
  const ColorMap: map<string, ColorEntry> := map[
    "red" := ColorEntry("bg-red-600", "text-red-600", "shadow-red-500/50", "drop-shadow-[0_0_15px_rgba(239,68,68,0.5)]"),
    "blue" := ColorEntry("bg-blue-600", "text-blue-600", "shadow-blue-500/50", "drop-shadow-[0_0_15px_rgba(59,130,246,0.5)]"),
    "green" := ColorEntry("bg-green-600", "text-green-600", "shadow-green-500/50", "drop-shadow-[0_0_15px_rgba(34,197,94,0.5)]"),
    "purple" := ColorEntry("bg-purple-600", "text-purple-600", "shadow-purple-500/50", "drop-shadow-[0_0_15px_rgba(147,51,234,0.5)]"),
    "orange" := ColorEntry("bg-orange-600", "text-orange-600", "shadow-orange-500/50", "drop-shadow-[0_0_15px_rgba(249,115,22,0.5)]"),
    "pink" := ColorEntry("bg-pink-600", "text-pink-600", "shadow-pink-500/50", "drop-shadow-[0_0_15px_rgba(236,72,153,0.5)]"),
    "cyan" := ColorEntry("bg-cyan-600", "text-cyan-600", "shadow-cyan-500/50", "drop-shadow-[0_0_15px_rgba(8,145,178,0.5)]"),
    "yellow" := ColorEntry("bg-yellow-600", "text-yellow-600", "shadow-yellow-500/50", "drop-shadow-[0_0_15px_rgba(202,138,4,0.5)]")
  ]

  /** `getColorClasses`: the named colour's classes, the blue ones for any other name. */
  function ColorClasses(color: string): (e: ColorEntry)
    ensures color in ColorMap ==> e == ColorMap[color]
    ensures color !in ColorMap ==> e == ColorMap["blue"]
    ensures e.bg == "bg-" + (if color in ColorMap then color else "blue") + "-600"
  {
    if color in ColorMap then ColorMap[color] else ColorMap["blue"]
  }

  /** The team icons a configuration can name. */
  datatype Icon = Crown | Star | Heart | Zap | Shield | Trophy | Target | Flame | Gamepad

  /** `getTeamIcon`'s table: the nine icon names. */
  const IconMap: map<string, Icon> := map[
    "crown" := Crown, "star" := Star, "heart" := Heart, "zap" := Zap, "shield" := Shield,
    "trophy" := Trophy, "target" := Target, "flame" := Flame, "gamepad" := Gamepad
  ]

  /** `getTeamIcon`: the named icon, the crown for any other name. */
  function TeamIcon(name: string): (i: Icon)
    ensures name in IconMap ==> i == IconMap[name]
    ensures name !in IconMap ==> i == Crown
    ensures i != Crown ==> name in IconMap
  {
    if name in IconMap then IconMap[name] else Crown
  }

  /**
   * One tick of `useGameData`'s 100 ms poll: a stored text that parses replaces the cell;
   * a missing or empty key, or text that does not parse, leaves the last value in place.
   */
  function Polled(prev: Json, stored: Option<string>, parse: string -> Option<Json>): Json {
    match stored
    case Some(text) =>
      if text != "" then
        match parse(text)
        case Some(j) => j
        case None => prev
      else prev
    case None => prev
  }

  /** The reader keeps its last good value exactly when there is nothing parseable to read. */
  lemma PolledKeepsLastGood(prev: Json, stored: Option<string>, parse: string -> Option<Json>)
    ensures (stored.None? || stored.value == "" || parse(stored.value).None?) ==> Polled(prev, stored, parse) == prev
    ensures stored.Some? && stored.value != "" && parse(stored.value).Some? ==>
              Polled(prev, stored, parse) == parse(stored.value).value
  {
  }

  /** Polling twice over unchanged storage gives what polling once gives. */
  lemma PolledIdempotent(prev: Json, stored: Option<string>, parse: string -> Option<Json>)
    ensures Polled(Polled(prev, stored, parse), stored, parse) == Polled(prev, stored, parse)
  {
  }

  /** The state cell of `useGameData`, initially `null`, overwritten by each poll. */
  class GameDataHook {
    var gameData: Json
    const store: Storage.Store

    constructor (store: Storage.Store)
      ensures this.store == store && gameData == JNull
    {
      this.store := store;
      gameData := JNull;
    }

    method Poll(parse: string -> Option<Json>)
      modifies this
      ensures gameData == Polled(old(gameData), store.GetItem(Storage.GameStateKey), parse)
    {
      var saved := store.GetItem(Storage.GameStateKey);
      if saved.Some? && saved.value != "" {
        var parsed := parse(saved.value);
        if parsed.Some? {
          gameData := parsed.value;
        }
      }
    }
  }
}
