/** The team-versus state page (`/states/team-vs`): its own colour and icon tables. */
module TeamVsPage {
  import opened GameUtils

  /** The page's icon table: the shared one without "gamepad". */
  const LocalIconMap: map<string, Icon> := map[
    "crown" := Crown, "star" := Star, "heart" := Heart, "zap" := Zap, "shield" := Shield,
    "trophy" := Trophy, "target" := Target, "flame" := Flame
  ]

  /** The page's `getTeamIcon`: the crown for any name outside its table. */
  function LocalIcon(name: string): Icon {
    if name in LocalIconMap then LocalIconMap[name] else Crown
  }

  /** The page's `getColorClasses`: only the background class, blue for any unknown colour. */
  function Background(color: string): string {
    ColorClasses(color).bg
  }

  /** The page agrees with the shared icon lookup on every name except "gamepad", which draws a crown here. */
  lemma LocalIconAgreesExceptGamepad(name: string)
    ensures name != "gamepad" ==> LocalIcon(name) == TeamIcon(name)
    ensures LocalIcon("gamepad") == Crown && TeamIcon("gamepad") == Gamepad
    ensures LocalIcon(name) != Gamepad
  {
  }

  /** An unknown colour gets the blue background. */
  lemma UnknownColorIsBlue(color: string)
    ensures color !in ColorMap ==> Background(color) == "bg-blue-600"
    ensures color in ColorMap ==> Background(color) == "bg-" + color + "-600"
  {
  }
}
