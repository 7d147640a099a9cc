/**
 * The browser storage every page of the origin shares: `localStorage` (key to text) and the
 * cookie jar. Control and viewer pages hold the same `Store` object, which is how a write on
 * the control page becomes visible to a viewer page's next poll.
 */
module Storage {
  import opened Wrappers

  /** The localStorage key of the shared game snapshot (and of its cookie copy). */
  const GameStateKey := "familyFeudGameState"
  /** Display flags kept beside the snapshot. */
  const StrikeOverlayKey := "showStrikeOverlay"
  const PassOrPlayOverlayKey := "showPassOrPlayOverlay"
  const RoundDoneKey := "roundDone"
  const ShowAllAnswersKey := "showAllAnswers"

  /** A cookie entry as the jar keeps it: name and the already URI-encoded value. */
  type Cookie = (string, string)

  class Store {
    var items: map<string, string>
    var cookies: seq<Cookie>

    constructor ()
      ensures items == map[] && cookies == []
    {
      items := map[];
      cookies := [];
    }

    /** `localStorage.getItem(key)`: `None` is the `null` it returns for a missing key. */
    function GetItem(key: string): Option<string>
      reads this
    {
      if key in items then Some(items[key]) else None
    }

    /** `localStorage.setItem(key, value)`. */
    method SetItem(key: string, value: string)
      modifies this
      ensures items == old(items)[key := value]
      ensures cookies == old(cookies)
    {
      items := items[key := value];
    }

    /** Setting a cookie replaces the value of an existing cookie of that name, else appends one. */
    method SetCookie(name: string, encoded: string)
      modifies this
      ensures cookies == SetInJar(old(cookies), name, encoded)
      ensures items == old(items)
    {
      cookies := SetInJar(cookies, name, encoded);
    }
  }

  function SetInJar(jar: seq<Cookie>, name: string, value: string): seq<Cookie>
  {
    if |jar| == 0 then [(name, value)]
    else if jar[0].0 == name then [(name, value)] + jar[1..]
    else [jar[0]] + SetInJar(jar[1..], name, value)
  }
}
