/**
 * The control page's cookie reader `getCookie`: split `document.cookie` at ';', strip the
 * leading spaces of each piece, and decode the first piece that starts with `name=`.
 */
module Cookies {
  import opened Wrappers
  import opened Text
  import Storage

  /** The first piece, once its leading spaces are gone, that starts with `nameEq`; the rest of it. */
  function FirstMatch(pieces: seq<string>, nameEq: string): Option<string>
  {
    if |pieces| == 0 then None
    else
      var c := TrimLeadingSpaces(pieces[0]);
      if StartsWith(c, nameEq) then Some(c[|nameEq|..]) else FirstMatch(pieces[1..], nameEq)
  }

  /** What `getCookie(name)` returns for a given `document.cookie` text (`None` is `null`). */
  function CookieValue(cookieText: string, name: string, decode: string -> string): Option<string>
  {
    match FirstMatch(Split(cookieText, ';'), name + "=")
    case Some(raw) => Some(decode(raw))
    case None => None
  }

  /** `getCookie`: the loop over the pieces of the cookie text. */
  method GetCookie(cookieText: string, name: string, decode: string -> string) returns (r: Option<string>)
    ensures r == CookieValue(cookieText, name, decode)
  {
    var nameEq := name + "=";
    var ca := Split(cookieText, ';');
    var i := 0;
    while i < |ca|
      invariant 0 <= i <= |ca|
      invariant FirstMatch(ca, nameEq) == FirstMatch(ca[i..], nameEq)
    {
      var c := ca[i];
      while |c| > 0 && c[0] == ' '
        invariant TrimLeadingSpaces(c) == TrimLeadingSpaces(ca[i])
      {
        c := c[1..];
      }
      assert ca[i..][1..] == ca[i + 1..];
      if StartsWith(c, nameEq) {
        return Some(decode(c[|nameEq|..]));
      }
      i := i + 1;
    }
    return None;
  }

  /** One `name=value` entry of `document.cookie`. */
  function Entry(c: Storage.Cookie): string {
    c.0 + "=" + c.1
  }

  /** `document.cookie`: the jar's entries joined by "; ". */
  function JarText(jar: seq<Storage.Cookie>): string
  {
    if |jar| == 0 then ""
    else if |jar| == 1 then Entry(jar[0])
    else Entry(jar[0]) + "; " + JarText(jar[1..])
  }

  /** Cookie names and values as a browser and `encodeURIComponent` produce them. */
  predicate WellFormedCookie(c: Storage.Cookie) {
    ';' !in c.0 && '=' !in c.0 && (|c.0| > 0 ==> c.0[0] != ' ') && ';' !in c.1
  }

  predicate WellFormedJar(jar: seq<Storage.Cookie>) {
    forall k :: 0 <= k < |jar| ==> WellFormedCookie(jar[k])
  }

  /** The value of the first cookie of that name in the jar. */
  function JarValue(jar: seq<Storage.Cookie>, name: string): Option<string>
  {
    if |jar| == 0 then None
    else if jar[0].0 == name then Some(jar[0].1)
    else JarValue(jar[1..], name)
  }

  /** An entry starts with `name=` exactly when it is the entry of that cookie. */
  lemma EntryPrefix(c: Storage.Cookie, name: string)
    requires WellFormedCookie(c) && '=' !in name
    ensures StartsWith(Entry(c), name + "=") <==> c.0 == name
    ensures c.0 == name ==> Entry(c)[|name + "="|..] == c.1
  {
    var e, p := Entry(c), name + "=";
    if c.0 != name && |p| <= |e| {
      if |c.0| < |name| {
        assert e[|c.0|] == '=';
        PrefixDiffers(e, p, |c.0|);
      } else if |c.0| > |name| {
        assert e[|name|] == c.0[|name|];
        PrefixDiffers(e, p, |name|);
      } else {
        var i :| 0 <= i < |name| && c.0[i] != name[i];
        assert e[i] == c.0[i];
        PrefixDiffers(e, p, i);
      }
    }
    if c.0 == name {
      assert e == p + c.1;
    }
  }

  lemma PrefixDiffers(e: string, p: string, k: nat)
    requires k < |p| <= |e| && e[k] != p[k]
    ensures !StartsWith(e, p)
  {
    assert e[..|p|][k] == e[k];
  }

  /** Stripping the space the jar puts after each separator gives the entry back. */
  lemma TrimEntry(c: Storage.Cookie)
    requires WellFormedCookie(c)
    ensures TrimLeadingSpaces(" " + Entry(c)) == Entry(c)
    ensures TrimLeadingSpaces(Entry(c)) == Entry(c)
  {
    var e := Entry(c);
    assert (" " + e)[1..] == e;
    assert e[0] != ' ' by {
      if |c.0| > 0 { assert e[0] == c.0[0]; } else { assert e[0] == '='; }
    }
  }

  /** How `document.cookie` splits at ';': the first entry, then each later one behind a space. */
  lemma {:induction false} SplitJar(p: string, jar: seq<Storage.Cookie>)
    requires |jar| > 0 && WellFormedJar(jar) && ';' !in p
    ensures Split(p + JarText(jar), ';') == [p + Entry(jar[0])] + SpacedEntries(jar[1..])
    decreases |jar|
  {
    if |jar| == 1 {
      var s := p + Entry(jar[0]);
      assert ';' !in s by {
        assert WellFormedCookie(jar[0]);
        forall k | 0 <= k < |s| ensures s[k] != ';' {
          if k >= |p| + |jar[0].0| + 1 { assert s[k] == jar[0].1[k - |p| - |jar[0].0| - 1]; }
          else if k >= |p| + |jar[0].0| { assert s[k] == '='; }
          else if k >= |p| { assert s[k] == jar[0].0[k - |p|]; }
        }
      }
      assert SpacedEntries(jar[1..]) == [];
    } else {
      var a := p + Entry(jar[0]);
      assert ';' !in a by {
        assert WellFormedCookie(jar[0]);
        forall k | 0 <= k < |a| ensures a[k] != ';' {
          if k >= |p| + |jar[0].0| + 1 { assert a[k] == jar[0].1[k - |p| - |jar[0].0| - 1]; }
          else if k >= |p| + |jar[0].0| { assert a[k] == '='; }
          else if k >= |p| { assert a[k] == jar[0].0[k - |p|]; }
        }
      }
      var b := " " + JarText(jar[1..]);
      assert p + JarText(jar) == a + [';'] + b;
      SplitAfter(a, ';', b);
      SplitJar(" ", jar[1..]);
      assert jar[1..][1..] == jar[2..];
    }
  }

  function SpacedEntries(jar: seq<Storage.Cookie>): seq<string>
  {
    if |jar| == 0 then [] else [" " + Entry(jar[0])] + SpacedEntries(jar[1..])
  }

  lemma {:induction false} FirstMatchSpaced(jar: seq<Storage.Cookie>, name: string)
    requires WellFormedJar(jar) && '=' !in name
    ensures FirstMatch(SpacedEntries(jar), name + "=") == JarValue(jar, name)
    decreases |jar|
  {
    if |jar| > 0 {
      TrimEntry(jar[0]);
      EntryPrefix(jar[0], name);
      assert SpacedEntries(jar)[1..] == SpacedEntries(jar[1..]);
      FirstMatchSpaced(jar[1..], name);
    }
  }

  /**
   * Reading a cookie back: for a jar of well-formed cookies, `getCookie(name)` decodes the
   * value of the first cookie of that name, and gives `null` when the jar has none.
   */
  lemma ReadBack(jar: seq<Storage.Cookie>, name: string, decode: string -> string)
    requires WellFormedJar(jar) && '=' !in name
    ensures CookieValue(JarText(jar), name, decode) ==
              match JarValue(jar, name) case Some(v) => Some(decode(v)) case None => None
  {
    if |jar| == 0 {
      assert JarText(jar) == "";
      assert Split("", ';') == [""];
      assert TrimLeadingSpaces("") == "";
      assert FirstMatch([""], name + "=") == FirstMatch([], name + "=");
    } else {
      assert "" + JarText(jar) == JarText(jar);
      SplitJar("", jar);
      assert "" + Entry(jar[0]) == Entry(jar[0]);
      TrimEntry(jar[0]);
      EntryPrefix(jar[0], name);
      FirstMatchSpaced(jar[1..], name);
      var pieces := [Entry(jar[0])] + SpacedEntries(jar[1..]);
      assert pieces[1..] == SpacedEntries(jar[1..]);
    }
  }

  /** After a cookie is set, reading it returns the decoded new value; other cookies keep theirs. */
  lemma {:induction false} SetThenGet(jar: seq<Storage.Cookie>, name: string, other: string, v: string)
    ensures JarValue(Storage.SetInJar(jar, name, v), name) == Some(v)
    ensures other != name ==> JarValue(Storage.SetInJar(jar, name, v), other) == JarValue(jar, other)
    decreases |jar|
  {
    if |jar| > 0 && jar[0].0 != name {
      SetThenGet(jar[1..], name, other, v);
      assert Storage.SetInJar(jar, name, v)[1..] == Storage.SetInJar(jar[1..], name, v);
    } else if |jar| > 0 {
      assert Storage.SetInJar(jar, name, v)[1..] == jar[1..];
    }
  }
}
