/**
 * The planet names a configuration may use (utiles/getPlanetName.cpp; the
 * configuration reader in configs/planetConfig.cpp has an identical copy).
 * A name is matched after lower-casing against six spellings, one per
 * supported body; the Sun and the unset value have no spelling, and
 * Jupiter is spelt "jupter", as the enumeration is.
 */
module PlanetNames {
  import opened Wrappers
  import opened Text
  import opened PlanetScripts

  /** The lower-case spelling that names each body, if it can be named at all. */
  function Spelling(p: EPlanet): Option<string> {
    match p
    case Mercury => Some("mercury")
    case Venus => Some("venus")
    case Earth => Some("earth")
    case Mars => Some("mars")
    case Jupter => Some("jupter")
    case Moon => Some("moon")
    case Sun => None
    case ENone => None
  }

  /** A string without upper-case ASCII letters. */
  predicate IsLower(s: string) {
    forall c :: c in s ==> !('A' <= c <= 'Z')
  }

  /**
   * `GetPlanetName(name)`: the body whose spelling is the lower-cased
   * name, or the error naming the lower-cased input when there is none.
   */
  function GetPlanetName(name: string): (r: Result<EPlanet>)
    ensures r.Ok? ==> Spelling(r.value) == Some(ToLower(name))
    ensures r.Err? <==> forall p :: Spelling(p) != Some(ToLower(name))
    ensures r.Err? ==> r.error == "unexpected planet name: " + ToLower(name)
  {
    var n := ToLower(name);
    if n == "mercury" then Ok(Mercury)
    else if n == "venus" then Ok(Venus)
    else if n == "earth" then Ok(Earth)
    else if n == "mars" then Ok(Mars)
    else if n == "jupter" then Ok(Jupter)
    else if n == "moon" then Ok(Moon)
    else Err("unexpected planet name: " + n)
  }

  /** Lower-casing leaves a lower-case string as it is. */
  lemma ToLowerOfLower(s: string)
    requires IsLower(s)
    ensures ToLower(s) == s
  {
    forall i | 0 <= i < |s| ensures ToLower(s)[i] == s[i] {
      assert s[i] in s;
    }
  }

  /** Each body's spelling names that body, and only a spelled body is ever named. */
  lemma SpellingRoundTrip(p: EPlanet)
    ensures Spelling(p).Some? ==> GetPlanetName(Spelling(p).value) == Ok(p)
    ensures GetPlanetName(Spelling(p).GetOr("")).Ok? <==> Spelling(p).Some?
  {
    SpellingIsLower(p);
    ToLowerOfLower(Spelling(p).GetOr(""));
  }

  lemma SpellingIsLower(p: EPlanet)
    ensures IsLower(Spelling(p).GetOr(""))
  {
  }

  /** No two bodies share a spelling, so a name determines its body. */
  lemma SpellingInjective(p: EPlanet, q: EPlanet)
    requires Spelling(p).Some? && Spelling(p) == Spelling(q)
    ensures p == q
  {
  }

  /** The name is matched whatever its case. */
  lemma CaseInsensitive(name: string)
    ensures GetPlanetName(ToLower(name)) == GetPlanetName(name)
  {
    ToLowerIdempotent(name);
  }

  /** "Jupiter" in its usual spelling and "sun" are not accepted. */
  lemma UnacceptedNames()
    ensures GetPlanetName("Jupiter").Err? && GetPlanetName("sun").Err?
  {
    var j := ToLower("Jupiter");
    assert |j| == 7 && j[0] == LowerChar('J') == 'j';
    assert j != "mercury" by { assert "mercury"[0] == 'm'; }
    assert |ToLower("sun")| == 3;
  }
}
