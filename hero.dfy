/** The hero banner: where its "Enter" link points, and the rotating tagline
    under the title (src/components/Hero.tsx). */
module Hero {

  import Numeric
  import opened UrlText

  /** What the link resolver sees when the module loads. `appUrl` is
      VITE_WL_APP_URL, with the empty string standing for "unset" (both are
      falsy, so the code treats them alike). */
  datatype Env = Env(
    appUrl: string,
    hasWindow: bool,
    dev: bool,
    protocol: string,
    hostname: string,
    port: string)

  /** WL_MAP_URL: the explicit base first, then the two development
      guesses, otherwise the relative path. */
  function MapUrl(env: Env): (r: string)
    ensures EndsWith(r, "/map")
    ensures env.appUrl != "" ==> r == StripTrailingSlash(env.appUrl) + "/map"
    ensures env.appUrl == "" && !(env.hasWindow && env.dev) ==> r == "/map"
    ensures env.appUrl == "" && env.port != "5174" && env.hostname != "localhost" && env.hostname != "127.0.0.1" ==>
      r == "/map"
  {
    if env.appUrl != "" then StripTrailingSlash(env.appUrl) + "/map"
    else if env.hasWindow && env.dev && env.port == "5174" then "http://localhost:5173/map"
    else if env.hasWindow && env.dev && (env.hostname == "localhost" || env.hostname == "127.0.0.1")
    then env.protocol + "//" + env.hostname + ":5173/map"
    else "/map"
  }

  /** A configured base wins over everything the browser reports. */
  lemma BaseUrlTakesPriority(e1: Env, e2: Env)
    requires e1.appUrl == e2.appUrl && e1.appUrl != ""
    ensures MapUrl(e1) == MapUrl(e2)
  {
  }

  /** In development, port 5174 points at the app on port 5173 of localhost,
      whatever the host name is. */
  lemma DevPortPointsAtApp(env: Env)
    requires env.appUrl == "" && env.hasWindow && env.dev && env.port == "5174"
    ensures MapUrl(env) == "http://localhost:5173/map"
  {
  }

  /** In development on a local host and another port, the app is on port
      5173 of the same host and protocol. */
  lemma DevLocalHostKeepsHost(env: Env)
    requires env.appUrl == "" && env.hasWindow && env.dev && env.port != "5174"
    requires env.hostname == "localhost" || env.hostname == "127.0.0.1"
    ensures MapUrl(env) == env.protocol + "//" + env.hostname + ":5173/map"
  {
  }

  const Phrases: seq<string> := [
    "The Smartest Way To Understand The World",
    "AI-driven geopolitical intelligence",
    "Detecting global disruption in real time",
    "Monitoring conflicts & innovation worldwide"
  ]

  /** `(i + 1) % n`: the next slot of a rotation over n entries. */
  function NextIndex(i: nat, n: nat): (r: nat)
    requires i < n
    ensures r < n
    ensures i + 1 < n ==> r == i + 1
    ensures i + 1 == n ==> r == 0
  {
    (i + 1) % n
  }

  /** The slot reached after k steps of the rotation. */
  function Advance(i: nat, k: nat, n: nat): (r: nat)
    requires i < n
    ensures r < n
  {
    if k == 0 then i else NextIndex(Advance(i, k - 1, n), n)
  }

  /** k steps of the rotation add k modulo n. */
  lemma {:induction false} AdvanceIsModular(i: nat, k: nat, n: nat)
    requires i < n
    ensures Advance(i, k, n) == (i + k) % n
  {
    if k > 0 {
      AdvanceIsModular(i, k - 1, n);
      Numeric.ModSucc(i + k - 1, n);
    }
  }

  /** After n steps the rotation is back where it started. */
  lemma RotationReturns(i: nat, n: nat)
    requires i < n
    ensures Advance(i, n, n) == i
  {
    AdvanceIsModular(i, n, n);
    Numeric.DivModUnique(i + n, n, 1, i);
  }

  /** The tagline paragraph and the timer that rotates it. */
  class PhraseRotator {
    var currentIndex: nat    // currentIndexRef.current
    var text: string         // the paragraph's textContent
    var opacity: real        // the paragraph's style.opacity
    var rotating: bool       // the 3000 ms interval is installed

    ghost predicate Valid()
      reads this
    {
      currentIndex < |Phrases| && text in Phrases
    }

    /** Mounted: the paragraph shows the first phrase, nothing rotates yet. */
    constructor ()
      ensures Valid()
      ensures currentIndex == 0 && text == Phrases[0] && opacity == 1.0 && !rotating
    {
      currentIndex := 0;
      text := Phrases[0];
      opacity := 1.0;
      rotating := false;
    }

    /** The effect that installs the rotation; it returns early when the
        visitor asks for reduced motion. */
    method Start(reduceMotion: bool)
      requires Valid()
      modifies this`rotating
      ensures Valid()
      ensures rotating == !reduceMotion
    {
      if reduceMotion {
        rotating := false;
        return;
      }
      rotating := true;
    }

    /** One firing of `animateText`: fade out if the paragraph is there, then
        (after the fade) advance the index and, if the paragraph is still
        there, show the new phrase. */
    method Tick(presentAtFade: bool, presentAtSwap: bool)
      requires Valid()
      modifies this
      ensures Valid() && rotating == old(rotating)
      ensures !rotating || !presentAtFade ==>
        currentIndex == old(currentIndex) && text == old(text) && opacity == old(opacity)
      ensures rotating && presentAtFade ==> currentIndex == NextIndex(old(currentIndex), |Phrases|)
      ensures rotating && presentAtFade && presentAtSwap ==>
        text == Phrases[currentIndex] && opacity == 1.0
      ensures rotating && presentAtFade && !presentAtSwap ==> text == old(text) && opacity == 0.0
    {
      if !rotating || !presentAtFade {
        return;
      }
      opacity := 0.0;
      currentIndex := (currentIndex + 1) % |Phrases|;
      if presentAtSwap {
        text := Phrases[currentIndex];
        opacity := 1.0;
      }
    }
  }
}
