/** The background-music player: it renders only when a music URL is
    configured, shows its button once the invitation is opened, starts by
    itself only for a returning visitor, and toggles between playing and
    paused. Whether the browser lets `play()` succeed is a parameter. */
module Music {
  import opened Wrappers
  import opened Config
  import AssetCache

  /** `musicUrl && musicUrl.length > 0`. */
  predicate HasMusic(music: Option<MusicConfig>) {
    music.Some? && |music.value.url| > 0
  }

  /** `isMusicPlaying` and `isReturningVisitor`. The audio element is
      rendered exactly when there is music, so "the audio element exists"
      is `HasMusic`. */
  datatype Player = Player(playing: bool, returning: bool)

  /** The state after the first effect, which asks the asset cache whether
      this browser has been here before. */
  function Mount(browser: AssetCache.Browser): (p: Player)
    ensures !p.playing
    ensures p.returning <==> AssetCache.IsAssetsCached(browser)
  {
    Player(false, AssetCache.IsAssetsCached(browser))
  }

  /** The autoplay effect, run when `isOpened`, the music or the visitor
      flag change: it plays only for an opened invitation with music and a
      returning visitor, and records whether the browser allowed it. */
  function Autoplay(p: Player, isOpened: bool, hasMusic: bool, playSucceeds: bool): (r: Player)
    ensures r.returning == p.returning
    ensures isOpened && hasMusic && p.returning ==> (r.playing <==> playSucceeds)
    ensures !(isOpened && hasMusic && p.returning) ==> r == p
  {
    if isOpened && hasMusic && p.returning then p.(playing := playSucceeds) else p
  }

  /** `toggleMusic`: pausing always works; a refused `play()` leaves the
      state as it was. */
  function Toggle(p: Player, hasMusic: bool, playSucceeds: bool): (r: Player)
    ensures r.returning == p.returning
    ensures !hasMusic ==> r == p
    ensures hasMusic && p.playing ==> !r.playing
    ensures hasMusic && !p.playing ==> (r.playing <==> playSucceeds)
  {
    if !hasMusic then p
    else if p.playing then p.(playing := false)
    else if playSucceeds then p.(playing := true)
    else p
  }

  /** What is rendered: nothing without music; the audio element alone
      before the invitation is opened; then the button too, labelled by the
      state. */
  datatype View = Nothing | AudioOnly(src: string) | WithButton(src: string, ariaLabel: string)

  function Render(music: Option<MusicConfig>, isOpened: bool, p: Player): (v: View)
    ensures v == Nothing <==> !HasMusic(music)
    ensures v.WithButton? <==> HasMusic(music) && isOpened
    ensures v.WithButton? ==> (v.ariaLabel == "Pause Music" <==> p.playing)
    ensures v != Nothing ==> v.src == music.value.url
  {
    if !HasMusic(music) then Nothing
    else if !isOpened then AudioOnly(music.value.url)
    else WithButton(music.value.url, if p.playing then "Pause Music" else "Play Music")
  }

  /** The configuration that ships has no music, so the player renders
      nothing. */
  lemma ShippedDataHasNoMusic(data: WeddingData, isOpened: bool, p: Player)
    requires data.music.None?
    ensures Render(data.music, isOpened, p) == Nothing
  {
  }

  // ---------------------------------------------------------------------
  // Runs of events

  /** An autoplay run or a click on the button, with the outcome of the
      `play()` it may call. */
  datatype Event = AutoplayRun(isOpened: bool, ok: bool) | Click(ok: bool)

  function Step(p: Player, hasMusic: bool, e: Event): Player {
    match e
    case AutoplayRun(isOpened, ok) => Autoplay(p, isOpened, hasMusic, ok)
    case Click(ok) => Toggle(p, hasMusic, ok)
  }

  function Run(p: Player, hasMusic: bool, events: seq<Event>): Player
    decreases |events|
  {
    if |events| == 0 then p
    else Step(Run(p, hasMusic, events[..|events| - 1]), hasMusic, events[|events| - 1])
  }

  /** An event that can start the music: an allowed `play()` from a click,
      or from an autoplay run on an opened invitation for a returning
      visitor. */
  predicate Starts(e: Event, returning: bool) {
    match e
    case AutoplayRun(isOpened, ok) => isOpened && returning && ok
    case Click(ok) => ok
  }

  /** Music that plays was started by some event the browser allowed, and
      only when there is music at all; the visitor flag never changes. */
  lemma {:induction false} PlayingWasStarted(p: Player, hasMusic: bool, events: seq<Event>)
    requires !p.playing
    ensures Run(p, hasMusic, events).returning == p.returning
    ensures Run(p, hasMusic, events).playing ==>
      hasMusic && exists i :: 0 <= i < |events| && Starts(events[i], p.returning)
    decreases |events|
  {
    if |events| > 0 {
      var last := |events| - 1;
      PlayingWasStarted(p, hasMusic, events[..last]);
      var before := Run(p, hasMusic, events[..last]);
      if Run(p, hasMusic, events).playing {
        if before.playing {
          var i :| 0 <= i < last && Starts(events[..last][i], p.returning);
          assert events[i] == events[..last][i];
        } else {
          assert Starts(events[last], p.returning);
        }
      }
    }
  }

  /** A first-time visitor never hears music start by itself: only a click
      can start it. */
  lemma {:induction false} FirstVisitNoAutoplay(p: Player, hasMusic: bool, events: seq<Event>)
    requires !p.playing && !p.returning
    requires forall i :: 0 <= i < |events| ==> events[i].AutoplayRun?
    ensures !Run(p, hasMusic, events).playing && !Run(p, hasMusic, events).returning
    decreases |events|
  {
    if |events| > 0 {
      var last := |events| - 1;
      assert forall i :: 0 <= i < last ==> events[..last][i] == events[i];
      FirstVisitNoAutoplay(p, hasMusic, events[..last]);
      assert events[last].AutoplayRun?;
    }
  }

  /** Two clicks whose `play()` is allowed bring the player back to where it
      was. */
  lemma ToggleTwice(p: Player)
    ensures Toggle(Toggle(p, true, true), true, true) == p
  {
  }

  /** A returning visitor who opens the invitation hears the music when the
      browser allows autoplay; a new visitor does not. */
  lemma OpenInvitation(browser: AssetCache.Browser, music: Option<MusicConfig>, ok: bool)
    requires HasMusic(music)
    ensures var p := Autoplay(Mount(browser), true, true, ok);
      (p.playing <==> AssetCache.IsAssetsCached(browser) && ok)
      && Render(music, true, p).WithButton?
  {
  }
}
