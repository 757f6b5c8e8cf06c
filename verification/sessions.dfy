/**
  Sequences of frames: the manager driven by Update once per frame, and what
  holds across several transitions.
*/
module Sessions {
  import opened Wrappers
  import opened Audio
  import opened MusicManager

  /** Runs Update once per frame, `frames[i]` being the keys that went down in frame i. */
  function Run(s: State, frames: seq<set<Key>>): (r: State)
    requires Valid(s)
    ensures Valid(r)
    ensures r.clips == s.clips && r.fadeTime == s.fadeTime && |r.sources| == |s.sources|
    ensures Consistent(s) ==> Consistent(r)
    ensures s.sceneLoads <= r.sceneLoads <= s.sceneLoads + |frames|
    decreases |frames|
  {
    if |frames| == 0 then s else Run(Update(s, frames[0]), frames[1..])
  }

  /** Running two stretches of frames one after the other is running them together. */
  lemma {:induction false} RunConcat(s: State, a: seq<set<Key>>, b: seq<set<Key>>)
    requires Valid(s)
    ensures Run(s, a + b) == Run(Run(s, a), b)
    decreases |a|
  {
    if |a| == 0 {
      assert a + b == b;
    } else {
      assert (a + b)[0] == a[0];
      assert (a + b)[1..] == a[1..] + b;
      RunConcat(Update(s, a[0]), a[1..], b);
    }
  }

  /** A key pressed alone, outside its destination scene, runs its branch. */
  lemma LonePressFires(s: State, k: Key)
    requires Valid(s) && s.scene != Destination(k)
    ensures Update(s, {k}) == Transition(s, k)
  {
    assert Enabled(s.scene, {k}, k);
    assert Fired(s.scene, {k}) == Some(k);
  }

  /** The first frame of a non-empty run is one Update. */
  lemma RunStep(s: State, frames: seq<set<Key>>)
    requires Valid(s) && |frames| > 0
    ensures Run(s, frames) == Run(Update(s, frames[0]), frames[1..])
  {
  }

  /** Two frames run one Update after the other. */
  lemma RunTwoFrames(s: State, a: set<Key>, b: set<Key>)
    requires Valid(s)
    ensures Run(s, [a, b]) == Update(Update(s, a), b)
  {
    RunStep(s, [a, b]);
    assert [a, b][1..] == [b];
    RunStep(Update(s, a), [b]);
    assert [b][1..] == [];
  }

  /** Two frames with one key each, both pressed outside their destination scene. */
  lemma TwoPresses(s: State, k1: Key, k2: Key)
    requires Valid(s) && s.scene != Destination(k1) && Destination(k1) != Destination(k2)
    ensures Run(s, [{k1}, {k2}]) == Transition(Transition(s, k1), k2)
  {
    RunTwoFrames(s, {k1}, {k2});
    LonePressFires(s, k1);
    LonePressFires(Transition(s, k1), k2);
  }

  /**
    A key pressed again in the next frame is ignored: its branch moved the
    manager to the scene the branch is guarded against, so repeated triggers do
    not re-enter a transition. A key pressed in its own destination scene is
    ignored from the start.
  */
  lemma RepeatedPressIsIgnored(s: State, k: Key)
    requires Valid(s)
    ensures Update(Update(s, {k}), {k}) == Update(s, {k})
    ensures s.scene == Destination(k) ==> Update(s, {k}) == s
  {
    if Enabled(s.scene, {k}, k) {
      UpdateRunsFirstEnabled(s, {k}, k);
      var r := Transition(s, k);
      assert forall k' :: !Enabled(r.scene, {k}, k');
    } else {
      assert forall k' :: !Enabled(s.scene, {k}, k');
    }
  }

  /**
    From the main menu just after Start, pressing 1 asks the menu music to fade
    out over the fade time while it keeps playing, and schedules the level music
    at full volume to start after the fade time, without playing it at once.
  */
  lemma StartThenFirstLevel(clips: seq<Clip>, fadeTime: real)
    requires SceneCount <= |clips|
    ensures Start(clips, fadeTime, MainMenu).Success?
    ensures var r := Update(Start(clips, fadeTime, MainMenu).value, {Alpha1});
            && r.current == FirstLevel
            && r.scene == FirstLevel
            && r.sources[MainMenu].playing
            && r.sources[MainMenu].lastFade == Some(FadeRequest(0.0, fadeTime))
            && r.sources[MainMenu].level == 0.0
            && r.sources[FirstLevel].volume == 1.0
            && r.sources[FirstLevel].level == 1.0
            && r.sources[FirstLevel].pendingDelay == Some(fadeTime)
            && r.sources[FirstLevel].plays == 0
  {
    var s := Start(clips, fadeTime, MainMenu).value;
    assert Enabled(s.scene, {Alpha1}, Alpha1);
  }

  /**
    Going from the level into the shop and straight back out cross-fades twice
    and never interrupts the level music: it is neither stopped nor restarted,
    its assigned volume is untouched, and its last fade request is the fade
    back in, so it settles at full volume. The shop music is left running
    under a fade-out request and settles at silence.
  */
  lemma ShopRoundTripKeepsLevelMusic(s: State)
    requires Consistent(s) && s.scene == FirstLevel
    ensures var r := Run(s, [{Alpha2}, {Alpha3}]);
            && r.current == FirstLevel
            && r.scene == FirstLevel
            && r.sources[FirstLevel].playing
            && r.sources[FirstLevel].plays == s.sources[FirstLevel].plays
            && r.sources[FirstLevel].stops == s.sources[FirstLevel].stops
            && r.sources[FirstLevel].volume == s.sources[FirstLevel].volume
            && r.sources[FirstLevel].lastFade == Some(FadeRequest(1.0, s.fadeTime))
            && r.sources[FirstLevel].level == 1.0
            && r.sources[ItemShop].playing
            && r.sources[ItemShop].lastFade == Some(FadeRequest(0.0, s.fadeTime))
            && r.sources[ItemShop].level == 0.0
  {
    TwoPresses(s, Alpha2, Alpha3);
  }

  /**
    Entering the level from the shop with key 1 assigns the level music full
    volume and schedules it, but issues no fade-in: its last fade request stays
    the fade-out it got when the shop was entered. Its level is full volume
    only on the order-of-requests reading: if the shop-entry fade is still
    running when key 1 comes, as it is when the keys come in adjacent frames,
    the fade overrides the assignment and the level music starts silent.
  */
  lemma LevelFromShopKeepsFadeOut(s: State)
    requires Consistent(s) && s.scene == FirstLevel
    ensures var r := Run(s, [{Alpha2}, {Alpha1}]);
            && r.current == FirstLevel
            && r.sources[FirstLevel].volume == 1.0
            && r.sources[FirstLevel].level == 1.0
            && r.sources[FirstLevel].pendingDelay == Some(s.fadeTime)
            && r.sources[FirstLevel].lastFade == Some(FadeRequest(0.0, s.fadeTime))
  {
    var s1 := GoToItemShop(s);
    var s2 := GoToFirstLevel(s1);
    TwoPresses(s, Alpha2, Alpha1);
    assert s1.sources[FirstLevel].lastFade == Some(FadeRequest(0.0, s.fadeTime)) by {
      assert CrossfadeTo(s, s1, ItemShop);
    }
    assert s2.sources[FirstLevel].lastFade == s1.sources[FirstLevel].lastFade by {
      assert DelayedCutTo(s1, s2, FirstLevel) && s1.current == ItemShop;
    }
  }

  /**
    Leaving the shop for the menu: key 4 leaves the shop music running under a
    fade-out and schedules the menu music after the fade time, while key 5
    stops the shop music at once and plays the menu music immediately.
  */
  lemma MenuFromShopFadeVersusCut(s: State)
    requires Consistent(s) && s.scene == ItemShop
    ensures var faded := Update(s, {Alpha4});
            && faded.sources[ItemShop].playing
            && faded.sources[ItemShop].lastFade == Some(FadeRequest(0.0, s.fadeTime))
            && faded.sources[ItemShop].level == 0.0
            && faded.sources[MainMenu].pendingDelay == Some(s.fadeTime)
    ensures var cut := Update(s, {Alpha5});
            && !cut.sources[ItemShop].playing
            && cut.sources[ItemShop].lastFade == s.sources[ItemShop].lastFade
            && cut.sources[ItemShop].level == s.sources[ItemShop].level
            && cut.sources[MainMenu].playing
            && cut.sources[MainMenu].pendingDelay.None?
  {
    assert Enabled(s.scene, {Alpha4}, Alpha4);
    assert Enabled(s.scene, {Alpha5}, Alpha5);
  }

  /**
    The hard cut does not undo an earlier fade. After Start in the main menu,
    key 1 fades the menu music out and leaves it running; key 5 then plays it
    again with no volume assignment and no fade-in, so it plays on at the
    silence it settled at. Its assigned volume is still the default: only the
    fade request records the silence.
  */
  lemma HardCutAfterLevelKeepsMenuSilent(clips: seq<Clip>, fadeTime: real)
    requires SceneCount <= |clips|
    ensures Start(clips, fadeTime, MainMenu).Success?
    ensures var r := Run(Start(clips, fadeTime, MainMenu).value, [{Alpha1}, {Alpha5}]);
            && r.current == MainMenu
            && r.scene == MainMenu
            && r.sources[MainMenu].playing
            && r.sources[MainMenu].plays == 2
            && r.sources[MainMenu].volume == 1.0
            && r.sources[MainMenu].level == 0.0
            && r.sources[MainMenu].lastFade == Some(FadeRequest(0.0, fadeTime))
            && !r.sources[FirstLevel].playing
  {
    var s := Start(clips, fadeTime, MainMenu).value;
    TwoPresses(s, Alpha1, Alpha5);
  }
}
