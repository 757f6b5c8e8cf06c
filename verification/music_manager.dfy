/**
  The MusicManager component: one looping source per music clip, a pointer to the
  "current" source, and the hard-coded transitions between the demo's three scenes
  (main menu, first level, item shop). Every engine call the manager makes is a
  pure update of `State`: calls on a source update that source's record, and a
  scene load records the scene requested.
*/
module MusicManager {
  import opened Wrappers
  import opened Audio

  /** Build indices of the demo's scenes; scene i has music clip i. */
  const MainMenu: nat := 0
  const FirstLevel: nat := 1
  const ItemShop: nat := 2

  /** The demo has one clip per scene, and the transitions address sources 0, 1 and 2. */
  const SceneCount: nat := 3

  /** The error `Start` or `PlaySong` runs into on a missing source. */
  datatype Fault = IndexOutOfRange

  /**
    The manager. `current` is the index of `currentMusicSource`; `scene` is the
    scene most recently requested, which is the active scene at the next frame;
    `sceneLoads` counts the scene loads requested so far.
  */
  datatype State = State(
    clips: seq<Clip>,
    sources: seq<Source>,
    current: nat,
    scene: nat,
    fadeTime: real,
    sceneLoads: nat)

  /**
    A configured manager: a looping source bound to each clip, at least one clip
    per scene, and a current source that exists.
  */
  predicate Valid(s: State) {
    && |s.sources| == |s.clips|
    && SceneCount <= |s.sources|
    && s.current < |s.sources|
    && forall i | 0 <= i < |s.sources| :: s.sources[i].clip == s.clips[i] && s.sources[i].loop
  }

  /**
    A manager in step with its scene: the current source is the one of the active
    scene, and it is playing (or scheduled to play).
  */
  predicate Consistent(s: State) {
    Valid(s) && s.current == s.scene && s.sources[s.current].playing
  }

  /**
    `r` has the sources, clips and fade time of `s`, except possibly the sources
    `a` and `b`.
  */
  predicate Untouched(s: State, r: State, a: nat, b: nat) {
    && |r.sources| == |s.sources|
    && r.clips == s.clips
    && r.fadeTime == s.fadeTime
    && forall j | 0 <= j < |s.sources| && j != a && j != b :: r.sources[j] == s.sources[j]
  }

  /** The fade-out the old current source gets: a ramp to 0 over the fade time. */
  function FadeOutRequest(s: State): FadeRequest {
    FadeRequest(0.0, s.fadeTime)
  }

  /** The fade-in a cross-fade's destination gets: a ramp to 1 over the fade time. */
  function FadeInRequest(s: State): FadeRequest {
    FadeRequest(1.0, s.fadeTime)
  }

  // ---------------------------------------------------------------------------
  // Engine calls
  // ---------------------------------------------------------------------------

  /** Makes call `c` on source `i`. */
  function Send(s: State, i: nat, c: Call): State
    requires i < |s.sources|
  {
    s.(sources := s.sources[i := Apply(s.sources[i], c)])
  }

  /** Requests scene `n`; the engine makes it the active scene before the next frame. */
  function Load(s: State, n: nat): State {
    s.(scene := n, sceneLoads := s.sceneLoads + 1)
  }

  // ---------------------------------------------------------------------------
  // Start
  // ---------------------------------------------------------------------------

  /**
    Start: one looping source per clip, bound to the clip of the same index;
    source 0 becomes current and is played. `activeScene` is the scene the
    engine loaded first. With no clips `musicSources[0]` is out of range.
  */
  function Start(clips: seq<Clip>, fadeTime: real, activeScene: nat): (r: Result<State, Fault>)
    ensures r.Success? <==> |clips| > 0
    ensures r.Failure? ==> r.error == IndexOutOfRange
    ensures r.Success? ==>
              && r.value.clips == clips
              && |r.value.sources| == |clips|
              && (forall i | 0 <= i < |clips| :: r.value.sources[i].clip == clips[i] && r.value.sources[i].loop)
              && r.value.current == 0
              && r.value.sources[0].playing
              && r.value.sources[0].plays == 1
              && (forall i | 0 < i < |clips| :: !r.value.sources[i].playing && r.value.sources[i].plays == 0)
              && (forall i | 0 <= i < |clips| ::
                    && r.value.sources[i].volume == 1.0
                    && r.value.sources[i].level == 1.0
                    && r.value.sources[i].pendingDelay.None?
                    && r.value.sources[i].lastFade.None?
                    && r.value.sources[i].stops == 0)
              && r.value.scene == activeScene
              && r.value.sceneLoads == 0
              && r.value.fadeTime == fadeTime
    ensures r.Success? && SceneCount <= |clips| ==> Valid(r.value)
    ensures r.Success? && SceneCount <= |clips| && activeScene == MainMenu ==> Consistent(r.value)
  {
    if |clips| == 0 then
      Failure(IndexOutOfRange)
    else
      var sources := seq(|clips|, i requires 0 <= i < |clips| => NewLooping(clips[i]));
      Success(Send(State(clips, sources, 0, activeScene, fadeTime, 0), 0, Play))
  }

  // ---------------------------------------------------------------------------
  // FadeOut, FadeIn, PlaySong
  // ---------------------------------------------------------------------------

  /**
    FadeOut: asks source `i` to ramp to silence over `t` seconds. The source
    keeps playing and its assigned volume is untouched; it settles at silence.
  */
  function FadeOut(s: State, i: nat, t: real): (r: State)
    requires i < |s.sources|
    ensures Untouched(s, r, i, i)
    ensures r.sources[i] == s.sources[i].(level := 0.0, lastFade := Some(FadeRequest(0.0, t)))
    ensures r.current == s.current && r.scene == s.scene && r.sceneLoads == s.sceneLoads
  {
    Send(s, i, DOFade(0.0, t))
  }

  /**
    FadeIn: asks source `i` to ramp to full volume over `t` seconds; it settles
    at full volume. It does not start a stopped source.
  */
  function FadeIn(s: State, i: nat, t: real): (r: State)
    requires i < |s.sources|
    ensures Untouched(s, r, i, i)
    ensures r.sources[i] == s.sources[i].(level := 1.0, lastFade := Some(FadeRequest(1.0, t)))
    ensures r.current == s.current && r.scene == s.scene && r.sceneLoads == s.sceneLoads
  {
    Send(s, i, DOFade(1.0, t))
  }

  /** PlaySong: plays the source of clip `clipIndex`, which must exist. */
  function PlaySong(s: State, clipIndex: int): (r: Result<State, Fault>)
    ensures r.Success? <==> 0 <= clipIndex < |s.sources|
    ensures r.Failure? ==> r.error == IndexOutOfRange
    ensures r.Success? ==>
              && Untouched(s, r.value, clipIndex, clipIndex)
              && r.value.sources[clipIndex]
                 == s.sources[clipIndex].(playing := true, pendingDelay := None, plays := s.sources[clipIndex].plays + 1)
              && r.value.current == s.current && r.value.scene == s.scene && r.value.sceneLoads == s.sceneLoads
    ensures r.Success? && Valid(s) ==> Valid(r.value)
  {
    if 0 <= clipIndex < |s.sources| then Success(Send(s, clipIndex, Play)) else Failure(IndexOutOfRange)
  }

  /** The cross-fades' `if (!isPlaying) Play()`. */
  function PlayUnlessPlaying(s: State, i: nat): State
    requires i < |s.sources|
  {
    if !s.sources[i].playing then Send(s, i, Play) else s
  }

  // ---------------------------------------------------------------------------
  // The four transitions and the hard cut
  // ---------------------------------------------------------------------------

  /**
    The "stop, reset, play after the fade" transition to `dest`: the old current
    source gets a fade-out request and keeps playing while it fades to silence;
    `dest` is stopped, its volume is assigned full volume and it is scheduled to
    start after the fade time, with no immediate Play; it becomes current and
    its scene is requested once. No other source changes.
  */
  predicate DelayedCutTo(s: State, r: State, dest: nat) {
    && Valid(s)
    && Valid(r)
    && dest < |s.sources|
    && Untouched(s, r, s.current, dest)
    && r.current == dest
    && r.scene == dest
    && r.sceneLoads == s.sceneLoads + 1
    && (s.current != dest ==> r.sources[s.current] == s.sources[s.current].(level := 0.0, lastFade := Some(FadeOutRequest(s))))
    && r.sources[dest].playing
    && r.sources[dest].volume == 1.0
    && r.sources[dest].level == 1.0
    && r.sources[dest].pendingDelay == Some(s.fadeTime)
    && r.sources[dest].stops == s.sources[dest].stops + 1
    && r.sources[dest].plays == s.sources[dest].plays
    && r.sources[dest].lastFade == (if s.current == dest then Some(FadeOutRequest(s)) else s.sources[dest].lastFade)
  }

  /**
    The cross-fade to `dest`: the old current source gets a fade-out request and
    is left running while it fades to silence; `dest` gets a fade-in request, so
    it settles at full volume whatever volume it had, and ends up playing, with Play
    issued on it exactly when it was not playing (a playing `dest` is not
    restarted and keeps its schedule); no source is stopped; `dest` becomes
    current and its scene is requested once. No other source changes.
  */
  predicate CrossfadeTo(s: State, r: State, dest: nat) {
    && Valid(s)
    && Valid(r)
    && dest < |s.sources|
    && Untouched(s, r, s.current, dest)
    && r.current == dest
    && r.scene == dest
    && r.sceneLoads == s.sceneLoads + 1
    && (s.current != dest ==> r.sources[s.current] == s.sources[s.current].(level := 0.0, lastFade := Some(FadeOutRequest(s))))
    && r.sources[dest].playing
    && r.sources[dest].plays == s.sources[dest].plays + (if s.sources[dest].playing then 0 else 1)
    && r.sources[dest].stops == s.sources[dest].stops
    && r.sources[dest].volume == s.sources[dest].volume
    && r.sources[dest].level == 1.0
    && r.sources[dest].lastFade == Some(FadeInRequest(s))
    && r.sources[dest].pendingDelay == (if s.sources[dest].playing then s.sources[dest].pendingDelay else None)
  }

  /**
    The hard cut to the main menu: the old current source is stopped at once;
    source 0 is played with neither a fade request nor a volume assignment, so
    it plays at whatever level it had settled at; it becomes current and the
    main menu is requested once. No other source changes.
  */
  predicate HardCutToMenu(s: State, r: State) {
    && Valid(s)
    && Valid(r)
    && Untouched(s, r, s.current, MainMenu)
    && r.current == MainMenu
    && r.scene == MainMenu
    && r.sceneLoads == s.sceneLoads + 1
    && (s.current != MainMenu ==>
          r.sources[s.current] == s.sources[s.current].(playing := false, pendingDelay := None, stops := s.sources[s.current].stops + 1))
    && r.sources[MainMenu].playing
    && r.sources[MainMenu].pendingDelay.None?
    && r.sources[MainMenu].plays == s.sources[MainMenu].plays + 1
    && r.sources[MainMenu].stops == s.sources[MainMenu].stops + (if s.current == MainMenu then 1 else 0)
    && r.sources[MainMenu].volume == s.sources[MainMenu].volume
    && r.sources[MainMenu].level == s.sources[MainMenu].level
    && r.sources[MainMenu].lastFade == s.sources[MainMenu].lastFade
  }

  /** GoToFirstLevel: fade the current music out and start the level music from the top after the fade. */
  function GoToFirstLevel(s: State): (r: State)
    requires Valid(s)
    ensures DelayedCutTo(s, r, FirstLevel)
  {
    var s1 := FadeOut(s, s.current, s.fadeTime);
    var s2 := Load(s1, FirstLevel);
    var s3 := Send(s2, FirstLevel, Stop);
    var s4 := Send(s3, FirstLevel, SetVolume(1.0));
    var s5 := Send(s4, FirstLevel, PlayDelayed(s.fadeTime));
    s5.(current := FirstLevel)
  }

  /** GoToItemShop: cross-fade from the current music to the shop music. */
  function GoToItemShop(s: State): (r: State)
    requires Valid(s)
    ensures CrossfadeTo(s, r, ItemShop)
  {
    var s1 := FadeOut(s, s.current, s.fadeTime);
    var s2 := PlayUnlessPlaying(s1, ItemShop);
    var s3 := FadeIn(s2, ItemShop, s.fadeTime);
    var s4 := s3.(current := ItemShop);
    Load(s4, ItemShop)
  }

  /** ExitItemShop: cross-fade from the current music back to the level music. */
  function ExitItemShop(s: State): (r: State)
    requires Valid(s)
    ensures CrossfadeTo(s, r, FirstLevel)
  {
    var s1 := FadeOut(s, s.current, s.fadeTime);
    var s2 := FadeIn(s1, FirstLevel, s.fadeTime);
    var s3 := PlayUnlessPlaying(s2, FirstLevel);
    var s4 := s3.(current := FirstLevel);
    Load(s4, FirstLevel)
  }

  /** BackToMainMenu: fade the current music out and start the menu music from the top after the fade. */
  function BackToMainMenu(s: State): (r: State)
    requires Valid(s)
    ensures DelayedCutTo(s, r, MainMenu)
  {
    var s1 := FadeOut(s, s.current, s.fadeTime);
    var s2 := Load(s1, MainMenu);
    var s3 := Send(s2, MainMenu, Stop);
    var s4 := Send(s3, MainMenu, SetVolume(1.0));
    var s5 := Send(s4, MainMenu, PlayDelayed(s.fadeTime));
    s5.(current := MainMenu)
  }

  /** The key-5 branch of Update: stop the current music and play the menu music at once. */
  function HardCut(s: State): (r: State)
    requires Valid(s)
    ensures HardCutToMenu(s, r)
  {
    var s1 := Send(s, s.current, Stop);
    var s2 := Load(s1, MainMenu);
    var s3 := Send(s2, MainMenu, Play);
    s3.(current := MainMenu)
  }

  // ---------------------------------------------------------------------------
  // Update: the guarded key dispatch
  // ---------------------------------------------------------------------------

  /** The keys the manager listens to, Alpha1 to Alpha5. */
  datatype Key = Alpha1 | Alpha2 | Alpha3 | Alpha4 | Alpha5

  /** The scene a key's branch is guarded against, which is also the scene it goes to. */
  function Destination(k: Key): nat {
    match k
    case Alpha1 => FirstLevel
    case Alpha2 => ItemShop
    case Alpha3 => FirstLevel
    case Alpha4 => MainMenu
    case Alpha5 => MainMenu
  }

  /** A key's place in the else-if chain: lower is tested first. */
  function Rank(k: Key): nat {
    match k
    case Alpha1 => 1
    case Alpha2 => 2
    case Alpha3 => 3
    case Alpha4 => 4
    case Alpha5 => 5
  }

  /** A branch's condition: its key went down this frame and the active scene is not its destination. */
  predicate Enabled(scene: nat, pressed: set<Key>, k: Key) {
    k in pressed && scene != Destination(k)
  }

  /**
    The branch of Update's else-if chain that runs this frame, if any: the
    enabled key tested first.
  */
  function Fired(scene: nat, pressed: set<Key>): (r: Option<Key>)
    ensures r.Some? ==> Enabled(scene, pressed, r.value)
    ensures r.Some? ==> forall k | Rank(k) < Rank(r.value) :: !Enabled(scene, pressed, k)
    ensures r.None? ==> forall k :: !Enabled(scene, pressed, k)
  {
    if Alpha1 in pressed && scene != FirstLevel then Some(Alpha1)
    else if Alpha2 in pressed && scene != ItemShop then Some(Alpha2)
    else if Alpha3 in pressed && scene != FirstLevel then Some(Alpha3)
    else if Alpha4 in pressed && scene != MainMenu then Some(Alpha4)
    else if Alpha5 in pressed && scene != MainMenu then Some(Alpha5)
    else None
  }

  /** The transition behind each key's branch. */
  function Transition(s: State, k: Key): (r: State)
    requires Valid(s)
    ensures Valid(r)
    ensures r.current == Destination(k) && r.scene == Destination(k)
    ensures r.sources[Destination(k)].playing
    ensures Untouched(s, r, s.current, Destination(k))
    ensures r.sceneLoads == s.sceneLoads + 1
  {
    match k
    case Alpha1 => GoToFirstLevel(s)
    case Alpha2 => GoToItemShop(s)
    case Alpha3 => ExitItemShop(s)
    case Alpha4 => BackToMainMenu(s)
    case Alpha5 => HardCut(s)
  }

  /**
    Update: given the set of keys that went down this frame, runs the branch of
    the enabled key tested first, and only that one: at most one scene load is
    requested; with no enabled key nothing changes.
  */
  function Update(s: State, pressed: set<Key>): (r: State)
    requires Valid(s)
    ensures Valid(r)
    ensures r.clips == s.clips && r.fadeTime == s.fadeTime && |r.sources| == |s.sources|
    ensures r == s <==> forall k :: !Enabled(s.scene, pressed, k)
    ensures r.sceneLoads <= s.sceneLoads + 1
    ensures forall k | Enabled(s.scene, pressed, k) && (forall k' | Rank(k') < Rank(k) :: !Enabled(s.scene, pressed, k')) ::
              && r.current == Destination(k)
              && r.scene == Destination(k)
              && Untouched(s, r, s.current, Destination(k))
    ensures Consistent(s) ==> Consistent(r)
    ensures Consistent(s) && r != s ==> r.current != s.current
  {
    match Fired(s.scene, pressed)
    case None => s
    case Some(k) => Transition(s, k)
  }

  /**
    The branch that runs is the whole transition of the first enabled key:
    with key `k` enabled and every key tested before it disabled, Update is
    exactly `k`'s transition, whatever other keys are down.
  */
  lemma UpdateRunsFirstEnabled(s: State, pressed: set<Key>, k: Key)
    requires Valid(s)
    requires Enabled(s.scene, pressed, k)
    requires forall k' | Rank(k') < Rank(k) :: !Enabled(s.scene, pressed, k')
    ensures Update(s, pressed) == Transition(s, k)
  {
    var f := Fired(s.scene, pressed);
    assert f.Some?;
    assert Rank(f.value) == Rank(k);
  }
}
