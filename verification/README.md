# Music manager: zone-to-track state machine

This is a Dafny model of the `MusicManager` component of a small Unity demo. The component keeps one
looping audio source per music clip. One of those sources is the "current" one. Pressing the number
keys 1 to 5 moves the game between three scenes: the main menu (build index 0), the first level (1)
and the item shop (2). Each move changes which music plays, in one of three ways:

- a fade-out followed by a delayed restart (keys 1 and 4);
- a cross-fade that leaves the old music running (keys 2 and 3);
- a hard cut (key 5).

The model is purely functional:

- `Audio` (`audio.dfy`) holds the abstract state of one audio source and the calls the manager makes
  on it: Play, Stop, setting the volume, PlayDelayed and DOTween's DOFade. Each call is a pure
  update of a `Source` record. A source counts the Play and Stop calls it receives. It remembers its
  scheduled delayed start, the last fade requested on it and the level it settles at.
- `MusicManager` (`music_manager.dfy`) holds the manager `State`:
  - the clips and their sources;
  - the index of the current source;
  - the active scene and a count of scene loads requested;
  - the fade time.

  It also holds `Start`, `FadeOut`, `FadeIn`, `PlaySong`, the four named transitions and the key-5
  hard cut, and `Update`. `Update` takes the set of keys that went down in a frame and runs the
  else-if chain over them.
- Each transition is written as the sequence of engine calls the component makes, in the
  component's order. So the case where the old current source is also the destination behaves as it
  does in the component. Three predicates (`DelayedCutTo`, `CrossfadeTo`, `HardCutToMenu`) state
  what each kind of transition does to every source, independently of that call sequence. The
  transition functions are proved to meet them.
- `Sessions` (`sessions.dfy`) runs `Update` over a sequence of frames. It proves properties of
  several transitions in a row:
  - a repeated key press is ignored;
  - a shop round trip leaves the level music running;
  - key 1 from the shop leaves the level music without a fade-in request;
  - key 4 fades the shop music out, while key 5 cuts it;
  - after key 1, key 5 replays the menu music while it is still faded out, so it plays at silence.

Modelling choices:

- `PlayDelayed` sets `playing`, because the engine reports a scheduled source as playing. It also
  records the delay in `pendingDelay`. Play and Stop cancel that schedule.
- A source has two volumes. `volume` is the value last assigned to the source's `volume` property;
  the engine default is 1.0 until an assignment happens. `level` is the volume the source settles at
  once its last fade has run its course. It is the target of the last fade or the last assigned
  volume, whichever was requested later. A fade is recorded as a request (target volume, duration)
  and moves `level` to its target. It does not change `volume`. In the engine, `DOFade` rewrites
  `volume` itself while it runs, so there the settled volume is the model's `level`.
- A scene load takes effect before the next frame. So `scene` is the active scene that the next
  `Update` tests.
- `Valid` requires at least one clip per scene, that is at least three sources, as the component's
  configuration comment at lines 58-60 demands. The transitions address sources 0, 1 and 2 without
  checking.
- `Start` with no clips fails with `IndexOutOfRange`, because indexing source 0 would throw there.
  `PlaySong` with an index out of range fails the same way.
- Consistent means the current source is the active scene's source and is playing. `Start` sets it
  up when the first scene is the main menu, and `Update` preserves it.
- `Update` is a fixed else-if chain, and a key whose guard fails is skipped without changing the
  state.

## Model

| member | source | states |
|---|---|---|
| `Audio.Apply` | Assets/Scripts/MusicManager.cs:92-151 | Each engine call changes only what it should. Play starts the source and Stop halts it, and both cancel any scheduled start. PlayDelayed schedules a start after its delay, and the source reports itself as playing. A volume assignment sets both the assigned volume and the level the source settles at, and leaves playback and the schedule alone. A fade request records its target and duration as the source's last fade, leaves playback, the assigned volume and the schedule alone, and makes its target the settled level. No call rebinds a source's clip or loop flag. Only Play counts a play and only Stop counts a stop |
| `MusicManager.Start` | Assets/Scripts/MusicManager.cs:43-63 | Start fails exactly when there are no clips. Otherwise it has one looping source per clip, bound to the clip of the same index, all at full assigned and settled volume with no fade or schedule; only source 0 is playing, played once, and it is current. With three clips it is a valid manager, and consistent when the first scene is the main menu |
| `MusicManager.FadeOut` | Assets/Scripts/MusicManager.cs:92-98 | Fading out records a fade request to volume 0 over the given time on the given source, which then settles at silence; it keeps playing, its assigned volume is unchanged, and nothing else changes |
| `MusicManager.FadeIn` | Assets/Scripts/MusicManager.cs:100-102 | Fading in records a fade request to volume 1 over the given time on the given source, which then settles at full volume; it does not start a stopped source, and nothing else changes |
| `MusicManager.PlaySong` | Assets/Scripts/MusicManager.cs:104-106 | PlaySong succeeds exactly for an existing index. It then plays that source once and cancels any schedule. Every other field of that source, every other source, the current source and the scene are unchanged, so a valid manager stays valid |
| `MusicManager.GoToFirstLevel` | Assets/Scripts/MusicManager.cs:108-120 | The old current source only gets a fade-out request, so it settles at silence, and it keeps playing. The level source is stopped once, assigned full volume and scheduled after the fade time with no immediate play. It becomes current, the level scene is loaded once, and no other source changes |
| `MusicManager.GoToItemShop` | Assets/Scripts/MusicManager.cs:122-131 | The old current source only gets a fade-out request, so it settles at silence, and it keeps running. The shop source gets a fade-in request, so it settles at full volume, and ends up playing; it is played once exactly when it was not playing, and it is never stopped. It becomes current, the shop scene is loaded once, and no other source changes |
| `MusicManager.ExitItemShop` | Assets/Scripts/MusicManager.cs:133-141 | The same cross-fade as the shop entry, with the level source as destination and the level scene loaded once |
| `MusicManager.BackToMainMenu` | Assets/Scripts/MusicManager.cs:143-151 | The same fade-out and delayed restart as the level entry, with the menu source as destination and the menu scene loaded once |
| `MusicManager.HardCut` | Assets/Scripts/MusicManager.cs:80-87 | The old current source is stopped at once. The menu source is played once immediately, with no schedule, no fade request and no volume assignment, so it plays at the level it had settled at, and becomes current. The menu scene is loaded once and no other source changes |
| `MusicManager.Fired` | Assets/Scripts/MusicManager.cs:71-80 | The branch that runs is for a key that went down this frame outside its own destination scene; every key tested earlier in the chain is not enabled; no branch runs only when no key is enabled |
| `MusicManager.Transition` | Assets/Scripts/MusicManager.cs:71-87 | Every branch keeps the manager valid, makes its destination both the current source and the active scene with that source playing, loads one scene, and touches no source except the old current one and the destination |
| `MusicManager.Update` | Assets/Scripts/MusicManager.cs:69-89 | A frame changes the state exactly when some key is enabled, and then loads at most one scene. The first enabled key in the chain decides the destination and the sources touched. Validity and consistency are preserved, and a consistent manager that changes always moves to a different source |
| `MusicManager.UpdateRunsFirstEnabled` | Assets/Scripts/MusicManager.cs:71-87 | With a key enabled and every key before it in the chain not enabled, the frame is exactly that key's transition, whatever other keys are down |
| `Sessions.Run` | Assets/Scripts/MusicManager.cs:69-89 | Running any sequence of frames keeps the manager valid and consistent, keeps its clips and fade time, and loads at most one scene per frame |
| `Sessions.RunConcat` | Assets/Scripts/MusicManager.cs:69-89 | Running two stretches of frames one after the other is the same as running them together |
| `Sessions.LonePressFires` | Assets/Scripts/MusicManager.cs:71-87 | A key pressed alone, outside its destination scene, runs its own branch |
| `Sessions.TwoPresses` | Assets/Scripts/MusicManager.cs:71-87 | Two single-key frames to different destinations run the two branches in order |
| `Sessions.RepeatedPressIsIgnored` | Assets/Scripts/MusicManager.cs:71-87 | Pressing the same key in the next frame does nothing, because its branch leads to the scene it is guarded against; a key pressed in its own destination scene is ignored |
| `Sessions.StartThenFirstLevel` | Assets/Scripts/MusicManager.cs:62-117 | After Start in the main menu, key 1 leaves the level active and current, asks the menu music to fade out over the fade time while it keeps playing, and schedules the level music at full volume after the fade time without playing it |
| `Sessions.ShopRoundTripKeepsLevelMusic` | Assets/Scripts/MusicManager.cs:122-141 | From the level, keys 2 then 3 return to the level without stopping or restarting the level music or assigning it a volume; its last request is a fade-in, so it settles at full volume. The shop music is left playing under a fade-out and settles at silence |
| `Sessions.LevelFromShopKeepsFadeOut` | Assets/Scripts/MusicManager.cs:108-131 | From the level, keys 2 then 1 assign the level music full volume and schedule it, with no fade-in. Its last fade request is still the fade-out from entering the shop. Its level is 1.0 only once the shop-entry fade has run its course. In adjacent frames the running fade-out overrides the assignment and the level music starts silent |
| `Sessions.MenuFromShopFadeVersusCut` | Assets/Scripts/MusicManager.cs:78-87 | From the shop, key 4 leaves the shop music playing under a fade-out, settling at silence, and schedules the menu music after the fade time. Key 5 stops the shop music with its fade request and level unchanged and plays the menu music at once |
| `Sessions.HardCutAfterLevelKeepsMenuSilent` | Assets/Scripts/MusicManager.cs:80-117 | After Start in the main menu, keys 1 then 5 play the menu music a second time while it is still under the fade-out from key 1. Nothing assigns its volume or fades it back in, so it plays on at silence; its assigned volume is still the default 1.0 |

## Left out

- The singleton enforcement and persistence across scene loads in `Awake` (lines 23-33) are engine object-lifetime concerns. The model has one manager value.
- The creation of child game objects at lines 47-48 is left out. Only the sources they carry are modelled.
- Keyboard input is not polled. The keys that went down in a frame are a parameter of `Update`.
- Scene loading itself is left out. A load sets the active scene for the next frame and is counted; the initial active scene is a parameter of `Start`.
- DOTween's ramps and easing are left out. A fade is recorded as its last request and the level it settles at; the volume along the ramp is not modelled.
- The model applies fades and volume assignments in the order they are requested, as if each fade ran to its end before the next request on the same source. In the engine, a fade that is still running overrides a volume assigned meanwhile. This matters in two cases. In the first, a key whose transition assigns a volume to a source is pressed before a fade on that source has run for `fadeTime`; `Run` puts consecutive key presses in adjacent frames, so this includes them. In the second, the old current source of a fade-out-and-restart is also its destination. `Consistent` rules this out, but it is reachable when the first scene is not the main menu and key 4 is pressed: `Start` makes source 0 current, and `BackToMainMenu` then fades source 0 out and assigns it full volume. The model says the source settles at 1.0, while in the engine the fade-out from line 144 keeps running and the menu music starts silent.
- Sessions.LevelFromShopKeepsFadeOut: its `level == 1.0` holds only when key 1 comes after the shop-entry fade-out on the level source has finished. In the adjacent frames that `Run` models, the engine's running fade-out overrides the volume assignment at line 116, and the level music starts silent. The model has no clock to tell the two cases apart.
- Audio timing is left out: when a delayed start actually begins and where playback is in the clip. The delay of `PlayDelayed` is recorded, not elapsed.
- `float` fade times and volumes are modelled as `real`, so there is no rounding.
- Configurations with fewer than three clips are excluded from the transitions by `Valid`, although the component would run some keys with them. The other keys throw part-way through, after the fade-out of the current source has been issued:
  - With two clips, only key 2 throws, at line 125.
  - With one clip, key 1 throws at line 115, after it has also requested scene 1. Key 2 throws at line 125 and key 3 at line 135.
  - Keys 4 and 5 only touch source 0 and the current source, so they run normally.
  - With no clips, `Start` fails, as the model states.
- Whether a source is audible yet is not modelled: a scheduled source reports `playing` before it is audible. The model does not tell "audible now" from "scheduled" except through `pendingDelay`.
