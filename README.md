# Portfolio front-end: the decision layer, modelled in Dafny

This is a model of an architecture portfolio site's browser scripts. They draw
a Three.js backdrop, reveal and animate page content on scroll, and drive the
project gallery. Nearly every line of the scripts writes to the DOM or calls a
library. The model lifts out what the event handlers decide: the flags,
indices, counters and coordinates they keep, and the rule each event applies.
It then proves what those rules guarantee.

There is one module per script, plus shared helpers:

- `Projects` (`projects.dfy`, js/projects.js) models the projects page as the class `ProjectPage`.
  - Its state is the project modal's image list and current index, the "active" mark on each slider image, and the `NN / NN` counter.
  - It also holds the menu flags, the body overflow and the nav z-index, and the nav's scroll state.
  - There are pure helpers for the index wrap, the swipe decision, the counter text and its read-back, and the card tilt.
- `Animations` (`animations.dfy`, js/animations.js) models three controllers and the text transforms:
  - `ScrollAnimations`: the `ticking` throttle, the scroll ratio handed to the scene, and the 5 % lerp of the progress;
  - the project-card reveal delay;
  - `TextElement`: the `splitText` and `fadeInWords` span mappings;
  - `ParallaxController`: its lerp and the per-layer offsets.
- `Scene` (`scene3d.dfy`, js/scene3d.js) models the `Scene3D` controller as the class `Scene3D`:
  - the scene's child list by object name, and the `buildings` list;
  - the particle position buffer, an array the wave updates in place, and the scale buffer, an array written once at set-up;
  - camera, mouse and pause state;
  - `updateScroll`, `animate`, `pause`/`resume` and `toggleDebug`.
- `Page` (`main.dfy`, js/main.js) models the home page:
  - card setup as an in-place loop over an array of cards: reveal delay, hover style `index % 4`, and idle animation;
  - the tilt formula and each hover style's scaling;
  - the class `MainPage`, holding the menu and nav state, `revealSections` over an array of section flags, the visibility hook and the `d`/`D` debug key.
- Shared helpers:
  - `Smoothing` (`smoothing.dfy`) is the 5 % lerp every controller uses, with its convergence rate.
  - `Text` (`text.dfy`) is JavaScript's `String(n)` for naturals, `padStart`, and `split`/`join` on one character.
  - `Geometry` (`geometry.dfy`) holds the vectors and the pointer normalisation `(client / extent - 0.5) * 2`.
  - `Wrappers` (`wrappers.dfy`) is `Option`.

The model follows these conventions:

- `Math.sin` and `Math.random` are parameters: `sin: real -> real` and `random: nat -> real`.
  - `random(k)` is the result of the k-th `Math.random()` call made by js/scene3d.js's own code, in call order. Calls made inside Three.js, such as those for object identifiers, are not counted.
  - Each generated building makes 8 draws (its y position is draw 5, its rotation draw 7).
  - The particle coordinates follow at draw 40 onwards, and the scales after them.
- `Math.PI` is the constant 3.141592653589793.
- Numbers are Dafny `real`s, with no floating-point rounding.
- Each event handler, animation frame or timer callback is one atomic step; timers fire when their step runs.
- A missing DOM element is a `const` flag on the class, such as `hasNav`, `hasModal`, `hasSlider`, `hasCounter` or `hasCanvas`. Each flag-guarded branch inside a modelled handler is a branch of the model. Guards that decide whether a handler is registered at all are listed under "Left out".
- A handler whose code throws on a missing element returns `threw`. The model of that case leaves the state as the exception leaves it.

The model follows the code, including these behaviours of it:

- `toggleDebug(true)` is not idempotent: each call adds another pair of helpers.
- Without a canvas, `toggleDebug` dereferences a null scene and throws.
- The home page's scroll handler uses the nav bar without checking that it exists (js/main.js:252-271). It therefore throws on a page without one. The projects page checks (js/projects.js:71).

## Model

| member | source | states |
|---|---|---|
| Projects.Wrap | js/projects.js:157 | `(i + step + n) % n` stays in `[0, n)`. +1 moves to the next index and from `n - 1` wraps to 0. -1 moves to the previous index and from 0 wraps to `n - 1`. |
| Projects.WrapUndo | js/projects.js:157 | Stepping +1 then -1 returns to the starting index, and so does stepping -1 then +1. |
| Projects.AdvanceCycles | js/projects.js:157 | `k <= n` forward steps land on `index + k`, reduced once by `n`. Exactly `n` steps come back to the start. |
| Projects.SwipeStep | js/projects.js:182-183 | No step when `abs(diff) <= 50`. Step -1 exactly when `diff > 50`, and +1 exactly when `diff < -50`. |
| Projects.CounterRoundTrip | js/projects.js:164 | Reading `CounterText(i, n)` back gives `(i, n)`. Padding to width 2 never drops digits, so the text determines both numbers. |
| Projects.CounterExamples | js/projects.js:164 | Index 0 of 5 reads `01 / 05`. Index 99 of 120 reads `100 / 120`, so three digits are not truncated. |
| Projects.Pad2Numeral | js/projects.js:164 | `padStart(2, '0')` of `String(n)` has the value `n` and length `max(2, digits)`, and ends in `String(n)`. |
| Projects.Pad2 | js/projects.js:164 | A padded numeral has at least two characters, and exactly two below 100. |
| Projects.CounterText | js/projects.js:164 | Below 100 images the counter is exactly seven characters, `NN / NN`. |
| Projects.ActiveMarks | js/projects.js:146 | One mark per image. |
| Projects.ExactlyOneActive | js/projects.js:146-158 | The marks for index `i` among `n` images contain exactly one active mark when `i < n`, and none otherwise. |
| Projects.HoverTilt | js/projects.js:95-99 | Zero tilt at the card centre. `rotateX` is negative exactly when the pointer is below centre. `rotateY` is positive exactly when it is right of centre. |
| Projects.ProjectPage.constructor | js/projects.js:119-120 | Closed menu, empty image list, index 0, no slides, counter as in the page. |
| Projects.ProjectPage.HandleToggle | js/projects.js:43-55 | Flips both "active" flags. Overflow is `hidden` exactly when the menu is open. The nav z-index becomes `10001` when open and `10000` when closed, and is untouched without a nav. |
| Projects.ProjectPage.CloseMenuFromLink | js/projects.js:60-66 | Both flags cleared, overflow cleared, nav z-index `1000` when there is a nav. |
| Projects.ProjectPage.OnScroll | js/projects.js:71-88 | Background opaque exactly when `scrollY > 100`. Bar hidden exactly when scrolling down past 500. `lastScroll` becomes `scrollY`. |
| Projects.ProjectPage.OpenDetails | js/projects.js:122-138 | Replaces details and images and resets the index to 0. With a slider container, only image 0 is marked and an existing counter reads `01 / NN`. Without a counter element the counter is untouched. With a modal, it is shown and active and the body is locked. |
| Projects.ProjectPage.RenderSlider | js/projects.js:140-151 | Builds one mark per image with only image 0 active, then writes the counter `01 / NN`. Without a container nothing changes. |
| Projects.ProjectPage.UpdateCounter | js/projects.js:162-165 | The counter shows `CounterText(current, n)` when the element exists. |
| Projects.ProjectPage.ChangeImage | js/projects.js:153-160 | With at most one slide, nothing changes. Otherwise the index becomes `Wrap(current, step, n)` and the marks are again exactly the current image, with the counter updated. |
| Projects.ProjectPage.CloseDetails | js/projects.js:167-174 | The modal is deactivated and hidden, and the body unlocked. |
| Projects.ProjectPage.OnModalClick | js/projects.js:108-110 | A click on the backdrop closes the modal. A click inside changes nothing. |
| Projects.ProjectPage.OnTouchStart | js/projects.js:180 | Remembers the touch's x position. |
| Projects.ProjectPage.OnTouchEnd | js/projects.js:181-184 | A swipe inside the threshold, or any swipe with at most one slide, changes nothing. A longer swipe steps the image as `SwipeStep` decides. The marks are again exactly the current image, and an existing counter shows `CounterText` of the new index. |
| Text.Decimal | js/projects.js:164 | `String(n)` is a nonempty digit string with no leading zero. It is one character long exactly when `n < 10`. |
| Text.DecimalRoundTrip | js/projects.js:164 | The digits of `String(n)` have the value `n`. |
| Text.PadStart | js/projects.js:164 | `padStart` gives length `max(width, |s|)`. It keeps `s` as the suffix and fills only the prefix. |
| Text.Split | js/animations.js:113 | `split` always gives at least one piece. |
| Text.SplitPiecesFree | js/animations.js:113 | No piece of `split(sep)` contains `sep`. |
| Text.SplitCount | js/animations.js:113 | `split(sep)` gives one more piece than there are separators. |
| Text.JoinSplit | js/animations.js:113 | Joining the pieces with `sep` restores the text. |
| Text.SplitJoin | js/animations.js:113 | Splitting a join of separator-free pieces gives the pieces back. |
| Geometry.PointerUnit | js/scene3d.js:211-212 | The normalised pointer lies in `[-1, 1]` inside the window. It is 0 exactly at the centre and negative exactly before it. |
| Smoothing.LerpBetween | js/animations.js:79 | A 5 % step lands between the old value and the target. It lands strictly between them when they differ. |
| Smoothing.Lerp | js/animations.js:79 | One step leaves `0.95` times the old gap to the target (the same step is used at js/animations.js:154-155 and js/scene3d.js:229-231 and 260-261). |
| Smoothing.LerpGap | js/animations.js:79 | A step multiplies the remaining gap by 0.95. |
| Smoothing.LerpFixedPoint | js/animations.js:79 | A value at its target stays there. |
| Smoothing.SettleGap | js/animations.js:79 | After `n` steps toward a fixed target the gap is `0.95^n` times the first gap. |
| Smoothing.SettleMonotone | js/animations.js:79 | Repeated steps approach the target monotonically and never overshoot it. |
| Smoothing.SettlesWithin200 | js/animations.js:79 | From within 20 of the target, 200 steps leave a gap under 0.01. |
| Animations.ScrollRatio | js/animations.js:32-33 | Progress lies in `[0, 1]` for a scroll inside the range. It is 0 at the top and 1 at the bottom. |
| Animations.RevealTimeout | js/animations.js:62-75 | Only `project-card` elements get the extra reveal. It fires after `delay * 1000` ms, or 0 ms without a delay. |
| Animations.ScrollAnimations.constructor | js/animations.js:3-18 | Zero progress, zero target, nothing pending. |
| Animations.ScrollAnimations.OnScroll | js/animations.js:20-27 | Sets `ticking`. A new frame is requested only when none is pending, so at most one is pending. |
| Animations.ScrollAnimations.OnFrame | js/animations.js:22-25 | Runs `updateScrollProgress` and clears `ticking`, so no frame is pending after it. The scene gets the new progress; with a canvas its camera and buildings move as `updateScroll` says, without one they stay. |
| Animations.ScrollAnimations.UpdateScrollProgress | js/animations.js:31-39 | The target is the scroll ratio. It reaches the scene unchanged. With a canvas the scene moves its camera and buildings accordingly; without one they stay. |
| Animations.ScrollAnimations.Animate | js/animations.js:77-82 | Progress makes one 5 % step toward the target. |
| Animations.Glyph | js/animations.js:93 | A space becomes NBSP and every other character is kept. |
| Animations.SplitText | js/animations.js:91-97 | One span per character of the text. |
| Animations.FadeInWords | js/animations.js:113-120 | One span per space of the text, plus one. |
| Animations.SplitTextSpans | js/animations.js:91-97 | One span per character, in order. A space becomes NBSP and every other character keeps its text. |
| Animations.SplitTextRoundTrip | js/animations.js:91-93 | For text without NBSP, reading the spans back, with NBSP as a space, gives the text. |
| Animations.SpanDelaysIncrease | js/animations.js:97-120 | Delays are `index * 0.03` s per character and `index * 0.1` s per word, strictly increasing. |
| Animations.FadeInWordsRoundTrip | js/animations.js:113-115 | One span per space plus one. No span contains a space. Joining the spans with spaces restores the text. |
| Animations.FadeInWordsExample | js/animations.js:113 | Adjacent spaces give an empty word: `"a  b"` gives `a`, the empty word and `b`. |
| Animations.TextElement.SplitIntoCharacters | js/animations.js:87-99 | The element's spans are `splitText` of its old text. Its new text is the concatenation of the span contents, in which every space has become NBSP. |
| Animations.TextElement.SplitIntoWords | js/animations.js:109-122 | The element's spans are `fadeInWords` of its old text. Its new text is the concatenation of the span contents, in which the spaces have been removed. |
| Animations.ParallaxOffset | js/animations.js:160-161 | Each offset coordinate is at most `20 * abs(speed)` while the pointer stays inside the window. It is zero exactly when that coordinate or the speed is zero. |
| Animations.LayerOffsets | js/animations.js:158-163 | Each selected `[data-parallax]` layer gets `ParallaxOffset` at its own speed, 1 when the attribute is empty. Elements without the attribute are not selected and never move. |
| Animations.LayerSpeed | js/animations.js:159 | A layer's speed is its attribute's number, or 1 when the attribute is empty (`None`); `DefaultLayerOffset` states what that default means for the layer. |
| Animations.DefaultLayerOffset | js/animations.js:159-161 | A layer whose `data-parallax` is empty moves as one of speed 1: by exactly `20 * current` px, so within 20 px on each axis while the smoothed pointer is in the unit square. |
| Animations.ParallaxController.constructor | js/animations.js:135-139 | The mouse and current positions start at 0. |
| Animations.ParallaxController.OnMouseMove | js/animations.js:144-147 | The mouse target is the normalised pointer, and stays in the unit square for a pointer inside the window. |
| Animations.ParallaxController.Animate | js/animations.js:152-166 | The current position makes one 5 % step toward the mouse and stays in the unit square. Each layer gets its offset. |
| Scene.InitialBuildings | js/scene3d.js:92-174 | Exactly 8 buildings: the three fixed ones, then five generated from the random draws. The platform is not a building. |
| Scene.GeneratedMesh | js/scene3d.js:154-168 | Generated mesh `i` uses draws `8i` to `8i + 7`. For draws in `[0, 1)` its height (draw `8i + 5`) lies in `[-1, 1)` and its turn (draw `8i + 7`, times pi) in `[0, pi)`. |
| Scene.ParticleScale | js/scene3d.js:188-190 | Scale `k` is draw `940 + k`, after the 40 building draws and the 900 coordinates, so it lies in `[0, 1)` for a draw in that range. |
| Scene.ParticleCoordinate | js/scene3d.js:185 | For a draw in `[0, 1)`, a particle coordinate lies in `[-12.5, 12.5)`. |
| Scene.CreateParticleBuffers | js/scene3d.js:176-190 | The position buffer holds 900 coordinates and the scale buffer 300 scales, each from its draw. |
| Scene.ScrollTarget | js/scene3d.js:225-227 | The camera target for progress in `[0, 1]` has `5 <= y <= 15` and `-5 <= z <= 15`, with the endpoints at progress 0 and 1. |
| Scene.ScrollCameraBetween | js/scene3d.js:229-231 | Each camera coordinate after `updateScroll` lies between its old value and its target. |
| Scene.LerpVec | js/scene3d.js:229-231 | Each coordinate's gap to its target shrinks to `0.95` times the old gap. |
| Scene.ScrollCameraSettles | js/scene3d.js:229-231 | For a fixed progress, `n` updates move each coordinate independently, as `n` smoothing steps toward its own target. |
| Scene.CameraDepthConverges | js/scene3d.js:225-231 | From the scroll range of depths, 200 updates at one progress bring the camera's z within 0.01 of `15 - 20p`. |
| Scene.ScrolledBuildings | js/scene3d.js:234-238 | `updateScroll` keeps the number of buildings. |
| Scene.ScrolledBuilding | js/scene3d.js:235-237 | Building `i` is turned to `2 pi p + 0.1 i` and raised by `0.01 sin(pi p + 0.1 i)`; `ScrollRotationIsAbsolute` proves what repeating it does. |
| Scene.ScrollRotationIsAbsolute | js/scene3d.js:236-237 | Repeating the same progress leaves every rotation where it was, because rotation is assigned absolutely. Each height is nudged again, because height accumulates. |
| Scene.DriftedBuildings | js/scene3d.js:269-271 | The idle drift keeps the number of buildings. |
| Scene.DriftedBuilding | js/scene3d.js:269-271 | The idle drift turns a building and leaves its height. |
| Scene.Wave | js/scene3d.js:280-282 | The wave keeps the buffer's length; `WaveTouchesOnlyY` proves which slots it moves. |
| Scene.RemoveFirst | js/scene3d.js:313-316 | Removing by name shortens the list by at most one. |
| Scene.WaveTouchesOnlyY | js/scene3d.js:280-282 | The wave keeps the buffer's length. It changes only slots `i + 1` with `i % 3 == 0`, by `sin(elapsed * 0.5 + x) * 0.002`. |
| Scene.RemoveFirstSpec | js/scene3d.js:313-316 | Removing an object by name drops one copy when present and is the identity otherwise. |
| Scene.DebugOn | js/scene3d.js:301-310 | Enabling keeps the old children as a prefix and adds two. |
| Scene.DebugOff | js/scene3d.js:311-316 | Disabling removes at most two children. |
| Scene.DebugOnAddsPair | js/scene3d.js:301-310 | Enabling adds exactly two children, one axes helper and one grid helper. Enabling twice adds two of each, so it is not idempotent. |
| Scene.DebugOffRemovesAtMostOne | js/scene3d.js:311-317 | Disabling removes at most one child of each helper name and keeps every other child. It is a no-op without helpers. |
| Scene.DebugRoundTrip | js/scene3d.js:300-318 | On a scene without helpers, enabling then disabling restores the child list. |
| Scene.Scene3D.constructor | js/scene3d.js:3-33 | Without a canvas, no init: no children, buildings or buffers. With one: the init's children, the 8 buildings, buffers of 900 and 300 entries, and camera at `(0, 5, 15)`. |
| Scene.Scene3D.CreateArchitecture | js/scene3d.js:92-174 | Adds nine unnamed objects to the scene and `InitialBuildings` to the buildings. |
| Scene.Scene3D.OnMouseMove | js/scene3d.js:210-213 | The target mouse is the normalised pointer. |
| Scene.Scene3D.UpdateScroll | js/scene3d.js:219-239 | Always stores the progress. Without a camera nothing else changes. Otherwise the camera makes one lerp step toward the scroll target and the buildings are scrolled. |
| Scene.Scene3D.Animate | js/scene3d.js:248-290 | Without a canvas, or while paused, no state changes and nothing renders. Otherwise: mouse lerp, camera nudge, building drift, particle rotation, the y-slot wave, and one render. |
| Scene.Scene3D.FloatParticles | js/scene3d.js:279-283 | The in-place loop leaves the position buffer equal to `Wave` of its old contents. |
| Scene.Scene3D.Pause | js/scene3d.js:292-294 | Sets `isPaused`. |
| Scene.Scene3D.Resume | js/scene3d.js:296-298 | Clears `isPaused`. |
| Scene.Scene3D.ToggleDebug | js/scene3d.js:300-318 | Throws exactly without a canvas, leaving the children. Otherwise the children become `DebugOn` or `DebugOff` of the old list. |
| Page.HoverStyle | js/main.js:155 | Card `i` uses hover style `i % 4`, one of the four. |
| Page.CardsFourApartAlike | js/main.js:155 | Cards four apart share hover style and idle keyframes (the keyframes are chosen at js/main.js:197). |
| Page.IdleKeyframes | js/main.js:197 | The keyframe name is `cardFloat` and one digit. |
| Page.IdleKeyframeNames | js/main.js:197 | The idle keyframes are one of `cardFloat0` to `cardFloat3`, selected by the hover style's index. |
| Page.CardTimingsIncrease | js/main.js:192-193 | Reveal delay `0.15 i` (js/main.js:152), idle duration `5 + 1.5 i` and idle stagger `0.5 i` all strictly increase with `i`. The first card has 0, 5 and 0. |
| Page.RevealDelay | js/main.js:152 | A card's reveal delay is never negative. |
| Page.IdleDuration | js/main.js:192 | An idle period is at least 5 s. |
| Page.IdleStagger | js/main.js:193 | An idle start delay is never negative. |
| Page.ConfiguredCard | js/main.js:151-197 | A configured card keeps its classes and has a delay, an idle animation and a hover style. |
| Page.SetupProjectCards | js/main.js:151-198 | Every card gets its delay, hover style and idle animation in place. Its classes are untouched. |
| Page.CardRevealTimeout | js/main.js:152 | A configured project card's extra reveal fires `150 i` ms after it appears (with js/animations.js:69-74). |
| Page.CardTilt | js/main.js:171-179 | Zero tilt at the card centre. `rotateX` is positive exactly below the centre. `rotateY` is positive exactly left of it. |
| Page.HoverRotation | js/main.js:95-147 | Each style scales the tilt by a positive factor: zero stays zero and signs are kept. |
| Page.CentredPointerNoTilt | js/main.js:170-183 | With the pointer at the centre, no style rotates the card. |
| Page.Revealed | js/main.js:304-315 | A reveal pass keeps the number of sections. |
| Page.RevealedExactly | js/main.js:311-313 | After a pass, a section is visible exactly when it was already, or its top is above `0.75 * innerHeight`. |
| Page.RevealedAfter | js/main.js:317 | Any series of scroll events keeps the number of sections. |
| Page.RevealNeverHides | js/main.js:311-317 | Over any series of scroll events, a visible section stays visible. |
| Page.NextDebugMode | js/main.js:334-335 | The debug mode flips exactly on `d` or `D`. |
| Page.IsDebugKey | js/main.js:334 | The debug key is `d` or `D`; `NextDebugMode` proves it is exactly the key that flips the mode. |
| Page.TwoPressesRestore | js/main.js:334-335 | Two presses of the same key restore the debug mode. |
| Page.MainPage.constructor | js/main.js:223-227 | Closed menu, `lastScroll` 0, debug off. |
| Page.MainPage.ToggleMenu | js/main.js:231-240 | Flips both "active" flags. Overflow is `hidden` exactly when the menu is open. |
| Page.MainPage.CloseMenuFromLink | js/main.js:243-249 | A link click closes the menu and clears the overflow. |
| Page.MainPage.OnScroll | js/main.js:252-271 | Without a nav it throws and changes nothing. Otherwise: opaque exactly past 100, hidden exactly when scrolling down past 500, and `lastScroll` becomes `scrollY`. |
| Page.MainPage.RevealSections | js/main.js:304-315 | The in-place loop leaves the section flags equal to `Revealed` of the old flags. |
| Page.MainPage.OnVisibilityChange | js/main.js:321-329 | A hidden tab pauses the scene and a visible one resumes it. |
| Page.MainPage.OnKeyDown | js/main.js:333-341 | The debug mode becomes `NextDebugMode`. On `d`/`D` the scene's `toggleDebug` receives the new mode, which throws without a canvas and then leaves the children as they were. Other keys leave the scene alone. |

## Left out

- Three.js plumbing: renderer, camera projection, lights, fog, materials, geometry sizes, colours, `lookAt` and `render` (js/scene3d.js:35-90). A scene object is modelled by its name alone. A render is a counter.
- Rendering and resize effects are not modelled. `handleResize` (js/scene3d.js:241-246) is not modelled at all: it only sets the camera aspect and the renderer size.
- The `Math.random` and `Math.sin` values are uninterpreted parameters. Building sizes, colours, roughness and x/z placement use draws the model only counts.
- IEEE double rounding is not modelled, and neither is the `Float32Array` element width of the particle buffers. All arithmetic is exact over the reals.
- `requestAnimationFrame`, `setTimeout` and the `IntersectionObserver` are not modelled; each callback is one atomic step.
  - The modal's 10 ms and 300 ms class and display timers take effect at once.
  - The 250 ms resize debounce in js/main.js:293-301 is part of this scheduling.
  - The observer callback (js/animations.js:41-60) is modelled only through the reveal delay it leads to.
- Listener registration, `preventDefault`, CSS transform, box-shadow and transition strings, and the injected keyframe stylesheet are not modelled.
  - That stylesheet lacks the `@keyframes cardFloat3` header (js/main.js:216-219).
  - The model only names the keyframes each card asks for.
- The enter/leave hover transforms of each card style are plain CSS strings, so they are not modelled. Only the scaling of the `move` tilt is.
- `CustomCursor` (js/main.js:344-393, js/projects.js:4-30) is not modelled: it only copies pointer coordinates into styles.
- `SmoothScroll` (js/animations.js:170-190) is not modelled: it is a thin wrapper over `scrollIntoView`.
- `animateHeroText`, page-load timing, the loader, console logging and the try/catch start-up sequence (js/main.js:14-58, 274-290) are not modelled. They are I/O and plumbing.
- `parseFloat` of attribute text is not modelled. `data-delay` is an optional number, `None` when absent. `data-parallax` is an optional number on a selected layer, `None` when the attribute is empty, and `LayerSpeed` supplies the default 1 for that case. A non-empty text that is not a number (giving `NaN`) is not modelled.
- `getObjectByName` searches the whole scene graph. Helpers are only ever added at the top level, so the model searches the top-level child list.
- The text transforms work on Dafny characters. JavaScript's `split('')` splits UTF-16 code units, so astral characters are not distinguished.
- Projects.ProjectPage.ChangeImage: requires `step` to be +1 or -1, the only values the swipe handler passes (js/projects.js:183).
- Projects.ProjectPage.RenderSlider: requires index 0, because its only caller, `openDetails`, resets the index just before calling it.
- Projects.ProjectPage.OpenDetails: assumes the five detail elements `mTitle`, `mDesc`, `mYear`, `mLoc` and `mArea` exist. The code writes them without a check (js/projects.js:123-127) and would throw before the images are replaced.
- Projects.ProjectPage: the menu handlers are registered only when both menu elements exist (js/projects.js:41). The model assumes they exist, because otherwise there are no such events.
- Projects.HoverTilt: the projects page registers the card tilt only on windows wider than 768 px (js/projects.js:92). That registration guard is not modelled; the lemma is about the handler once registered.
- Projects.ProjectPage.OnModalClick, OnTouchStart and OnTouchEnd: the backdrop-click handler is registered only when the modal exists (js/projects.js:107), and the touch handlers only when the slider exists (js/projects.js:178). The model runs these handlers whatever `hasModal` and `hasSlider` are; on a page without those elements the events never occur.
- Projects.ProjectPage.OnScroll: requires a nav bar, because the projects page registers this handler only when the bar exists (js/projects.js:71).
- Animations.ScrollAnimations.OnFrame and UpdateScrollProgress: require `scrollHeight - innerHeight` to be non-zero. The code divides unguarded, and for a zero range JavaScript yields `NaN` or `Infinity`, which reals cannot represent.
- Animations.ScrollRatio: requires the same non-zero range, for the same reason.
- Geometry.PointerUnit, Scene.Scene3D.OnMouseMove and Animations.ParallaxController.OnMouseMove: require a window of positive size. The code divides by `innerWidth` and `innerHeight`.
- Scene.Scene3D.Animate: the clock is not modelled. `delta` and `elapsed` are parameters of each tick. In the code `getDelta` runs only on unpaused ticks (js/scene3d.js:251-256), so the first tick after a resume gets the whole paused interval as its delta and nudges the camera by `mouseX * 0.5 * delta` (js/scene3d.js:264). The model does not state that a pause causes no catch-up.
- Scene.Scene3D.OnMouseMove: the `mousemove` listener is added by `setupEventListeners`, which runs only from `init`, which runs only when a canvas exists (js/scene3d.js:19-21, 31, 208-213). The model updates `targetMouse` whatever `hasCanvas` is; on a page without a canvas the handler never runs.
- Scene.Scene3D.constructor: stops after set-up. The first `animate` tick of `init` is left to `Animate`.
- Page.MainPage: the menu handlers are registered only when both menu elements exist (js/main.js:230). The model assumes they exist, because otherwise there are no such events.
