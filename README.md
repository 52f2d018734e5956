# Swipe pager of the MJ assistant panel

The assistant panel of this HUD app shows two pages side by side: the Audio
page, with the animated core ring, and the Chat page. A horizontal pan
gesture slides between them. The slider's offset `x` is 0 when the Audio page
is shown and `-width` when the Chat page is shown. The controller stores two
numbers. `startX` is recorded when a gesture begins. `x` follows the drag,
pinned to `[-width, 0]`. When the finger lifts, a snap rule picks the page to
settle on: a fast fling left (velocity ≤ −600) goes to Chat, a fast fling
right (velocity ≥ 600) goes to Audio, and otherwise the slider goes to the
nearer page, with the exact halfway point going to Audio. Two page-indicator
dots are styled from the progress `-x / width` by clamped linear
interpolation.

The project has three modules:

- `Interpolation` (`interpolation.dfy`): the two numeric helpers of the
  animation library, `clamp` and `interpolate` over the input range `[0, 1]`
  with clamped extrapolation.
- `Swipe` (`swipe.dfy`): the pages, the snap rule, the progress, and the
  gesture callbacks. The callbacks appear twice. `Step` and `Replay` are pure
  functions over a `SliderState` value, so that properties of any sequence of
  callbacks can be proved by induction. The class `SwipeController` holds the
  two shared values as mutable fields, and its methods `OnBegin`, `OnChange`
  and `OnEnd` are the callbacks, each specified by `Step`.
- `PageDots` (`dots.dfy`): the opacity and scale of the two dots.

Positions, translations and velocities are exact `real`s. The comparisons
against ±600, `-width/2`, `-width` and 0 are exact on the stored value, but
the double rounding of the drag sum `startX + translationX` is not modelled
(see "## Left out"). The window width is a positive constructor parameter.

## Model

| member | source | states |
|---|---|---|
| `Interpolation.Clamp` | components/ui/MJAssistant.tsx:30 | The result lies in `[lo, hi]`; it is the value itself when that is in range, `lo` below the range and `hi` above it. |
| `Interpolation.Interpolate` | components/ui/MJAssistant.tsx:51 | Clamped interpolation equals `from + (to - from) * clamp(p, 0, 1)`; it stays between `from` and `to`; it is `from` at or below progress 0 and `to` at or above progress 1. |
| `Interpolation.InterpolateMonotone` | components/ui/MJAssistant.tsx:50-58 | Clamped interpolation is non-decreasing in the progress for a rising output range and non-increasing for a falling one. |
| `Swipe.Offset` | components/ui/MJAssistant.tsx:21-22 | A page's offset is exactly one of `0` and `-width`, and it is `0` exactly for the Audio page. |
| `Swipe.Halfway` | components/ui/MJAssistant.tsx:33 | The halfway point lies strictly between the two page offsets and is equally far from both. |
| `Swipe.SnapPage` | components/ui/MJAssistant.tsx:32-39 | A release at velocity ≤ −600 settles on Chat and one at ≥ 600 on Audio, whatever `x` is; otherwise it settles on Chat if and only if `x < -width/2`. |
| `Swipe.FlingTestsCommute` | components/ui/MJAssistant.tsx:36-38 | Testing the right fling before the left fling gives the same page for every position and velocity, because no release is a fling both ways. |
| `Swipe.SlowReleaseSnapsToNearestPage` | components/ui/MJAssistant.tsx:33-38 | Without a fling, the chosen page is no farther from `x` than the other page; it is equally far only when `x` is exactly halfway, and then the choice is Audio. |
| `Swipe.ProgressOf` | components/ui/MJAssistant.tsx:47-48 | For `-width <= x <= 0` the progress lies in `[0, 1]`; `x == -progress * width`; progress is 0 exactly at the Audio offset and 1 exactly at the Chat offset. |
| `Swipe.ProgressAtPages` | components/ui/MJAssistant.tsx:21 | The progress is 0 on the Audio page and 1 on the Chat page. |
| `Swipe.ProgressAntitone` | components/ui/MJAssistant.tsx:48 | Moving the slider towards Chat never lowers the progress. |
| `Swipe.Step` | components/ui/MJAssistant.tsx:25-41 | Begin copies `x` into `startX`; Change keeps `startX` and leaves `x` in `[-width, 0]`; End keeps `startX` and leaves `x` on a page offset. |
| `Swipe.ReplayStaysInBounds` | components/ui/MJAssistant.tsx:22-41 | From a state inside `[-width, 0]`, any sequence of callbacks with any arguments keeps both stored values inside it. |
| `Swipe.ReplaySettlesOnPage` | components/ui/MJAssistant.tsx:32-40 | After any sequence of callbacks that ends with a release, the slider rests exactly at `0` or `-width`. |
| `Swipe.DragFromGestureStart` | components/ui/MJAssistant.tsx:26-31 | After Begin and any non-empty run of drag events, `startX` is the position at gesture start and `x` is the clamped sum of that position and the last translation, however many drag events came before. |
| `Swipe.SwipeController.constructor` | components/ui/MJAssistant.tsx:22-23 | Both stored values start at 0, on the Audio page, and the bounds invariant holds. |
| `Swipe.SwipeController.OnBegin` | components/ui/MJAssistant.tsx:26-28 | `startX` becomes the current `x` and `x` is unchanged; the new state is `Step(old state, Begin)`. |
| `Swipe.SwipeController.OnChange` | components/ui/MJAssistant.tsx:29-31 | `x` becomes `startX + translationX` when that sum is in `[-width, 0]`, `-width` below it and `0` above it; `startX` is unchanged; the bounds invariant is kept. |
| `Swipe.SwipeController.OnEnd` | components/ui/MJAssistant.tsx:32-41 | The returned target is the offset of `SnapPage(x, velocityX)`, so it is `0` or `-width`; `x` settles on it and `startX` is unchanged. |
| `Swipe.SwipeController.Progress` | components/ui/MJAssistant.tsx:48 | While the bounds invariant holds the controller's progress lies in `[0, 1]`, and `x == -progress * width`. |
| `PageDots.AudioDotStyle` | components/ui/MJAssistant.tsx:50-53 | The Audio dot's opacity stays in `[0.35, 1]` and its scale in `[0.9, 1.1]`, at every progress. |
| `PageDots.ChatDotStyle` | components/ui/MJAssistant.tsx:55-58 | The Chat dot's opacity stays in `[0.35, 1]` and its scale in `[0.9, 1.1]`, at every progress. |
| `PageDots.DotsComplement` | components/ui/MJAssistant.tsx:50-58 | At every progress the two opacities add up to 1.35 and the two scales to 2.0. |
| `PageDots.DotsMirror` | components/ui/MJAssistant.tsx:50-58 | The Chat dot at progress `p` is styled like the Audio dot at progress `1 - p`. |
| `PageDots.DotsFollowProgress` | components/ui/MJAssistant.tsx:50-58 | As progress rises, the Audio dot's opacity and scale never rise and the Chat dot's never fall. |
| `PageDots.SettledPageDots` | components/ui/MJAssistant.tsx:48-58 | On a settled page, that page's dot has opacity 1 and scale 1.1 and the other dot has opacity 0.35 and scale 0.9. |

## Left out

- The spring animation (`withSpring`, damping 14, stiffness 160, components/ui/MJAssistant.tsx:40) is the animation library's physics. The model sets `x` to the chosen target, the position the spring settles at. Its trajectory is not modelled. That spring is underdamped, so mid-flight `x` can briefly overshoot `[-width, 0]`, and a gesture that begins during that time would record such an offset. The model assumes each gesture begins after the previous spring has settled.
- `Swipe.SwipeController.OnEnd`: it promises the settled position, not the animated path to it, for the reason above.
- Where the width comes from (`Dimensions.get('window')`, components/ui/MJAssistant.tsx:18) is a platform call; it is a positive parameter here.
- The gesture-handler and shared-value plumbing (`Gesture.Pan`, `useSharedValue`, `useDerivedValue`, `useAnimatedStyle`, UI-thread worklets) is framework and concurrency machinery; the three callbacks are modelled as methods invoked one at a time.
- `Interpolation.Interpolate`: it covers only the input range `[0, 1]` with clamped extrapolation, the only form the pager uses; the library's general ranges and other extrapolation modes are not modelled.
- JavaScript numbers are IEEE doubles; the model uses exact reals. The drag sum `startX + translationX` (components/ui/MJAssistant.tsx:30) is rounded in the source and exact here, so for an offset within one rounding step of `-width/2` the source and the model can snap to different pages. The rounding of intermediate progress and dot-style values is not modelled either.
- Rendering and styles (the slider layout, the two page views, the dots' size and colour) are fixed layout with no behaviour.
