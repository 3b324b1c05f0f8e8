# Story viewer playback and navigation, in Dafny

A model of the playback and navigation core of a React Native story viewer,
an Instagram-style full-screen modal. The viewer shows a list of users. Each
user owns an ordered list of timed stories (images or videos).

- A cursor `(userIndex, storyIndex)` walks the stories. It is moved by taps,
  by timer completion, by horizontal paging and by a jump to a user.
- A progress timer fills the current story's bar and advances the cursor
  when the story's duration has elapsed.
- One pause flag stops the timer. Taps, scrolling and the swipe-down gesture
  all write it.
- Two gesture arbiters classify a released drag into exactly one outcome:
  close, next user, previous user or resume.

Time, drag translation and velocity are explicit parameters. Times are
integer milliseconds (`now`). Progress, offsets and velocities are exact
`real`s.

Each hook is modelled in two layers:

- **Specification:** a pure state datatype and step functions. The
  properties are proved about these as lemmas.
- **The hook itself:** a class whose fields are the hook's state and refs.
  Its methods are proved to follow the step functions exactly
  (`ensures State() == Step(old(State()), ...)`).

Modules, one per source file:

| file | module | source |
|---|---|---|
| types.dfy | StoryTypes | src/StoryViewer/types.ts |
| navigation.dfy | Navigation | src/StoryViewer/hooks/useStoryNavigation.ts |
| timer.dfy | Timer | src/StoryViewer/hooks/useStoryTimer.ts |
| viewer.dfy | Viewer | src/StoryViewer/StoryViewer.tsx |
| vertical_close.dfy | VerticalClose | src/StoryViewer/hooks/useVerticalCloseGesture.ts |
| story_gestures.dfy | StoryGestures | src/StoryViewer/hooks/useStoryGestures.ts |
| scroll.dfy | Scroll | src/StoryViewer/hooks/useStoryScroll.ts |
| content.dfy | Content | src/StoryViewer/components/StoryContent.tsx |
| progress.dfy | Progress | src/StoryViewer/components/StoryProgress.tsx |

Callbacks (`onClose`, `onStoryView`, `onPause`, ...) are not stored as
values. An operation that would call one returns the call instead: a flag, an
intent, or a sequence of calls in order.

## Model

| member | source | states |
|---|---|---|
| Navigation.DerivedValues | src/StoryViewer/hooks/useStoryNavigation.ts:53-66 | The current story exists exactly when the cursor is in bounds, and is then `users[u].stories[s]`. totalStories is the current user's story count, or 0 when that user is missing. isFirstUser means `userIndex == 0`; isLastUser means `userIndex == len(users) - 1`. |
| Navigation.AdvanceCases | src/StoryViewer/hooks/useStoryNavigation.ts:69-86 | Advance moves to the next story of the same user while one remains, otherwise to `(userIndex + 1, 0)`. It closes exactly on the last story of the last user, and closing leaves the cursor unchanged. |
| Navigation.RetreatCases | src/StoryViewer/hooks/useStoryNavigation.ts:88-101 | Retreat at `(0, 0)` is a no-op and never closes. At `(u, 0)` with `u > 0` it gives `(u - 1, len(stories[u - 1]) - 1)`. Otherwise storyIndex decreases by 1. |
| Navigation.RetreatIntoEmptyUser | src/StoryViewer/hooks/useStoryNavigation.ts:97-99 | Stepping back into a user with no stories gives storyIndex -1, a cursor out of bounds. |
| Navigation.StepsKeepBounds | src/StoryViewer/hooks/useStoryNavigation.ts:69-101 | When every user has a story, advance and retreat keep an in-bounds cursor in bounds. |
| Navigation.AdvanceRetreatInverse | src/StoryViewer/hooks/useStoryNavigation.ts:69-101 | On in-bounds cursors, retreat undoes an advance that moved, and advance undoes a retreat that moved. |
| Navigation.StoriesBeforeGrows | src/StoryViewer/hooks/useStoryNavigation.ts:69-101 | The number of stories before user `v` is at least the number before user `u <= v`. When no user is empty, it grows by at least `v - u`. |
| Navigation.PositionBelowTotal | src/StoryViewer/hooks/useStoryNavigation.ts:69-101 | Laying all stories end to end, an in-bounds cursor's position is below the total. It is the last position iff the cursor is on the last user's last story, and 0 iff the cursor is `(0, 0)`. |
| Navigation.AdvanceIsSuccessor | src/StoryViewer/hooks/useStoryNavigation.ts:69-86 | Advance moves to the next position in reading order. It closes iff the cursor is on the very last story. |
| Navigation.RetreatIsPredecessor | src/StoryViewer/hooks/useStoryNavigation.ts:88-101 | Retreat moves to the previous position in reading order. It stays put iff the cursor is on the very first story. |
| Navigation.AdvanceChainExample | src/StoryViewer/hooks/useStoryNavigation.ts:75-100 | Users A (2 stories) and B (1 story) advance (0,0) → (0,1) → (1,0) → close. Retreat from (1,0) gives (0,1); at (0,0) it stays put. |
| Navigation.ResetEffectSpec | src/StoryViewer/hooks/useStoryNavigation.ts:34-51 | The effect always records the visibility and the initial index. When the initial index changed or visibility went false → true, the cursor is set to `(initialUserIndex, 0)`; otherwise it stays where it was. |
| Navigation.ResetEffectIdempotent | src/StoryViewer/hooks/useStoryNavigation.ts:34-51 | A second run with identical inputs does not reset and changes nothing. |
| Navigation.StoryNavigator.constructor | src/StoryViewer/hooks/useStoryNavigation.ts:17-32 | On mount the cursor is `(initialUserIndex, 0)` and the refs hold the first props. |
| Navigation.StoryNavigator.GoToNextStory | src/StoryViewer/hooks/useStoryNavigation.ts:69-86 | goToNextStory moves the cursor as Advance does and calls onClose exactly when Advance closes. The refs are unchanged. |
| Navigation.StoryNavigator.GoToPrevStory | src/StoryViewer/hooks/useStoryNavigation.ts:88-101 | goToPrevStory moves the cursor as Retreat does. |
| Navigation.StoryNavigator.GoToUser | src/StoryViewer/hooks/useStoryNavigation.ts:103-106 | goToUser(n) sets the cursor to `(n, 0)` with no bounds check. |
| Navigation.StoryNavigator.SyncResetEffect | src/StoryViewer/hooks/useStoryNavigation.ts:34-51 | The reset effect updates the hook's state as ResetEffect does, and reports whether it reset. |
| Timer.ProgressOf | src/StoryViewer/hooks/useStoryTimer.ts:63 | For a positive duration, `min(elapsed / duration, 1)` is at most 1, is at least 0 for non-negative elapsed time, and equals 1 iff elapsed ≥ duration. |
| Timer.ProgressMonotone | src/StoryViewer/hooks/useStoryTimer.ts:77-78 | Progress is non-decreasing in elapsed time. |
| Timer.Cleared | src/StoryViewer/hooks/useStoryTimer.ts:23-28 | clear leaves no interval running and preserves the state invariant. |
| Timer.ResetState | src/StoryViewer/hooks/useStoryTimer.ts:30-35 | reset preserves the state invariant. |
| Timer.EffectBody | src/StoryViewer/hooks/useStoryTimer.ts:43-88 | The effect body preserves the invariant: a running interval has a positive duration and has not completed, and progress stays in [0, 1] when the clock does not go back. |
| Timer.Rerun | src/StoryViewer/hooks/useStoryTimer.ts:43-90 | A run of the effect (cleanup, then body) records the key, leaves an armed state, and preserves the invariant. |
| Timer.TickStep | src/StoryViewer/hooks/useStoryTimer.ts:76-87 | A tick with no interval does nothing. A running tick calls onComplete exactly when the timer has not completed and banked time plus `now - startTime` has reached the duration. A tick that completes was not completed before; it sets hasCompleted and clears the interval before reporting. Ticks leave the key, banked time and start time alone and preserve the invariant. |
| Timer.KeyChangeStartsEpoch | src/StoryViewer/hooks/useStoryTimer.ts:45-50 | A new key zeroes progress and banked time, clears hasCompleted, records the key, and (unpaused) starts an interval at `now`. |
| Timer.PausedRunFreezes | src/StoryViewer/hooks/useStoryTimer.ts:52-65 | A paused run leaves no interval. It banks `now - startTime` whenever startTime is positive, through the "cleanup already cleared" branch, and publishes `min(elapsed / duration, 1)`. |
| Timer.CompletedStartsNoInterval | src/StoryViewer/hooks/useStoryTimer.ts:69-71 | Once completed, a run with the same key starts no interval. |
| Timer.ClearIdempotent | src/StoryViewer/hooks/useStoryTimer.ts:23-28 | clear leaves no interval, is idempotent, and touches nothing else. |
| Timer.ResetKeepsInterval | src/StoryViewer/hooks/useStoryTimer.ts:30-35 | reset zeroes progress, banked time and hasCompleted but leaves a running interval running (its clear is commented out). The next tick counts from the old start time. |
| Timer.TickMonotoneInNow | src/StoryViewer/hooks/useStoryTimer.ts:77-78 | For a fixed running state, the tick's progress is non-decreasing in `now`. |
| Timer.SuccessiveTicksNonDecreasing | src/StoryViewer/hooks/useStoryTimer.ts:76-87 | Two successive ticks publish non-decreasing progress. |
| Timer.PauseResumeFidelity | src/StoryViewer/hooks/useStoryTimer.ts:52-87 | Pausing a running timer publishes what a tick at that instant would. Resuming keeps the banked time and restarts at `now`. Later ticks never fall below the paused value. |
| Timer.PausedRerunBanksStaleTime | src/StoryViewer/hooks/useStoryTimer.ts:57-61 | Because startTime is never zeroed, a run while already paused banks the old run's time again: a same-key re-run shows 0.6 instead of 0.2, and a new key while paused starts at 0.4 instead of 0. |
| Timer.Step | src/StoryViewer/hooks/useStoryTimer.ts:23-90 | Every event (tick, effect run, reset) keeps the state armed. |
| Timer.CompletesAtMostOnce | src/StoryViewer/hooks/useStoryTimer.ts:82-86 | Over any run of ticks and same-key effect runs, onComplete is called at most once, and never after it has been called. |
| Timer.NewKeyRearms | src/StoryViewer/hooks/useStoryTimer.ts:45-50 | After completion, a new key starts an interval that completes again once the duration has passed. |
| Timer.StoryTimer.constructor | src/StoryViewer/hooks/useStoryTimer.ts:16-21 | The refs start at zero, with no interval, not completed, and the first key. |
| Timer.StoryTimer.Clear | src/StoryViewer/hooks/useStoryTimer.ts:23-28 | clear updates the refs as Cleared does. |
| Timer.StoryTimer.Reset | src/StoryViewer/hooks/useStoryTimer.ts:30-35 | reset updates the refs as ResetState does. |
| Timer.StoryTimer.RunEffect | src/StoryViewer/hooks/useStoryTimer.ts:43-88 | The effect body updates the refs as EffectBody does. |
| Timer.StoryTimer.Effect | src/StoryViewer/hooks/useStoryTimer.ts:43-90 | A re-run (cleanup, then body) updates the refs as Rerun does and keeps the invariant. |
| Timer.StoryTimer.Tick | src/StoryViewer/hooks/useStoryTimer.ts:76-87 | The interval callback updates the refs, and reports completion, as TickStep does. |
| Viewer.PropDefaults | src/StoryViewer/StoryViewer.tsx:26-43 | initialUserIndex defaults to 0 and defaultStoryDuration to 5000. Given values are kept. |
| Viewer.TimerDurationFallback | src/StoryViewer/StoryViewer.tsx:66 | The timer runs on the story's duration when present and non-zero, otherwise on the default, and always on a positive duration. |
| Viewer.TimerKeyTracksStory | src/StoryViewer/StoryViewer.tsx:69 | The timer key exists iff the cursor is on a story, and it is that story's id. Two in-bounds cursors have the same key iff their stories share an id. |
| Viewer.LastWriterWins | src/StoryViewer/StoryViewer.tsx:82-115 | Scroll start, the close gesture and tap press-in set the single pause flag; their counterparts clear it. After any run of writes, the last one decides. |
| Viewer.FinalWriteDecides | src/StoryViewer/StoryViewer.tsx:82-115 | After any history of writes, a final scroll end, gesture resume or press-out leaves the viewer unpaused, and a final scroll start, gesture pause or press-in leaves it paused. |
| Viewer.CurrentPageShowsCursor | src/StoryViewer/StoryViewer.tsx:118-137 | The current user's page shows the cursor's story with the live progress and the user's story count. |
| Viewer.OtherPagesShowFirstStory | src/StoryViewer/StoryViewer.tsx:118-137 | Every other page shows its first story at progress 0, or nothing when it has no story. |
| Viewer.MissingStoryRendersNothing | src/StoryViewer/StoryViewer.tsx:120-123 | A page renders nothing exactly when its selected story does not exist. |
| Viewer.RenderedCursorInBounds | src/StoryViewer/StoryViewer.tsx:223-225 | The viewer renders iff it is visible and the cursor names an existing story. |
| Viewer.StoryViewer.constructor | src/StoryViewer/StoryViewer.tsx:26-70 | Mounting applies the prop defaults, creates the navigator at `(initialUserIndex, 0)` and the timer with that story's key, and starts unpaused. |
| Viewer.StoryViewer.WritePause | src/StoryViewer/StoryViewer.tsx:82-115 | Each pause writer stores its own value in the flag. |
| Viewer.StoryViewer.StoryChangeEffect | src/StoryViewer/StoryViewer.tsx:102-111 | A visible viewer with a story resets the timer, unpauses and reports (user id, story id). Otherwise it pauses, resets and reports nothing. |
| Viewer.StoryViewer.TimerEffect | src/StoryViewer/StoryViewer.tsx:65-70 | The timer's effect runs with the current story's id, the pause flag and the fallback duration, and keeps the timer's invariant. |
| Viewer.StoryViewer.Next | src/StoryViewer/StoryViewer.tsx:133 | onNext and the right tap zone call goToNextStory: the cursor moves as Advance says, and onClose comes exactly when Advance closes. The reset effect's refs are unchanged. |
| Viewer.StoryViewer.Prev | src/StoryViewer/StoryViewer.tsx:134 | onPrev and the left tap zone call goToPrevStory: the cursor moves as Retreat says. The reset effect's refs are unchanged. |
| Viewer.StoryViewer.TimerTick | src/StoryViewer/StoryViewer.tsx:68 | A tick that completes calls the same goToNextStory as Next, and closes exactly when that advance closes. Otherwise the cursor stays put. The reset effect's refs are unchanged either way. |
| VerticalClose.ReleaseExclusive | src/StoryViewer/hooks/useVerticalCloseGesture.ts:52-67 | Every release makes exactly one call. onClose comes iff translationY > 100 or velocityY > 500; otherwise onResume. |
| VerticalClose.ThresholdsAreStrict | src/StoryViewer/hooks/useVerticalCloseGesture.ts:56-57 | Exactly 100 px and exactly 500 px/s do not close; anything beyond either does. |
| VerticalClose.VerticalCloseGesture.constructor | src/StoryViewer/hooks/useVerticalCloseGesture.ts:28 | The offset starts at 0. |
| VerticalClose.VerticalCloseGesture.OnStart | src/StoryViewer/hooks/useVerticalCloseGesture.ts:39-42 | Gesture start always calls onPause. |
| VerticalClose.VerticalCloseGesture.OnUpdate | src/StoryViewer/hooks/useVerticalCloseGesture.ts:43-51 | Only a positive translation moves the offset; others leave it unchanged. |
| VerticalClose.VerticalCloseGesture.OnEnd | src/StoryViewer/hooks/useVerticalCloseGesture.ts:52-67 | A release makes the ReleaseCalls call. The offset settles at the screen height when closing, and at 0 when resuming. |
| VerticalClose.VerticalCloseGesture.VisibleEffect | src/StoryViewer/hooks/useVerticalCloseGesture.ts:31-35 | Becoming visible sets the offset to 0; otherwise it is unchanged. |
| StoryGestures.ReleaseExclusive | src/StoryViewer/hooks/useStoryGestures.ts:60-110 | Each release has exactly one outcome. A vertical release (|ty| > |tx| strictly) closes iff ty > 100 or vy > 500, else resumes, and never changes user. A horizontal release never closes. It goes to the next user iff it commits with tx < 0 and canGoNext, to the previous user iff it commits with tx > 0 and canGoPrev; anything else resumes. |
| StoryGestures.ThresholdBoundary | src/StoryViewer/hooks/useStoryGestures.ts:12-108 | 99 px at low speed bounces back and 101 px navigates, in both directions. A blocked direction resumes. A tie between the axes is horizontal. |
| StoryGestures.UpdateRules | src/StoryViewer/hooks/useStoryGestures.ts:41-59 | A vertical update with ty > 0 shows (0, ty); one with ty ≤ 0 changes nothing; a horizontal update shows (tx, 0). |
| StoryGestures.ReleaseAfterUpdateRests | src/StoryViewer/hooks/useStoryGestures.ts:41-110 | After an update and a release with the same translation, the vertical offset settles at 0. The horizontal offset settles at 0 too, except after an upward vertical drag, which keeps it where it was. |
| StoryGestures.PanGesture.constructor | src/StoryViewer/hooks/useStoryGestures.ts:33-34 | Both offsets start at 0. |
| StoryGestures.PanGesture.OnStart | src/StoryViewer/hooks/useStoryGestures.ts:37-40 | Gesture start always calls onPause. |
| StoryGestures.PanGesture.OnUpdate | src/StoryViewer/hooks/useStoryGestures.ts:41-59 | onUpdate changes the offsets as UpdateOffsets does. |
| StoryGestures.PanGesture.OnEnd | src/StoryViewer/hooks/useStoryGestures.ts:60-110 | onEnd emits the ReleaseIntent outcome, and the offsets settle as ReleaseOffsets says. |
| Scroll.RoundIsNearest | src/StoryViewer/hooks/useStoryScroll.ts:39-41 | `Math.round(x)` is within half of x (halves round up), and it is the only integer that is. |
| Scroll.PageIndexOfPageOffset | src/StoryViewer/hooks/useStoryScroll.ts:39-41 | A list that settles less than half a page from page k reports page k. |
| Scroll.MomentumEndCallsSpec | src/StoryViewer/hooks/useStoryScroll.ts:44-47 | onUserChange(newIndex) is called exactly when newIndex differs from the current user, and with no other index. onScrollEnd always comes last. |
| Scroll.StoryScroll.constructor | src/StoryViewer/hooks/useStoryScroll.ts:27 | No drag is in progress at mount. |
| Scroll.StoryScroll.HandleScrollBeginDrag | src/StoryViewer/hooks/useStoryScroll.ts:30-33 | Begin-drag sets isScrolling and calls onScrollStart. |
| Scroll.StoryScroll.HandleMomentumScrollEnd | src/StoryViewer/hooks/useStoryScroll.ts:36-48 | Momentum end clears isScrolling. It makes the MomentumEndCalls calls for the page `round(offset / width)`. |
| Scroll.StoryScroll.ScrollEffect | src/StoryViewer/hooks/useStoryScroll.ts:64-76 | A scroll to currentUserIndex is requested iff the viewer is visible, the list is mounted, and no drag is in progress. |
| Content.NamedRatiosAgreeWithParsed | src/StoryViewer/components/StoryContent.tsx:22-41 | '16:9' gives width·9/16, '4:5' width·5/4 and '1:1' width: what their two numbers would give through the parsed branch. |
| Content.HeightScalesWithWidth | src/StoryViewer/components/StoryContent.tsx:18-43 | Each ratio's height over width is its second number over its first. 'full' gives the screen height, and a malformed ratio gives 5/4. |
| Content.MalformedFallsBackToDefault | src/StoryViewer/components/StoryContent.tsx:31-41 | A malformed ratio, or one whose width part is not positive, gives the height of the default ratio '4:5'. |
| Content.TapZones.constructor | src/StoryViewer/components/StoryContent.tsx:54 | The press start time starts at 0. |
| Content.TapZones.HandlePressIn | src/StoryViewer/components/StoryContent.tsx:57-60 | Press-in records the press time and calls onPressIn. |
| Content.TapZones.HandlePressOut | src/StoryViewer/components/StoryContent.tsx:62-64 | Press-out always calls onPressOut. |
| Content.TapZones.HandleTapLeft | src/StoryViewer/components/StoryContent.tsx:66-72 | A left tap calls onTapLeft iff fewer than 200 ms passed since press-in. |
| Content.TapZones.HandleTapRight | src/StoryViewer/components/StoryContent.tsx:74-80 | A right tap calls onTapRight iff fewer than 200 ms passed since press-in. |
| Content.Press | src/StoryViewer/components/StoryContent.tsx:105-122 | A whole press on a zone always pauses then resumes. It navigates in that zone's direction iff it lasted under 200 ms, so a hold of 200 ms or more never navigates. |
| Progress.BarTargets | src/StoryViewer/components/StoryProgress.tsx:17-24 | There are exactly totalStories bars (none for a negative count), bar i targeting BarTarget(i). |
| Progress.BarTargetCases | src/StoryViewer/components/StoryProgress.tsx:46-57 | A bar before the current one targets 100, the current bar progress·100, a later bar 0. |
| Progress.TargetsBoundedAndNonIncreasing | src/StoryViewer/components/StoryProgress.tsx:46-57 | With progress in [0, 1], every target lies in [0, 100], and targets never increase from left to right. |
| Progress.SumOfPrefix | src/StoryViewer/components/StoryProgress.tsx:17-57 | With the current index in range, the targets add up to 100 per finished story plus the current progress·100. |
| Progress.AllFull | src/StoryViewer/components/StoryProgress.tsx:46-51 | Bars that all lie before the current index add up to 100 each. |

## Left out

- Wall-clock reads, `setInterval` and `setTimeout` are not modelled. The time is the parameter `now`, and an interval callback is a call of `Tick(now)`. Clearing an interval means no more ticks arrive. The 16 ms tick period, the 50 ms scroll delay and the 100 ms retry are not represented.
- React's render and effect scheduling is not modelled. An effect re-run is its cleanup followed by its body; re-running on dependency changes is the caller's job.
- The ref-mirroring effect of the navigation hook (src/StoryViewer/hooks/useStoryNavigation.ts:24-28) is not a separate step. The refs and the state are the same fields.
- Reanimated and gesture-handler plumbing is not modelled: worklets, `runOnJS`, the `withTiming`/`withSpring` curves, the 250 ms animations, and `activeOffsetY`/`failOffsetX`. Animated offsets are the values the animations settle at. A callback run when an animation finishes is returned as the call it makes.
- Timer.ProgressOf: requires a positive duration. JavaScript division by zero (Infinity or NaN progress) is not modelled. Viewer.TimerDurationFallback shows the viewer passes a positive duration provided the default duration is positive and no story declares a negative one.
- Viewer.TimerDurationFallback: assumes a positive default duration and no story declaring a negative duration. A negative `duration` would reach the timer as is.
- Viewer.StoryViewer.constructor: requires a positive `defaultStoryDuration` (the prop's default, 5000, is). The component accepts any value for that prop; a zero or negative default would give the timer a duration the model does not cover. The viewer's methods that run the timer (TimerEffect, TimerTick, StoryChangeEffect) rely on the same assumption through the viewer's invariant.
- Navigation.Retreat: requires the previous user to exist when stepping back a user. Beyond the end of the list the hook reads `stories` of `undefined` and throws, which is not modelled.
- Timer.StoryTimer.Effect and Timer.StoryTimer.Tick require `now` to be at least the current start time (a clock that does not go back). Only the invariant proofs need that; the step functions take any `now`.
- The string parsing in calculateImageHeight (`split(':')`, `parseFloat`, `isNaN`) is not modelled. An unknown ratio carries the parse result as an optional pair of numbers.
- The screen dimensions (`Dimensions.get`) are parameters: the page width in scrolling, the screen height for the 'full' ratio and for the close slide.
- `handleScrollToIndexFailed` (src/StoryViewer/hooks/useStoryScroll.ts:51-61) only retries the list's scroll after a delay. It is not modelled, and neither is the list's own scrolling.
- The `reset` that the timer hook returns is called by the story-change effect. Its progress write is modelled; React's batching of that state write with the timer's effect is not.
- AnimatedStoryItem.tsx and useSwipeAnimation.ts (floating-point visual interpolation) are not part of this model.
- PreloadImage.tsx (network prefetch), StoryHeader.tsx (pure UI), App.tsx (demo data), examples/CustomRenderExample.tsx (sample renderers) and index.tsx (re-exports) are not part of this model either.
- Render props, style props, `renderItem` and the progress/header/footer layout are not modelled. Only the selection of the story, index, count and progress handed to a page is.
- The animated bar widths of StoryProgress are not modelled, only their target values.
- `onStoryView` and `onClose` are optional or required callbacks. The model reports the call they would receive and does not distinguish an absent optional callback.
