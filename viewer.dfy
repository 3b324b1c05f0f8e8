/**
 * The composition in StoryViewer: the duration fallback, the single pause
 * flag and its writers, the story-change effect, the wiring of timer
 * completion to navigation, the per-page story selection and the top-level
 * visibility guard.
 */
module Viewer {
  import opened StoryTypes
  import opened Navigation
  import opened Timer

  const DefaultStoryDuration: int := 5000

  /** `initialUserIndex = 0` */
  function InitialUserIndexOf(props: ViewerProps): int
  {
    match props.initialUserIndex
    case Some(i) => i
    case None => 0
  }

  /** `defaultStoryDuration = 5000` */
  function DefaultDurationOf(props: ViewerProps): int
  {
    match props.defaultStoryDuration
    case Some(d) => d
    case None => DefaultStoryDuration
  }

  lemma PropDefaults(props: ViewerProps)
    ensures props.initialUserIndex == None ==> InitialUserIndexOf(props) == 0
    ensures props.defaultStoryDuration == None ==> DefaultDurationOf(props) == 5000
    ensures props.initialUserIndex.Some? ==> InitialUserIndexOf(props) == props.initialUserIndex.value
    ensures props.defaultStoryDuration.Some? ==> DefaultDurationOf(props) == props.defaultStoryDuration.value
  {
  }

  /** `currentStory?.duration || defaultStoryDuration`: absent or zero falls back. */
  function TimerDuration(story: Option<Story>, defaultDuration: int): int
  {
    if story.Some? && story.value.duration.Some? && story.value.duration.value != 0 then
      story.value.duration.value
    else
      defaultDuration
  }

  /** No story declares a negative duration. */
  predicate DeclaredDurationsNonNegative(users: seq<StoryUser>)
  {
    forall u, i :: 0 <= u < |users| && 0 <= i < |users[u].stories| && users[u].stories[i].duration.Some?
      ==> users[u].stories[i].duration.value >= 0
  }

  /** The timer always runs on a positive duration, the declared one when it is present and non-zero. */
  lemma TimerDurationFallback(users: seq<StoryUser>, c: Cursor, defaultDuration: int)
    requires defaultDuration > 0 && DeclaredDurationsNonNegative(users)
    ensures TimerDuration(CurrentStory(users, c), defaultDuration) > 0
    ensures var story := CurrentStory(users, c);
      if story.Some? && story.value.duration.Some? && story.value.duration.value != 0
      then TimerDuration(story, defaultDuration) == story.value.duration.value
      else TimerDuration(story, defaultDuration) == defaultDuration
  {
    DerivedValues(users, c);
  }

  /** `currentStory?.id`: the timer's restart key. */
  function TimerKey(users: seq<StoryUser>, c: Cursor): Key
  {
    match CurrentStory(users, c)
    case Some(story) => Some(story.id)
    case None => None
  }

  /**
   * The key exists exactly when the cursor names a story; two cursors on
   * stories with different ids give different keys, so moving between them
   * restarts the timer, while stories sharing an id do not.
   */
  lemma TimerKeyTracksStory(users: seq<StoryUser>, c1: Cursor, c2: Cursor)
    ensures TimerKey(users, c1).Some? <==> InBounds(users, c1)
    ensures InBounds(users, c1) ==> TimerKey(users, c1).value == users[c1.userIndex].stories[c1.storyIndex].id
    ensures InBounds(users, c1) && InBounds(users, c2) ==>
      (TimerKey(users, c1) == TimerKey(users, c2) <==>
       users[c1.userIndex].stories[c1.storyIndex].id == users[c2.userIndex].stories[c2.storyIndex].id)
  {
    DerivedValues(users, c1);
    DerivedValues(users, c2);
  }

  // ---------------------------------------------------------------------
  // The single pause flag

  /** The handlers that write `isPaused`. */
  datatype PauseWriter =
    | ScrollStart    // onScrollStart of the list
    | ScrollEnd      // onScrollEnd of the list
    | GesturePause   // onPause of the vertical close gesture
    | GestureResume  // onResume of the vertical close gesture
    | PressIn        // tap zone press-in, also the onPause render prop
    | PressOut       // tap zone press-out, also the onResume render prop

  /** The value a writer stores. */
  function Pauses(w: PauseWriter): bool
  {
    w.ScrollStart? || w.GesturePause? || w.PressIn?
  }

  /** The flag after a run of writes. */
  function PauseAfter(initial: bool, writes: seq<PauseWriter>): bool
    decreases |writes|
  {
    if writes == [] then initial else PauseAfter(Pauses(writes[0]), writes[1..])
  }

  /** One flag, many writers: the last write decides, whatever came before. */
  lemma {:induction false} LastWriterWins(initial: bool, writes: seq<PauseWriter>)
    requires writes != []
    ensures PauseAfter(initial, writes) == Pauses(writes[|writes| - 1])
    decreases |writes|
  {
    if |writes| > 1 {
      LastWriterWins(Pauses(writes[0]), writes[1..]);
    }
  }

  /**
   * A resuming write (scroll end, gesture resume, press-out) leaves the
   * viewer unpaused whatever came before it, and a pausing write leaves it
   * paused.
   */
  lemma FinalWriteDecides(initial: bool, writes: seq<PauseWriter>, w: PauseWriter)
    ensures PauseAfter(initial, writes + [w]) <==> w in {ScrollStart, GesturePause, PressIn}
  {
    LastWriterWins(initial, writes + [w]);
  }

  // ---------------------------------------------------------------------
  // Page selection and the visibility guard

  /** What renderUserStory hands to a page. */
  datatype PageView = PageView(
    story: Story,
    currentStoryIndex: int,
    totalStories: nat,
    progress: real,
    isCurrentUser: bool
  )

  /** renderUserStory: None when the selected story does not exist (the page renders nothing). */
  function RenderUserStory(user: StoryUser, index: int, c: Cursor, progress: real): Option<PageView>
  {
    var isCurrentUser := index == c.userIndex;
    var storyIndex := if isCurrentUser then c.storyIndex else 0;
    match StoryAt(user.stories, storyIndex)
    case None => None
    case Some(story) =>
      Some(PageView(story, storyIndex, |user.stories|, if isCurrentUser then progress else 0.0, isCurrentUser))
  }

  /** The current user's page shows the cursor's story with the live progress. */
  lemma CurrentPageShowsCursor(users: seq<StoryUser>, c: Cursor, progress: real)
    requires InBounds(users, c)
    ensures RenderUserStory(users[c.userIndex], c.userIndex, c, progress)
      == Some(PageView(CurrentStory(users, c).value, c.storyIndex, TotalStories(users, c), progress, true))
  {
  }

  /** Every other page shows its first story at zero progress, or nothing when it has no story. */
  lemma OtherPagesShowFirstStory(user: StoryUser, index: int, c: Cursor, progress: real)
    requires index != c.userIndex
    ensures RenderUserStory(user, index, c, progress)
      == if user.stories == [] then None else Some(PageView(user.stories[0], 0, |user.stories|, 0.0, false))
  {
  }

  /** A page renders exactly when its selected story exists. */
  lemma MissingStoryRendersNothing(user: StoryUser, index: int, c: Cursor, progress: real)
    ensures RenderUserStory(user, index, c, progress).None?
      <==> (if index == c.userIndex then !(0 <= c.storyIndex < |user.stories|) else user.stories == [])
  {
  }

  /** The guard in front of the modal. */
  predicate Renders(visible: bool, users: seq<StoryUser>, c: Cursor)
  {
    visible && CurrentUser(users, c).Some? && CurrentStory(users, c).Some?
  }

  /** Whatever is rendered is visible and sits on an existing story. */
  lemma RenderedCursorInBounds(visible: bool, users: seq<StoryUser>, c: Cursor)
    ensures Renders(visible, users, c) <==> visible && InBounds(users, c)
  {
    DerivedValues(users, c);
  }

  // ---------------------------------------------------------------------
  // The viewer's state

  /** onStoryView(userId, storyId) */
  datatype Viewed = Viewed(userId: string, storyId: string)

  class StoryViewer {
    const users: seq<StoryUser>
    const defaultStoryDuration: int
    const nav: StoryNavigator
    const timer: StoryTimer
    var visible: bool
    var isPaused: bool

    ghost predicate Valid()
      reads this, timer
    {
      timer.Valid() && defaultStoryDuration > 0 && DeclaredDurationsNonNegative(users)
    }

    /** The duration the timer hook receives for the current story. */
    function CurrentDuration(): int
      reads this, nav
    {
      TimerDuration(CurrentStory(users, nav.Current()), defaultStoryDuration)
    }

    constructor (props: ViewerProps)
      requires DefaultDurationOf(props) > 0 && DeclaredDurationsNonNegative(props.users)
      ensures Valid() && fresh(nav) && fresh(timer)
      ensures users == props.users && visible == props.visible && !isPaused
      ensures defaultStoryDuration == DefaultDurationOf(props)
      ensures nav.State()
        == NavState(Cursor(InitialUserIndexOf(props), 0), InitialUserIndexOf(props), props.visible)
      ensures timer.State() == Initial(TimerKey(props.users, Cursor(InitialUserIndexOf(props), 0)))
    {
      var start := InitialUserIndexOf(props);
      users := props.users;
      defaultStoryDuration := DefaultDurationOf(props);
      nav := new StoryNavigator(start, props.visible);
      timer := new StoryTimer(TimerKey(props.users, Cursor(start, 0)));
      visible := props.visible;
      isPaused := false;
    }

    /** Any of the pause writers: scroll start/end, the close gesture, tap press-in/out. */
    method WritePause(w: PauseWriter)
      modifies this`isPaused
      ensures isPaused == Pauses(w)
    {
      isPaused := Pauses(w);
    }

    /**
     * The effect on [currentStory?.id, visible]: a visible story resets the
     * timer, resumes and reports the view; otherwise the viewer is paused and
     * the timer reset.
     */
    method StoryChangeEffect() returns (viewed: Option<Viewed>)
      requires Valid()
      modifies this`isPaused, timer
      ensures Valid()
      ensures timer.State() == ResetState(old(timer.State()))
      ensures var c := nav.Current();
        if visible && CurrentStory(users, c).Some? then
          !isPaused && viewed == Some(Viewed(CurrentUser(users, c).value.id, CurrentStory(users, c).value.id))
        else
          isPaused && viewed == None
    {
      var c := nav.Current();
      var story := CurrentStory(users, c);
      if visible && story.Some? {
        timer.Reset();
        isPaused := false;
        viewed := Some(Viewed(CurrentUser(users, c).value.id, story.value.id));
      } else {
        isPaused := true;
        timer.Reset();
        viewed := None;
      }
    }

    /** A run of the timer hook's effect with the viewer's key, pause flag and duration. */
    method TimerEffect(now: int)
      requires Valid() && now >= timer.startTime
      modifies timer
      ensures Valid()
      ensures timer.State()
        == Rerun(old(timer.State()), TimerKey(users, nav.Current()), isPaused, CurrentDuration(), now)
    {
      TimerDurationFallback(users, nav.Current(), defaultStoryDuration);
      timer.Effect(TimerKey(users, nav.Current()), isPaused, CurrentDuration(), now);
    }

    /** onNext and the right tap zone: goToNextStory. */
    method Next() returns (closeCalled: bool)
      modifies nav
      ensures closeCalled <==> Advance(users, old(nav.Current())) == CloseViewer
      ensures nav.Current() == Advance(users, old(nav.Current())).CursorAfter(old(nav.Current()))
      ensures nav.prevInitialUserIndex == old(nav.prevInitialUserIndex) && nav.prevVisible == old(nav.prevVisible)
    {
      closeCalled := nav.GoToNextStory(users);
    }

    /** onPrev and the left tap zone: goToPrevStory. */
    method Prev()
      requires RetreatDefined(users, nav.Current())
      modifies nav
      ensures nav.Current() == Retreat(users, old(nav.Current()))
      ensures nav.prevInitialUserIndex == old(nav.prevInitialUserIndex) && nav.prevVisible == old(nav.prevVisible)
    {
      nav.GoToPrevStory(users);
    }

    /** An interval tick; a completion calls the same goToNextStory as Next. */
    method TimerTick(now: int) returns (completed: bool, closeCalled: bool)
      requires Valid() && now >= timer.startTime
      modifies nav, timer
      ensures Valid()
      ensures (timer.State(), completed) == TickStep(old(timer.State()), now)
      ensures closeCalled <==> completed && Advance(users, old(nav.Current())) == CloseViewer
      ensures nav.Current()
        == if completed then Advance(users, old(nav.Current())).CursorAfter(old(nav.Current()))
           else old(nav.Current())
      ensures nav.prevInitialUserIndex == old(nav.prevInitialUserIndex) && nav.prevVisible == old(nav.prevVisible)
    {
      completed := timer.Tick(now);
      closeCalled := false;
      if completed {
        closeCalled := nav.GoToNextStory(users);
      }
    }
  }
}
