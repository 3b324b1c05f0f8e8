/**
 * The navigation cursor of useStoryNavigation: a (userIndex, storyIndex)
 * pair moved by advance, retreat and jump, and reset to
 * (initialUserIndex, 0) by the props-watching effect.
 *
 * The pure functions below are the specification; StoryNavigator is the
 * hook's state (its React state and the ref mirrors are the same fields).
 */
module Navigation {
  import opened StoryTypes

  datatype Cursor = Cursor(userIndex: int, storyIndex: int)

  /** `users[u]`: undefined outside the list, as JavaScript indexing is. */
  function UserAt(users: seq<StoryUser>, u: int): Option<StoryUser>
  {
    if 0 <= u < |users| then Some(users[u]) else None
  }

  /** `stories[i]`: undefined outside the list. */
  function StoryAt(stories: seq<Story>, i: int): Option<Story>
  {
    if 0 <= i < |stories| then Some(stories[i]) else None
  }

  function CurrentUser(users: seq<StoryUser>, c: Cursor): Option<StoryUser>
  {
    UserAt(users, c.userIndex)
  }

  /** `currentUser?.stories[currentStoryIndex]` */
  function CurrentStory(users: seq<StoryUser>, c: Cursor): Option<Story>
  {
    match CurrentUser(users, c)
    case None => None
    case Some(user) => StoryAt(user.stories, c.storyIndex)
  }

  /** `currentUser?.stories.length || 0` */
  function TotalStories(users: seq<StoryUser>, c: Cursor): nat
  {
    match CurrentUser(users, c)
    case None => 0
    case Some(user) => |user.stories|
  }

  predicate IsFirstUser(c: Cursor)
  {
    c.userIndex == 0
  }

  predicate IsLastUser(users: seq<StoryUser>, c: Cursor)
  {
    c.userIndex == |users| - 1
  }

  /** The cursor names an existing story. */
  predicate InBounds(users: seq<StoryUser>, c: Cursor)
  {
    0 <= c.userIndex < |users| && 0 <= c.storyIndex < |users[c.userIndex].stories|
  }

  /** Every user owns at least one story. */
  predicate AllNonEmpty(users: seq<StoryUser>)
  {
    forall u :: 0 <= u < |users| ==> |users[u].stories| > 0
  }

  /** What the derived values of the hook say about the cursor. */
  lemma DerivedValues(users: seq<StoryUser>, c: Cursor)
    ensures CurrentStory(users, c).Some? <==> InBounds(users, c)
    ensures InBounds(users, c) ==>
              CurrentStory(users, c).value == users[c.userIndex].stories[c.storyIndex]
              && c.storyIndex < TotalStories(users, c)
    ensures TotalStories(users, c) == (if 0 <= c.userIndex < |users| then |users[c.userIndex].stories| else 0)
    ensures IsFirstUser(c) <==> c.userIndex == 0
    ensures IsLastUser(users, c) <==> c.userIndex + 1 == |users|
  {
  }

  // ---------------------------------------------------------------------
  // Advance, retreat, jump

  /** The outcome of goToNextStory: a new cursor, or a call of onClose. */
  datatype AdvanceResult = MoveTo(cursor: Cursor) | CloseViewer
  {
    /** The cursor after the step: unchanged when the viewer is closed. */
    function CursorAfter(c: Cursor): Cursor
    {
      if MoveTo? then cursor else c
    }
  }

  /** goToNextStory */
  function Advance(users: seq<StoryUser>, c: Cursor): AdvanceResult
  {
    var storiesCount := TotalStories(users, c);
    if c.storyIndex < storiesCount - 1 then
      MoveTo(Cursor(c.userIndex, c.storyIndex + 1))
    else if c.userIndex < |users| - 1 then
      MoveTo(Cursor(c.userIndex + 1, 0))
    else
      CloseViewer
  }

  /**
   * goToPrevStory reads `users[userIndex - 1].stories` when it steps back a
   * user; that user must exist (JavaScript throws otherwise).
   */
  predicate RetreatDefined(users: seq<StoryUser>, c: Cursor)
  {
    c.storyIndex > 0 || c.userIndex <= 0 || c.userIndex - 1 < |users|
  }

  /** goToPrevStory; never closes the viewer. */
  function Retreat(users: seq<StoryUser>, c: Cursor): Cursor
    requires RetreatDefined(users, c)
  {
    if c.storyIndex > 0 then
      Cursor(c.userIndex, c.storyIndex - 1)
    else if c.userIndex > 0 then
      Cursor(c.userIndex - 1, |users[c.userIndex - 1].stories| - 1)
    else
      c
  }

  lemma AdvanceCases(users: seq<StoryUser>, c: Cursor)
    ensures c.storyIndex + 1 < TotalStories(users, c) ==>
              Advance(users, c) == MoveTo(Cursor(c.userIndex, c.storyIndex + 1))
    ensures c.storyIndex + 1 >= TotalStories(users, c) && c.userIndex + 1 < |users| ==>
              Advance(users, c) == MoveTo(Cursor(c.userIndex + 1, 0))
    ensures Advance(users, c) == CloseViewer <==>
              c.storyIndex + 1 >= TotalStories(users, c) && c.userIndex + 1 >= |users|
    ensures Advance(users, c).CloseViewer? ==> Advance(users, c).CursorAfter(c) == c
  {
  }

  lemma RetreatCases(users: seq<StoryUser>, c: Cursor)
    requires RetreatDefined(users, c)
    ensures c.storyIndex <= 0 && c.userIndex <= 0 ==> Retreat(users, c) == c
    ensures c == Cursor(0, 0) ==> Retreat(users, c) == c
    ensures c.storyIndex == 0 && c.userIndex > 0 ==>
              Retreat(users, c) == Cursor(c.userIndex - 1, |users[c.userIndex - 1].stories| - 1)
    ensures c.storyIndex > 0 ==> Retreat(users, c) == Cursor(c.userIndex, c.storyIndex - 1)
  {
  }

  /** Retreating from the first story of a user after a user with no stories gives story index -1. */
  lemma RetreatIntoEmptyUser(users: seq<StoryUser>, u: int)
    requires 0 < u <= |users| && users[u - 1].stories == []
    ensures Retreat(users, Cursor(u, 0)) == Cursor(u - 1, -1)
    ensures !InBounds(users, Retreat(users, Cursor(u, 0)))
  {
  }

  /** With no empty user, advancing and retreating keep an in-bounds cursor in bounds. */
  lemma StepsKeepBounds(users: seq<StoryUser>, c: Cursor)
    requires AllNonEmpty(users) && InBounds(users, c)
    ensures RetreatDefined(users, c)
    ensures InBounds(users, Advance(users, c).CursorAfter(c))
    ensures InBounds(users, Retreat(users, c))
  {
  }

  /** Advance and retreat undo each other on in-bounds cursors. */
  lemma AdvanceRetreatInverse(users: seq<StoryUser>, c: Cursor)
    requires AllNonEmpty(users) && InBounds(users, c)
    ensures Advance(users, c).MoveTo? ==> Retreat(users, Advance(users, c).cursor) == c
    ensures Retreat(users, c) != c ==> Advance(users, Retreat(users, c)) == MoveTo(c)
  {
  }

  // ---------------------------------------------------------------------
  // Advance and retreat walk the stories of all users in reading order

  /** The number of stories owned by users[0..u]. */
  function StoriesBefore(users: seq<StoryUser>, u: nat): nat
    requires u <= |users|
  {
    if u == 0 then 0 else StoriesBefore(users, u - 1) + |users[u - 1].stories|
  }

  function TotalCount(users: seq<StoryUser>): nat
  {
    StoriesBefore(users, |users|)
  }

  /** The 0-based place of the cursor's story when all stories are laid end to end. */
  function Position(users: seq<StoryUser>, c: Cursor): nat
    requires InBounds(users, c)
  {
    StoriesBefore(users, c.userIndex) + c.storyIndex
  }

  lemma {:induction false} StoriesBeforeGrows(users: seq<StoryUser>, u: nat, v: nat)
    requires u <= v <= |users|
    ensures StoriesBefore(users, u) <= StoriesBefore(users, v)
    ensures AllNonEmpty(users) ==> StoriesBefore(users, v) - StoriesBefore(users, u) >= v - u
    decreases v - u
  {
    if u < v {
      StoriesBeforeGrows(users, u, v - 1);
    }
  }

  lemma PositionBelowTotal(users: seq<StoryUser>, c: Cursor)
    requires AllNonEmpty(users) && InBounds(users, c)
    ensures Position(users, c) < TotalCount(users)
    ensures Position(users, c) + 1 == TotalCount(users) <==>
              c.userIndex + 1 == |users| && c.storyIndex + 1 == |users[c.userIndex].stories|
    ensures Position(users, c) == 0 <==> c == Cursor(0, 0)
  {
    StoriesBeforeGrows(users, c.userIndex + 1, |users|);
    StoriesBeforeGrows(users, 0, c.userIndex);
    if c.userIndex + 1 < |users| {
      StoriesBeforeGrows(users, c.userIndex + 1, |users| - 1);
    }
  }

  /** Advance moves to the next story in reading order, and closes exactly after the last one. */
  lemma AdvanceIsSuccessor(users: seq<StoryUser>, c: Cursor)
    requires AllNonEmpty(users) && InBounds(users, c)
    ensures Advance(users, c).CloseViewer? <==> Position(users, c) + 1 == TotalCount(users)
    ensures Advance(users, c).MoveTo? ==>
              InBounds(users, Advance(users, c).cursor)
              && Position(users, Advance(users, c).cursor) == Position(users, c) + 1
  {
    PositionBelowTotal(users, c);
  }

  /** Retreat moves to the previous story in reading order, and stays put only at the first. */
  lemma RetreatIsPredecessor(users: seq<StoryUser>, c: Cursor)
    requires AllNonEmpty(users) && InBounds(users, c)
    ensures RetreatDefined(users, c)
    ensures Retreat(users, c) == c <==> Position(users, c) == 0
    ensures Retreat(users, c) != c ==>
              InBounds(users, Retreat(users, c))
              && Position(users, Retreat(users, c)) + 1 == Position(users, c)
  {
    PositionBelowTotal(users, c);
  }

  /** Two users with two and one stories: next walks (0,0) → (0,1) → (1,0) and then closes. */
  lemma AdvanceChainExample(a0: Story, a1: Story, b0: Story)
    ensures var users := [StoryUser("A", "A", "", [a0, a1]), StoryUser("B", "B", "", [b0])];
      && Advance(users, Cursor(0, 0)) == MoveTo(Cursor(0, 1))
      && Advance(users, Cursor(0, 1)) == MoveTo(Cursor(1, 0))
      && Advance(users, Cursor(1, 0)) == CloseViewer
      && Retreat(users, Cursor(0, 0)) == Cursor(0, 0)
      && Retreat(users, Cursor(1, 0)) == Cursor(0, 1)
  {
  }

  // ---------------------------------------------------------------------
  // The reset effect

  /** The hook's whole state: the cursor and the two refs the reset effect compares against. */
  datatype NavState = NavState(cursor: Cursor, prevInitialUserIndex: int, prevVisible: bool)

  /** Reset when the initial index changed, or when the viewer goes from hidden to visible. */
  predicate ShouldReset(s: NavState, initialUserIndex: int, visible: bool)
  {
    s.prevInitialUserIndex != initialUserIndex || (!s.prevVisible && visible)
  }

  /** The effect run on [initialUserIndex, visible]. */
  function ResetEffect(s: NavState, initialUserIndex: int, visible: bool): NavState
  {
    if ShouldReset(s, initialUserIndex, visible) then
      NavState(Cursor(initialUserIndex, 0), initialUserIndex, visible)
    else
      s.(prevVisible := visible)
  }

  lemma ResetEffectSpec(s: NavState, initialUserIndex: int, visible: bool)
    ensures var r := ResetEffect(s, initialUserIndex, visible);
      && r.prevVisible == visible
      && r.prevInitialUserIndex == initialUserIndex
      && (r.cursor == Cursor(initialUserIndex, 0) || r.cursor == s.cursor)
      && (r.cursor != s.cursor ==> ShouldReset(s, initialUserIndex, visible))
      && (!ShouldReset(s, initialUserIndex, visible) ==> r.cursor == s.cursor)
      && (ShouldReset(s, initialUserIndex, visible) ==> r.cursor == Cursor(initialUserIndex, 0))
  {
  }

  /** A second run with identical inputs resets nothing and changes nothing. */
  lemma ResetEffectIdempotent(s: NavState, initialUserIndex: int, visible: bool)
    ensures var r := ResetEffect(s, initialUserIndex, visible);
      !ShouldReset(r, initialUserIndex, visible) && ResetEffect(r, initialUserIndex, visible) == r
  {
  }

  // ---------------------------------------------------------------------
  // The hook's state

  class StoryNavigator {
    var userIndex: int
    var storyIndex: int
    var prevInitialUserIndex: int
    var prevVisible: bool

    function Current(): Cursor
      reads this
    {
      Cursor(userIndex, storyIndex)
    }

    function State(): NavState
      reads this
    {
      NavState(Current(), prevInitialUserIndex, prevVisible)
    }

    /** Mount: the cursor starts at (initialUserIndex, 0) and the refs hold the first props. */
    constructor (initialUserIndex: int, visible: bool)
      ensures State() == NavState(Cursor(initialUserIndex, 0), initialUserIndex, visible)
    {
      userIndex := initialUserIndex;
      storyIndex := 0;
      prevInitialUserIndex := initialUserIndex;
      prevVisible := visible;
    }

    method GoToNextStory(users: seq<StoryUser>) returns (closeCalled: bool)
      modifies this
      ensures closeCalled <==> Advance(users, old(Current())) == CloseViewer
      ensures Current() == Advance(users, old(Current())).CursorAfter(old(Current()))
      ensures prevInitialUserIndex == old(prevInitialUserIndex) && prevVisible == old(prevVisible)
    {
      var user := UserAt(users, userIndex);
      var storiesCount := if user.Some? then |user.value.stories| else 0;
      closeCalled := false;
      if storyIndex < storiesCount - 1 {
        storyIndex := storyIndex + 1;
      } else if userIndex < |users| - 1 {
        userIndex := userIndex + 1;
        storyIndex := 0;
      } else {
        closeCalled := true;
      }
    }

    method GoToPrevStory(users: seq<StoryUser>)
      requires RetreatDefined(users, Current())
      modifies this
      ensures Current() == Retreat(users, old(Current()))
      ensures prevInitialUserIndex == old(prevInitialUserIndex) && prevVisible == old(prevVisible)
    {
      if storyIndex > 0 {
        storyIndex := storyIndex - 1;
      } else if userIndex > 0 {
        var prevUser := users[userIndex - 1];
        userIndex := userIndex - 1;
        storyIndex := |prevUser.stories| - 1;
      }
    }

    /** goToUser: no bounds check. */
    method GoToUser(n: int)
      modifies this
      ensures Current() == Cursor(n, 0)
      ensures prevInitialUserIndex == old(prevInitialUserIndex) && prevVisible == old(prevVisible)
    {
      userIndex := n;
      storyIndex := 0;
    }

    /** The effect on [initialUserIndex, visible]. */
    method SyncResetEffect(initialUserIndex: int, visible: bool) returns (didReset: bool)
      modifies this
      ensures didReset <==> ShouldReset(old(State()), initialUserIndex, visible)
      ensures State() == ResetEffect(old(State()), initialUserIndex, visible)
    {
      didReset := prevInitialUserIndex != initialUserIndex || (!prevVisible && visible);
      if didReset {
        userIndex := initialUserIndex;
        storyIndex := 0;
        prevInitialUserIndex := initialUserIndex;
      }
      prevVisible := visible;
    }
  }
}
