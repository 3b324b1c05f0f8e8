/**
 * The records the story viewer works on: a story, a user owning an ordered
 * list of stories, and the props the embedding application passes in.
 * Callbacks (onClose, onStoryView) are not values here: the operations that
 * would call them return the call as an emitted intent instead.
 */
module StoryTypes {

  datatype Option<T> = None | Some(value: T)

  /** A story is exactly one of these two kinds. */
  datatype MediaKind = Image | Video

  /**
   * One timed media item. `duration` is optional and in milliseconds; the
   * viewer supplies its default when it is absent or zero. The id is the
   * restart key of the progress timer.
   */
  datatype Story = Story(id: string, kind: MediaKind, url: string, duration: Option<int>)

  /** A user owns an ordered list of stories, indexed by the cursor's story index. */
  datatype StoryUser = StoryUser(id: string, name: string, avatar: string, stories: seq<Story>)

  /**
   * The data props of the viewer. `initialUserIndex` is optional (the viewer
   * defaults it to 0), and so is `defaultStoryDuration` (default 5000 ms),
   * which the viewer reads although the declared props type omits it.
   */
  datatype ViewerProps = ViewerProps(
    users: seq<StoryUser>,
    initialUserIndex: Option<int>,
    visible: bool,
    defaultStoryDuration: Option<int>
  )
}
