/** The shared enumerations and records of the application. */
module Types {

  /** The presentation phase, in the order the experience moves through it. */
  datatype AppState = INTRO | COUNTDOWN | TRANSITION_TO_2026 | TREE_ASSEMBLE | INTERACTIVE_TREE

  /** The display sub-mode of the interactive tree. */
  datatype TreeDisplayMode = COMPACT | SCATTERED | PHOTO_FOCUS

  /** A photo the user uploaded: a generated id and the image's data URL. */
  datatype UserPhoto = UserPhoto(id: string, url: string)

  /** A nullable value (the source's `string | null`, an absent canvas context). */
  datatype Option<T> = None | Some(value: T)

  /** The tree configuration: the states in which particles and ornaments form the cone. */
  predicate TreeConfiguration(state: AppState, mode: TreeDisplayMode)
  {
    state == TREE_ASSEMBLE || (state == INTERACTIVE_TREE && mode == COMPACT)
  }
}
