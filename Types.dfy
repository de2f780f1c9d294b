/** The records and the status enumeration of types.ts. */
module Types {
  import opened Wrappers

  /** One storyboard scene; `imageUrl` is absent until its illustration arrives. */
  datatype StoryboardScene = StoryboardScene(
    id: int,
    title: string,
    description: string,
    visualPrompt: string,
    imageUrl: Option<string>)

  /** What JSON.parse gives back, cast to StoryboardData without any check:
      `scenes` may be missing (None), which the cast does not catch. */
  datatype StoryboardData = StoryboardData(scenes: Option<seq<StoryboardScene>>)

  datatype AppStatus = IDLE | ANALYZING | GENERATING_IMAGES | COMPLETED | ERROR

  /** The observable state of a run: status, percentage, status line and optional error text. */
  datatype ProcessingState = ProcessingState(
    status: AppStatus,
    progress: int,
    message: string,
    error: Option<string>)
}
