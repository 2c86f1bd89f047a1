/** The messages the reducer consumes and the command descriptors it returns.
    Both are closed sums, so the reducer's dispatch is an exhaustive match. */
module Messages {
  import opened Entities

  /** A decoded keystroke. `KeyOther` stands for every key the core does not name. */
  datatype Key =
    | KeyEscape
    | KeyEnter
    | KeyUp
    | KeyDown
    | KeyLeft
    | KeyRight
    | KeyBackspace
    | KeyRune(rune: char)
    | KeyOther(code: int)

  /** One event: terminal input, or the result of a completed command. A
      command that fails yields `Failed`, carrying the wrapping context and
      the API error. */
  datatype Msg =
    | GotDimensions(width: int, height: int)
    | KeyboardInput(key: Key)
    | NotificationLabelsUpdated
    | NotificationPriorityUpdated
    | CommentAdded
    | LabelsLoaded(labels: seq<Label>)
    | NotificationsLoaded(notifications: seq<Notification>)
    | NotificationIssueLoaded(issue: Issue)
    | NotificationLabelsLoaded(labels: seq<Label>)
    | NotificationCommentsLoaded(comments: seq<Comment>)
    | MarkedAsRead(notification: Notification)
    | Unsubscribed(notification: Notification)
    | Unwatched(owner: string, repo: string)
    | Failed(context: string, error: Error)

  /** A description of the work the reducer asks the event loop to run; one
      constructor per command constructor of the command layer. `NoCmd` is the
      absent command and `Batch` runs its members concurrently. */
  datatype Cmd =
    | NoCmd
    | Quit
    | GetDimensions
    | LoadNotifications
    | LoadNotificationIssue(notification: Option<Notification>)
    | LoadNotificationLabels(notification: Option<Notification>, issue: Option<Issue>)
    | LoadNotificationComments(issue: Option<Issue>)
    | LoadRepoLabels(notification: Option<Notification>)
    | UpdateNotificationLabels(notification: Option<Notification>, issue: Option<Issue>, names: seq<string>)
    | UpdateNotificationPriority(notification: Option<Notification>, issue: Option<Issue>, name: string)
    | AddComment(notification: Option<Notification>, issue: Option<Issue>, comment: string)
    | MarkAsRead(notification: Option<Notification>)
    | Unsubscribe(notification: Option<Notification>)
    | Unwatch(owner: string, repo: string)
    | OpenInBrowser(notification: Option<Notification>)
    | Batch(cmds: seq<Cmd>)
}
