/** Value types the triage core reads: the GitHub entities it receives from the
    API client, the user-configured priorities, and the state of the terminal
    widgets, which the core treats as opaque values. */
module Entities {

  datatype Option<+T> = None | Some(value: T)

  /** A GitHub account; only the login is read. */
  datatype User = User(login: string)

  datatype Repository = Repository(owner: User, name: string, fullName: string)

  /** The subject of a notification: an issue, a pull request, a release, ... */
  datatype Subject = Subject(title: string, url: string, kind: string)

  /** A notification thread. `updatedAt` is the update time as an integer
      (larger is more recent). */
  datatype Notification = Notification(
    id: string,
    repository: Repository,
    subject: Subject,
    reason: string,
    updatedAt: int)

  datatype Label = Label(id: int, name: string, color: string)

  datatype Issue = Issue(number: int, title: string, body: string, user: User, createdAt: int)

  datatype Comment = Comment(user: User, body: string, createdAt: int)

  /** A user-configured severity tier: the name shown in the picker, the label
      put on the issue, and the label's color. */
  datatype Priority = Priority(name: string, labelName: string, color: string)

  /** The zero Priority, used when no configured priority has the requested name. */
  const ZeroPriority := Priority("", "", "")

  /** The priorities used when the configuration names none (cmd/triage/main.go). */
  const DefaultPriorities: seq<Priority> := [
    Priority("Low", "Priority: Low", "#532BE3"),
    Priority("Medium", "Priority: Medium", "#532BE3"),
    Priority("High", "Priority: High", "#532BE3")
  ]

  /** An error returned by an API call: a GitHub error response with its HTTP
      status and error entries, or any other (transport, timeout) failure. */
  datatype ErrorEntry = ErrorEntry(code: string)
  datatype Error = ErrorResponse(statusCode: int, errors: seq<ErrorEntry>) | OtherError(message: string)

  /** A text input widget: its text, and the rest of its state (cursor and the
      like), which the core never looks at. */
  datatype InputModel = InputModel(value: string, state: int)
  const ZeroInput := InputModel("", 0)

  /** A multi-select widget: its option texts, the selected indices, and the
      rest of its state. */
  datatype OptionsModel = OptionsModel(options: seq<string>, selected: seq<int>, state: int)
  const ZeroOptions := OptionsModel([], [], 0)

  /** A single-select widget: its option texts and the rest of its state. */
  datatype OptionModel = OptionModel(options: seq<string>, state: int)
  const ZeroOption := OptionModel([], 0)
}
