/** The application model: the active page, the per-page sub-states, the
    shared in-flight flags and the terminal size, and the initial state. */
module Model {
  import opened Entities
  import opened Messages

  /** The page the user is viewing. PagePriorities is used by the reducer and
      the renderer but is not among the constants in model.go; it is placed
      after PageComment. */
  datatype Page = PageNotifications | PageNotification | PageLabels | PageComment | PagePriorities

  /** The integer the Go iota gives each page. */
  function PageValue(p: Page): (v: nat)
    ensures v < 5
  {
    match p
    case PageNotifications => 0
    case PageNotification => 1
    case PageLabels => 2
    case PageComment => 3
    case PagePriorities => 4
  }

  /** The page an integer stands for, if any: the pages are exactly the
      consecutive values 0 to 4. */
  function PageOf(v: int): (p: Option<Page>)
    ensures p.Some? <==> 0 <= v < 5
    ensures p.Some? ==> PageValue(p.value) == v
  {
    if v == 0 then Some(PageNotifications)
    else if v == 1 then Some(PageNotification)
    else if v == 2 then Some(PageLabels)
    else if v == 3 then Some(PageComment)
    else if v == 4 then Some(PagePriorities)
    else None
  }

  /** The configuration the core reads: only the priorities (the syntax theme
      belongs to the Markdown renderer). */
  datatype Config = Config(priorities: seq<Priority>)

  datatype Model = Model(
    // the page on screen
    page: Page,
    // state of the list page
    notifications: seq<Notification>,
    notificationsScrollY: int,
    selected: int,
    searching: bool,
    searchInput: InputModel,
    // state of the detail page
    notification: Option<Notification>,
    notificationScrollY: int,
    labels: seq<Label>,
    issue: Option<Issue>,
    comments: seq<Comment>,
    loadingIssue: bool,
    loadingLabels: bool,
    loadingComments: bool,
    // state of the label picker
    labelOptions: OptionsModel,
    repoLabels: seq<Label>,
    // state of the priority picker
    priorityOptions: OptionModel,
    // state of the comment prompt
    commentInput: InputModel,
    // in-flight flags and terminal size, for every page
    markingAsRead: bool,
    unsubscribing: bool,
    unwatching: bool,
    loading: bool,
    width: int,
    height: int)

  /** The zero value of the Go struct. */
  const ZeroModel := Model(
    PageNotifications, [], 0, 0, false, ZeroInput,
    None, 0, [], None, [], false, false, false,
    ZeroOptions, [], ZeroOption, ZeroInput,
    false, false, false, false, 0, 0)

  /** The initial model, on the notifications page and loading, and the one
      command that starts the program: the terminal-size probe. */
  function Init(): (r: (Model, Cmd))
    ensures r.0.page == PageNotifications && r.0.loading
    ensures r.1 == GetDimensions
    ensures r.0.selected == 0 && r.0.notificationsScrollY == 0 && r.0.notificationScrollY == 0
    ensures !r.0.searching && !r.0.markingAsRead && !r.0.unsubscribing && !r.0.unwatching
    ensures !r.0.loadingIssue && !r.0.loadingLabels && !r.0.loadingComments
    ensures r.0.notifications == [] && r.0.notification == None && r.0.issue == None
    ensures r.0.labels == [] && r.0.comments == [] && r.0.repoLabels == []
    ensures r.0.searchInput == ZeroInput && r.0.commentInput == ZeroInput
    ensures r.0.labelOptions == ZeroOptions && r.0.priorityOptions == ZeroOption
    ensures r.0.width == 0 && r.0.height == 0
  {
    (ZeroModel.(page := PageNotifications, loading := true), GetDimensions)
  }
}
