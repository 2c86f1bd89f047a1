/** update.go: the reducer that maps one message and one model to the next
    model and the commands to run, and the list helpers it relies on. */
module Reducer {
  import opened Entities
  import opened Messages
  import opened Model
  import opened Util
  import opened Seqs

  /** The number of rows a list item consumes. */
  const ListItemHeight: int := 4

  /** The go-tea widgets, which the core treats as opaque: how each one reacts
      to a message and what value it reports. */
  datatype Widgets = Widgets(
    inputUpdate: (Msg, InputModel) -> InputModel,
    optionsUpdate: (Msg, OptionsModel) -> OptionsModel,
    optionsValue: OptionsModel -> seq<string>,
    optionUpdate: (Msg, OptionModel) -> OptionModel,
    optionValue: OptionModel -> string)

  /** What one reducer call yields: the next model and the command to run, or
      a run-time panic (an index out of range) that ends the program. */
  datatype Outcome = Next(model: Model, cmd: Cmd) | Panic(reason: string)

  // ---------------------------------------------------------------------
  // List helpers

  /** The index of the LAST notification with the given id, or -1: the loop
      of getNotificationIndex overwrites its result and never stops early. */
  function LastIndexOf(ns: seq<Notification>, id: string): (r: int)
    ensures -1 <= r < |ns|
    ensures r >= 0 ==> ns[r].id == id
    ensures forall k :: r < k < |ns| ==> ns[k].id != id
  {
    if ns == [] then -1
    else if ns[|ns| - 1].id == id then |ns| - 1
    else LastIndexOf(ns[..|ns| - 1], id)
  }

  method GetNotificationIndex(notifications: seq<Notification>, id: string) returns (index: int)
    ensures index == LastIndexOf(notifications, id)
  {
    index := -1;
    for i := 0 to |notifications|
      invariant index == LastIndexOf(notifications[..i], id)
    {
      assert notifications[..i + 1][..i] == notifications[..i];
      if notifications[i].id == id {
        index := i;
      }
    }
    assert notifications[..|notifications|] == notifications;
  }

  /** The list without the notification at LastIndexOf(ns, id), if any. */
  function Removed(ns: seq<Notification>, id: string): (r: seq<Notification>)
    ensures |r| == if LastIndexOf(ns, id) == -1 then |ns| else |ns| - 1
  {
    var i := LastIndexOf(ns, id);
    if i == -1 then ns else ns[..i] + ns[i + 1..]
  }

  method RemoveNotification(notifications: seq<Notification>, id: string) returns (r: seq<Notification>)
    ensures r == Removed(notifications, id)
  {
    var i := GetNotificationIndex(notifications, id);
    if i == -1 {
      return notifications;
    }
    r := notifications[..i] + notifications[i + 1..];
  }

  /** A label is a priority label when some configured priority uses its name. */
  predicate IsPriorityLabel(l: Label, priorities: seq<Priority>) {
    exists p :: 0 <= p < |priorities| && priorities[p].labelName == l.name
  }

  /** The labels that are not priority labels, in their original order. */
  function NonPriorityLabels(labels: seq<Label>, priorities: seq<Priority>): (r: seq<Label>)
    ensures |r| <= |labels|
  {
    if labels == [] then []
    else
      var last := labels[|labels| - 1];
      NonPriorityLabels(labels[..|labels| - 1], priorities)
        + (if IsPriorityLabel(last, priorities) then [] else [last])
  }

  method FilterPriorityLabels(labels: seq<Label>, priorities: seq<Priority>) returns (filtered: seq<Label>)
    ensures filtered == NonPriorityLabels(labels, priorities)
  {
    filtered := [];
    label loop:
    for i := 0 to |labels|
      invariant filtered == NonPriorityLabels(labels[..i], priorities)
    {
      assert labels[..i + 1][..i] == labels[..i];
      var l := labels[i];
      for j := 0 to |priorities|
        invariant forall p :: 0 <= p < j ==> priorities[p].labelName != l.name
      {
        if l.name == priorities[j].labelName {
          continue loop;
        }
      }
      filtered := filtered + [l];
    }
    assert labels[..|labels|] == labels;
  }

  /** The names of the labels, in order. */
  function Names(labels: seq<Label>): (r: seq<string>)
    ensures |r| == |labels|
    ensures forall k :: 0 <= k < |labels| ==> r[k] == labels[k].name
  {
    if labels == [] then [] else Names(labels[..|labels| - 1]) + [labels[|labels| - 1].name]
  }

  method LabelNames(labels: seq<Label>) returns (names: seq<string>)
    ensures names == Names(labels)
  {
    names := [];
    for i := 0 to |labels|
      invariant names == Names(labels[..i])
    {
      assert labels[..i + 1][..i] == labels[..i];
      names := names + [labels[i].name];
    }
    assert labels[..|labels|] == labels;
  }

  /** Some label of `selected` has the given id. */
  predicate HasLabelId(selected: seq<Label>, id: int) {
    exists k :: 0 <= k < |selected| && selected[k].id == id
  }

  /** The indices of the repository labels that the issue carries, matched by id. */
  function SelectedIndexes(labels: seq<Label>, selected: seq<Label>): (r: seq<int>)
  {
    if labels == [] then []
    else
      var n := |labels| - 1;
      SelectedIndexes(labels[..n], selected) + (if HasLabelId(selected, labels[n].id) then [n] else [])
  }

  method LabelsSelected(labels: seq<Label>, selected: seq<Label>) returns (indexes: seq<int>)
    ensures indexes == SelectedIndexes(labels, selected)
  {
    indexes := [];
    for i := 0 to |labels|
      invariant indexes == SelectedIndexes(labels[..i], selected)
    {
      assert labels[..i + 1][..i] == labels[..i];
      var l := labels[i];
      var j := 0;
      while j < |selected|
        invariant 0 <= j <= |selected|
        invariant forall k :: 0 <= k < j ==> selected[k].id != l.id
      {
        if selected[j].id == l.id {
          indexes := indexes + [i];
          break;
        }
        j := j + 1;
      }
    }
    assert labels[..|labels|] == labels;
  }

  /** The notifications of the given repository, in order. */
  function InRepo(ns: seq<Notification>, owner: string, repo: string): (r: seq<Notification>)
    ensures |r| <= |ns|
  {
    if ns == [] then []
    else
      var last := ns[|ns| - 1];
      InRepo(ns[..|ns| - 1], owner, repo) + (if OwnerRepo(last) == (owner, repo) then [last] else [])
  }

  method GetNotificationsByRepo(notifications: seq<Notification>, owner: string, repo: string)
    returns (filtered: seq<Notification>)
    ensures filtered == InRepo(notifications, owner, repo)
  {
    filtered := [];
    for i := 0 to |notifications|
      invariant filtered == InRepo(notifications[..i], owner, repo)
    {
      assert notifications[..i + 1][..i] == notifications[..i];
      var n := notifications[i];
      var (o, r) := OwnerRepo(n);
      if o == owner && r == repo {
        filtered := filtered + [n];
      }
    }
    assert notifications[..|notifications|] == notifications;
  }

  /** The names of the configured priorities, the options of the priority picker. */
  function PriorityNames(priorities: seq<Priority>): (r: seq<string>)
    ensures |r| == |priorities|
    ensures forall k :: 0 <= k < |priorities| ==> r[k] == priorities[k].name
  {
    seq(|priorities|, k requires 0 <= k < |priorities| => priorities[k].name)
  }

  /** One mark-as-read command per notification, in order. */
  function MarkAllRead(ns: seq<Notification>): (r: seq<Cmd>)
    ensures |r| == |ns|
    ensures forall k :: 0 <= k < |ns| ==> r[k] == MarkAsRead(Some(ns[k]))
  {
    if ns == [] then [] else MarkAllRead(ns[..|ns| - 1]) + [MarkAsRead(Some(ns[|ns| - 1]))]
  }

  /** The height in rows of the notification list: a row block per item, two
      padding rows, and two more for the search bar while searching. */
  function ListHeight(count: int, searching: bool): int {
    ListItemHeight * count + 2 + (if searching then 2 else 0)
  }

  /** The list scroll offset for the current selection. `direction` is 1 when
      moving up and -1 when moving down. */
  function ScrollNotifications(m: Model, notifications: seq<Notification>, direction: int): (r: int)
    ensures r >= Min(0, ListHeight(|notifications|, m.searching) - m.height)
  {
    var selectedHeight := ListItemHeight * m.selected;
    var listHeight := ListHeight(|notifications|, m.searching);
    var padding := Quot(m.height, 2);
    // near the top: no scroll until the selection passes half a screen
    if selectedHeight < padding then 0
    // moving down past the last full screen: pinned to the bottom
    else if direction < 0 && selectedHeight > listHeight - m.height then listHeight - m.height
    // moving up within the last half screen: still pinned to the bottom
    else if direction > 0 && selectedHeight > listHeight - padding then listHeight - m.height
    else selectedHeight - padding
  }

  // ---------------------------------------------------------------------
  // The reducer

  /** Opens a notification: it becomes the current one, the three loading
      flags are set and its issue is fetched (labels and comments follow). */
  function LoadNotification(m: Model, n: Option<Notification>): (Model, Cmd) {
    (m.(notification := n, loadingIssue := true, loadingLabels := true, loadingComments := true),
     LoadNotificationIssue(n))
  }

  /** The comment page's vocabulary: keyboard input only. */
  function CommentPage(w: Widgets, msg: Msg, m: Model): Option<Outcome> {
    match msg
    case KeyboardInput(k) =>
      Some(match k
        case KeyEscape => Next(m.(commentInput := ZeroInput, page := PageNotification), NoCmd)
        case KeyEnter =>
          Next(m.(commentInput := ZeroInput, page := PageNotification),
               AddComment(m.notification, m.issue, m.commentInput.value))
        case _ => Next(m.(commentInput := w.inputUpdate(msg, m.commentInput)), NoCmd))
    case _ => None
  }

  /** The labels page's vocabulary: the two label loads, the update result and
      keyboard input. */
  function LabelsPage(config: Config, w: Widgets, msg: Msg, m: Model): Option<Outcome> {
    match msg
    case LabelsLoaded(ls) =>
      Some(Next(m.(repoLabels := NonPriorityLabels(ls, config.priorities), loading := false),
                LoadNotificationLabels(m.notification, m.issue)))
    case NotificationLabelsLoaded(ls) =>
      Some(Next(m.(labelOptions := OptionsModel(Names(m.repoLabels), SelectedIndexes(m.repoLabels, ls), 0),
                   loadingLabels := false),
                NoCmd))
    case NotificationLabelsUpdated =>
      Some(Next(m.(page := PageNotification, loadingLabels := true),
                LoadNotificationLabels(m.notification, m.issue)))
    case KeyboardInput(k) =>
      Some(match k
        case KeyEnter =>
          Next(m.(page := PageNotification),
               UpdateNotificationLabels(m.notification, m.issue, w.optionsValue(m.labelOptions)))
        case KeyEscape => Next(m.(labelOptions := ZeroOptions, page := PageNotification), NoCmd)
        case _ => Next(m.(labelOptions := w.optionsUpdate(msg, m.labelOptions)), NoCmd))
    case _ => None
  }

  /** The priorities page's vocabulary: the update result and keyboard input.
      Escape resets the LABEL options, as the source does. */
  function PrioritiesPage(w: Widgets, msg: Msg, m: Model): Option<Outcome> {
    match msg
    case NotificationPriorityUpdated =>
      Some(Next(m.(page := PageNotification, loadingLabels := true),
                LoadNotificationLabels(m.notification, m.issue)))
    case KeyboardInput(k) =>
      Some(match k
        case KeyEnter =>
          Next(m.(page := PageNotification),
               UpdateNotificationPriority(m.notification, m.issue, w.optionValue(m.priorityOptions)))
        case KeyEscape => Next(m.(labelOptions := ZeroOptions, page := PageNotification), NoCmd)
        case _ => Next(m.(priorityOptions := w.optionUpdate(msg, m.priorityOptions)), NoCmd))
    case _ => None
  }

  /** The detail page's vocabulary: its three loads, the comment result and
      its keys. Any other key falls through to the global keys. */
  function NotificationPage(config: Config, msg: Msg, m: Model): Option<Outcome> {
    match msg
    case CommentAdded => Some(Next(m.(loadingComments := true), LoadNotificationComments(m.issue)))
    case NotificationIssueLoaded(issue) =>
      Some(Next(m.(issue := Some(issue), loadingIssue := false),
                Batch([LoadNotificationLabels(m.notification, Some(issue)), LoadNotificationComments(Some(issue))])))
    case NotificationLabelsLoaded(ls) => Some(Next(m.(loadingLabels := false, labels := ls), NoCmd))
    case NotificationCommentsLoaded(cs) => Some(Next(m.(loadingComments := false, comments := cs), NoCmd))
    case KeyboardInput(k) =>
      (match k
        case KeyLeft => Some(Next(m.(page := PageNotifications, notificationScrollY := 0), NoCmd))
        case KeyUp =>
          var y := if m.notificationScrollY > 0 then m.notificationScrollY - Quot(m.height, 4) else 0;
          Some(Next(m.(notificationScrollY := y), NoCmd))
        case KeyDown => Some(Next(m.(notificationScrollY := m.notificationScrollY + Quot(m.height, 4)), NoCmd))
        case KeyBackspace =>
          Some(Next(m.(page := PageNotifications, markingAsRead := true), MarkAsRead(m.notification)))
        case KeyRune(r) =>
          if r == 'R' then
            var (m', c) := LoadNotification(m.(labels := [], comments := []), m.notification);
            Some(Next(m', c))
          else if r == 'r' then Some(Next(m.(markingAsRead := true), MarkAsRead(m.notification)))
          else if r == 'u' then Some(Next(m.(unsubscribing := true), Unsubscribe(m.notification)))
          else if r == 'o' then Some(Next(m, OpenInBrowser(m.notification)))
          else if r == 'l' then
            Some(Next(m.(page := PageLabels, loading := true, loadingLabels := true), LoadRepoLabels(m.notification)))
          else if r == 'p' then
            Some(Next(m.(page := PagePriorities, priorityOptions := OptionModel(PriorityNames(config.priorities), 0)), NoCmd))
          else if r == 'c' then Some(Next(m.(page := PageComment), NoCmd))
          else None
        case _ => None)
    case _ => None
  }

  /** The notifications page while the search bar has focus: every message is
      consumed here. */
  function SearchBar(w: Widgets, msg: Msg, m: Model): Outcome {
    match msg
    case KeyboardInput(k) =>
      (match k
        case KeyEscape => Next(m.(searching := false, searchInput := m.searchInput.(value := "")), NoCmd)
        case KeyEnter => Next(m.(searching := false), NoCmd)
        case KeyDown => Next(m.(searching := false), NoCmd)
        case _ =>
          Next(m.(selected := 0, searchInput := w.inputUpdate(msg, m.searchInput), notificationsScrollY := 0), NoCmd))
    case _ => Next(m.(searchInput := w.inputUpdate(msg, m.searchInput)), NoCmd)
  }

  /** The notifications page; `notifications` is the list as filtered by the
      search text, which is what `selected` indexes. */
  function NotificationsPage(w: Widgets, msg: Msg, m: Model, notifications: seq<Notification>): Option<Outcome> {
    if m.searching then Some(SearchBar(w, msg, m))
    else
      match msg
      case NotificationsLoaded(ns) => Some(Next(m.(notifications := ns, loading := false), NoCmd))
      case KeyboardInput(k) => ListKeys(k, m, notifications)
      case _ => None
  }

  /** The list's keys. Any key quits when the filtered list is empty. */
  function ListKeys(k: Key, m: Model, notifications: seq<Notification>): Option<Outcome> {
    if |notifications| == 0 then Some(Next(m, Quit))
    else
      match k
      case KeyUp => Some(Next(SelectUp(m, notifications), NoCmd))
      case KeyDown => Some(Next(SelectDown(m, notifications), NoCmd))
      case KeyEnter => Some(Open(m, notifications))
      case KeyRight => Some(Open(m, notifications))
      case KeyBackspace =>
        Some(if 0 <= m.selected < |notifications| then
               Next(m.(markingAsRead := true), MarkAsRead(Some(notifications[m.selected])))
             else Panic("index out of range"))
      case KeyRune(r) => ListRunes(r, m, notifications)
      case _ => None
  }

  /** The list's letter keys. */
  function ListRunes(r: char, m: Model, notifications: seq<Notification>): Option<Outcome> {
    var inRange := 0 <= m.selected < |notifications|;
    if r == 'R' then Some(Next(m.(loading := true), LoadNotifications))
    else if r == 'r' then
      Some(if inRange then Next(m.(markingAsRead := true), MarkAsRead(Some(notifications[m.selected])))
           else Panic("index out of range"))
    else if r == 'u' then
      Some(if inRange then Next(m.(unsubscribing := true), Unsubscribe(Some(notifications[m.selected])))
           else Panic("index out of range"))
    else if r == 'U' then
      // indexes the UNFILTERED list, as the source does
      Some(if 0 <= m.selected < |m.notifications| then
             var (owner, repo) := OwnerRepo(m.notifications[m.selected]);
             Next(m, Batch([Unwatch(owner, repo)] + MarkAllRead(InRepo(m.notifications, owner, repo))))
           else Panic("index out of range"))
    else if r == 'o' then
      Some(if inRange then Next(m, OpenInBrowser(Some(notifications[m.selected])))
           else Panic("index out of range"))
    else if r == '/' then Some(Next(m.(searching := true), NoCmd))
    else None
  }

  /** Up on the list: select the previous item, or, on the first one, give
      the search bar focus when there is search text; then scroll. */
  function SelectUp(m: Model, notifications: seq<Notification>): Model {
    var m1 := if m.selected > 0 then m.(selected := m.selected - 1)
              else if m.searchInput.value != "" then m.(searching := true)
              else m;
    m1.(notificationsScrollY := ScrollNotifications(m1, notifications, 1))
  }

  /** Down on the list: select the next item unless on the last; then scroll. */
  function SelectDown(m: Model, notifications: seq<Notification>): Model {
    var m1 := if m.selected < |notifications| - 1 then m.(selected := m.selected + 1) else m;
    m1.(notificationsScrollY := ScrollNotifications(m1, notifications, -1))
  }

  /** Enter or Right on the list: open the selected notification. */
  function Open(m: Model, notifications: seq<Notification>): Outcome {
    if 0 <= m.selected < |notifications| then
      var n := notifications[m.selected];
      var (m', c) := LoadNotification(
        m.(page := PageNotification, notificationScrollY := 0, issue := None, labels := [], comments := []),
        Some(n));
      Next(m', c)
    else Panic("index out of range")
  }

  /** The results that remove a notification or finish an unwatch, shared by
      the two notification pages. `notifications` is the filtered list as it
      was BEFORE the removal; the selection is clamped with its length. */
  function RemovalResults(msg: Msg, m: Model, notifications: seq<Notification>): Option<Outcome> {
    match msg
    case Unsubscribed(n) =>
      Some(Next(m.(page := PageNotifications, notifications := Removed(m.notifications, n.id),
                   selected := Min(m.selected, |notifications| - 1), unsubscribing := false,
                   notificationScrollY := 0), NoCmd))
    case MarkedAsRead(n) =>
      Some(Next(m.(page := PageNotifications, notifications := Removed(m.notifications, n.id),
                   selected := Min(m.selected, |notifications| - 1), markingAsRead := false,
                   notificationScrollY := 0), NoCmd))
    case Unwatched(_, _) =>
      Some(Next(m.(page := PageNotifications, unwatching := false,
                   selected := Min(m.selected, |notifications| - 1), notificationScrollY := 0), NoCmd))
    case _ => None
  }

  /** The keys that quit from any page when nothing else consumed them. */
  function GlobalKeys(msg: Msg): Cmd {
    if msg == KeyboardInput(KeyEscape) || msg == KeyboardInput(KeyRune('q')) then Quit else NoCmd
  }

  /** The page-scoped vocabulary that handles a message on the current page,
      if any. */
  function PageTier(config: Config, w: Widgets, msg: Msg, m: Model, notifications: seq<Notification>): Option<Outcome> {
    match m.page
    case PageComment => CommentPage(w, msg, m)
    case PageLabels => LabelsPage(config, w, msg, m)
    case PagePriorities => PrioritiesPage(w, msg, m)
    case PageNotification => NotificationPage(config, msg, m)
    case PageNotifications => NotificationsPage(w, msg, m, notifications)
  }

  /** The reducer. Routing: terminal size first, then the active page's
      vocabulary, then the removal results on the two notification pages,
      then the global quit keys; anything else leaves the model unchanged
      with no command. */
  function Update(config: Config, w: Widgets, msg: Msg, m: Model): Outcome {
    // every index into the list below refers to the search-filtered list
    var notifications := Filtered(m.notifications, m.searchInput.value);
    if msg.GotDimensions? then Next(m.(width := msg.width, height := msg.height), LoadNotifications)
    else
      match PageTier(config, w, msg, m, notifications)
      case Some(o) => o
      case None =>
        var shared := if m.page == PageNotification || m.page == PageNotifications
                      then RemovalResults(msg, m, notifications) else None;
        match shared
        case Some(o) => o
        case None => Next(m, GlobalKeys(msg))
  }
}
