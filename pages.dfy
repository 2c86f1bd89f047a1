/** The pages of view.go. Each page writes its text line by line into a
    buffer, keeps a sticky header at the top of the viewport and ends with
    the bottom bar; View dispatches on the active page. */
module Pages {
  import opened Entities
  import opened Model
  import opened Util
  import opened Text
  import opened Layout
  import Reducer

  /** The rendering libraries the pages call, which the model treats as
      opaque: the views of the two pickers, the Markdown renderer (whose
      output is already indented by four spaces) and whether the CSS color
      parser accepts a label color. */
  datatype Renderers = Renderers(
    optionsView: OptionsModel -> Buffer,
    optionView: OptionModel -> Buffer,
    markdown: string -> Buffer,
    validColor: string -> bool)

  const ListShortcuts: seq<ShortcutKey> := [
    ShortcutKey("q", "Quit"), ShortcutKey("\U{2192}", "View"), ShortcutKey("\U{2191}\U{2193}", "Scroll"),
    ShortcutKey("r", "Mark read"), ShortcutKey("u", "Unsubscribe"), ShortcutKey("U", "Unwatch"),
    ShortcutKey("R", "Refresh"), ShortcutKey("/", "Search")]
  const SearchShortcuts: seq<ShortcutKey> := [ShortcutKey("Esc", "Abort"), ShortcutKey("Enter", "Save")]
  const DetailShortcuts: seq<ShortcutKey> := [
    ShortcutKey("q", "Quit"), ShortcutKey("\U{2190}", "Back"), ShortcutKey("\U{2191}\U{2193}", "Scroll"),
    ShortcutKey("r", "Mark read"), ShortcutKey("u", "Unsubscribe"), ShortcutKey("c", "Comment"),
    ShortcutKey("l", "Labels"), ShortcutKey("p", "Priority"), ShortcutKey("o", "Open"),
    ShortcutKey("R", "Refresh")]
  const PickerShortcuts: seq<ShortcutKey> :=
    [ShortcutKey("Esc", "Abort"), ShortcutKey("Space", "Toggle"), ShortcutKey("Enter", "Save")]
  const CommentShortcuts: seq<ShortcutKey> := [ShortcutKey("Esc", "Abort"), ShortcutKey("Enter", "Save")]

  /** The message of the empty list, a smiling face at its end. */
  const DoneText: string := "Looks like you're all done \U{1F60A}"

  /** Four lines written one after the other. */
  lemma FourLines(ls: seq<Line>, row: seq<Line>)
    requires |row| == 4
    ensures Terminated(ls + row) == Terminated(ls) + Ln(row[0]) + Ln(row[1]) + Ln(row[2]) + Ln(row[3])
  {
    assert ls + row == ls + [row[0]] + [row[1]] + [row[2]] + [row[3]];
    LnAppend(ls, row[0]);
    LnAppend(ls + [row[0]], row[1]);
    LnAppend(ls + [row[0]] + [row[1]], row[2]);
    LnAppend(ls + [row[0]] + [row[1]] + [row[2]], row[3]);
  }

  /** Three lines written one after the other. */
  lemma ThreeLines(ls: seq<Line>, a: Line, b: Line, c: Line)
    ensures Terminated(ls + [a, b, c]) == Terminated(ls) + Ln(a) + Ln(b) + Ln(c)
  {
    assert ls + [a, b, c] == ls + [a] + [b] + [c];
    LnAppend(ls, a);
    LnAppend(ls + [a], b);
    LnAppend(ls + [a] + [b], c);
  }

  // ---------------------------------------------------------------------
  // The notifications page

  /** The search line above the list: the input widget while it has focus,
      the bare text once it is blurred, nothing when there is no text. */
  function SearchHeader(m: Model): seq<Line> {
    if m.searching then [[Lit("  Searching: "), InputView(m.searchInput)], []]
    else if m.searchInput.value != "" then [[Lit("  Searching: " + m.searchInput.value)], []]
    else []
  }

  /** The first line of item `i`: the selection marker, then the repository. */
  function Title(n: Notification, i: int, m: Model): Line {
    [Lit(if m.selected == i then "  * " else "    "), Bold(n.repository.fullName)]
  }

  /** The status that replaces the subject of the selected item while an
      action on it is in flight. */
  function Status(m: Model, i: int): Option<string> {
    if m.markingAsRead && m.selected == i then Some("    \U{1B}[32mMarking as read.\U{1B}[0m")
    else if m.unsubscribing && m.selected == i then Some("    \U{1B}[32mUnsubscribing.\U{1B}[0m")
    else if m.unwatching && m.selected == i then Some("    \U{1B}[32mUnwatching.\U{1B}[0m")
    else None
  }

  /** The lines of item `i`. */
  function Row(n: Notification, i: int, m: Model): seq<Line> {
    [Title(n, i, m)] +
    match Status(m, i)
    case Some(s) => [[Lit(s)], [], []]
    case None =>
      [[Lit("    "), Lit(n.subject.title)],
       [Lit("    Updated "), Humanized(n.updatedAt), Lit(" (" + n.reason + ")")],
       []]
  }

  /** The lines of the items, in order. */
  function Rows(ns: seq<Notification>, m: Model): seq<Line> {
    if ns == [] then [] else Rows(ns[..|ns| - 1], m) + Row(ns[|ns| - 1], |ns| - 1, m)
  }

  /** The lines written into the buffer: a padding line, the search line,
      the items and a closing empty line. */
  function ListLines(m: Model, filtered: seq<Notification>): seq<Line> {
    [[]] + SearchHeader(m) + Rows(filtered, m) + [[]]
  }

  /** The sticky header of the list: the padding and search lines when the
      search line is shown, nothing otherwise. */
  function ListOffset(m: Model): int {
    if m.searching || m.searchInput.value != "" then 3 else 0
  }

  /** What viewNotifications renders. */
  function ListScreen(m: Model): Frame {
    if m.loading then Loading(m.height, m.width)
    else if |m.notifications| == 0 then Centered(m.height, m.width, DoneText)
    else
      var filtered := Filtered(SortByRecency(m.notifications), m.searchInput.value);
      ScrolledFrame(Terminated(ListLines(m, filtered)), m.notificationsScrollY, m.height, m.width, ListOffset(m),
                    if m.searching then SearchShortcuts else ListShortcuts)
  }

  /** The padding line and the search line, as viewNotifications writes them. */
  method WriteSearchHeader(m: Model) returns (w: Buffer)
    ensures w == Terminated([[]] + SearchHeader(m))
  {
    // the blank first line
    w := Ln([]);
    LnAppend([], []);
    // the header shows while the bar has focus, and while text remains after it loses focus
    if m.searching {
      ThreeLines([], [], [Lit("  Searching: "), InputView(m.searchInput)], []);
      w := w + Ln([Lit("  Searching: "), InputView(m.searchInput)]) + Ln([]);
      assert [] + [[], [Lit("  Searching: "), InputView(m.searchInput)], []] == [[]] + SearchHeader(m);
    }
    if !m.searching && m.searchInput.value != "" {
      ThreeLines([], [], [Lit("  Searching: " + m.searchInput.value)], []);
      w := w + Ln([Lit("  Searching: " + m.searchInput.value)]) + Ln([]);
      assert [] + [[], [Lit("  Searching: " + m.searchInput.value)], []] == [[]] + SearchHeader(m);
    }
  }

  /** One item of the list, as the loop body of viewNotifications writes it;
      an action in flight on it skips the rest of the body. */
  method WriteItem(n: Notification, i: int, m: Model) returns (w: Buffer)
    ensures w == Terminated(Row(n, i, m))
  {
    ItemText(n, i, m);
    // the title line, marked when selected
    if m.selected == i {
      w := Ln([Lit("  * "), Bold(n.repository.fullName)]);
    } else {
      w := Ln([Lit("    "), Bold(n.repository.fullName)]);
    }
    assert w == Ln(Title(n, i, m));
    // an action in flight on the selected item
    var status := Status(m, i);
    if status.Some? {
      w := w + Ln([Lit(status.value)]) + Ln([]) + Ln([]);
      return;
    }
    // subject and updated time
    w := w + Ln([Lit("    "), Lit(n.subject.title)]);
    w := w + Ln([Lit("    Updated "), Humanized(n.updatedAt), Lit(" (" + n.reason + ")")]);
    w := w + Ln([]);
  }

  /** The text of one item. */
  lemma ItemText(n: Notification, i: int, m: Model)
    ensures Terminated(Row(n, i, m)) ==
      match Status(m, i)
      case Some(s) => Ln(Title(n, i, m)) + Ln([Lit(s)]) + Ln([]) + Ln([])
      case None =>
        Ln(Title(n, i, m)) + Ln([Lit("    "), Lit(n.subject.title)])
        + Ln([Lit("    Updated "), Humanized(n.updatedAt), Lit(" (" + n.reason + ")")])
        + Ln([])
  {
    var t := Title(n, i, m);
    match Status(m, i)
    case Some(s) =>
      assert Row(n, i, m) == [t, [Lit(s)], [], []];
      LinesText(t, [Lit(s)], [], []);
    case None =>
      var a: Line := [Lit("    "), Lit(n.subject.title)];
      var b: Line := [Lit("    Updated "), Humanized(n.updatedAt), Lit(" (" + n.reason + ")")];
      assert Row(n, i, m) == [t, a, b, []];
      LinesText(t, a, b, []);
  }

  /** The text of four lines. */
  lemma LinesText(a: Line, b: Line, c: Line, d: Line)
    ensures Terminated([a, b, c, d]) == Ln(a) + Ln(b) + Ln(c) + Ln(d)
  {
    assert [] + [a] == [a] && [a] + [b] == [a, b] && [a, b] + [c] == [a, b, c] && [a, b, c] + [d] == [a, b, c, d];
    LnAppend([], a);
    LnAppend([a], b);
    LnAppend([a, b], c);
    LnAppend([a, b, c], d);
  }

  /** The loop of viewNotifications over the filtered list, after the search
      line, and the closing empty line. */
  method WriteList(m: Model, filtered: seq<Notification>) returns (w: Buffer)
    ensures w == Terminated(ListLines(m, filtered))
  {
    w := WriteSearchHeader(m);
    ghost var head := [[]] + SearchHeader(m);
    assert head + Rows(filtered[..0], m) == head;
    for i := 0 to |filtered|
      invariant w == Terminated(head + Rows(filtered[..i], m))
    {
      RowsStep(head, filtered, i, m);
      var item := WriteItem(filtered[i], i, m);
      w := w + item;
    }
    assert filtered[..|filtered|] == filtered;
    LnAppend(head + Rows(filtered, m), []);
    w := w + Ln([]);
  }

  /** The text after one more item. */
  lemma RowsStep(head: seq<Line>, filtered: seq<Notification>, i: int, m: Model)
    requires 0 <= i < |filtered|
    ensures Terminated(head + Rows(filtered[..i + 1], m))
      == Terminated(head + Rows(filtered[..i], m)) + Terminated(Row(filtered[i], i, m))
  {
    assert filtered[..i + 1][..i] == filtered[..i];
    assert head + Rows(filtered[..i + 1], m) == (head + Rows(filtered[..i], m)) + Row(filtered[i], i, m);
    TerminatedConcat(head + Rows(filtered[..i], m), Row(filtered[i], i, m));
  }

  /** viewNotifications. `list` is the notification list as the model holds it
      after the call: sort.Slice sorts the slice the model shares. */
  method ViewNotifications(m: Model) returns (f: Frame, list: seq<Notification>)
    ensures f == ListScreen(m)
    ensures list == if m.loading || m.notifications == [] then m.notifications else SortByRecency(m.notifications)
  {
    list := m.notifications;
    if m.loading {
      return Loading(m.height, m.width), list;
    }
    if |m.notifications| == 0 {
      return Centered(m.height, m.width, DoneText), list;
    }
    // sort, filter, and write the list
    list := SortByRecency(m.notifications);
    var filtered := Util.FilterNotifications(list, m.searchInput.value);
    var w := WriteList(m, filtered);
    var offset := 0;
    if m.searching || m.searchInput.value != "" {
      offset := 3;
    }
    // viewport and menu
    if m.searching {
      f := ViewportThenMenu(w, m.notificationsScrollY, m.height, m.width, offset, SearchShortcuts);
    } else {
      f := ViewportThenMenu(w, m.notificationsScrollY, m.height, m.width, offset, ListShortcuts);
    }
  }

  /** Every item takes the rows the reducer's scrolling assumes. */
  lemma RowHeight(n: Notification, i: int, m: Model)
    ensures |Row(n, i, m)| == Reducer.ListItemHeight
  {
  }

  lemma {:induction false} RowsLength(ns: seq<Notification>, m: Model)
    ensures |Rows(ns, m)| == Reducer.ListItemHeight * |ns|
  {
    if ns != [] {
      RowsLength(ns[..|ns| - 1], m);
    }
  }

  /** A line that starts with the selection marker. */
  predicate Marked(l: Line) {
    |l| > 0 && l[0] == Lit("  * ")
  }

  /** Only the title line of an item can carry the marker, and it carries it
      when the item is the selected one. */
  lemma RowMarked(n: Notification, i: int, m: Model)
    ensures var row := Row(n, i, m);
      (Marked(row[0]) <==> m.selected == i) && !Marked(row[1]) && !Marked(row[2]) && !Marked(row[3])
  {
    assert "    "[2] != "  * "[2];
  }

  /** Among the item lines, exactly the title line of the selected item
      carries the marker. */
  lemma {:induction false} RowsMarker(ns: seq<Notification>, m: Model)
    ensures forall k :: 0 <= k < |Rows(ns, m)| ==>
      (Marked(Rows(ns, m)[k]) <==> 0 <= m.selected < |ns| && k == Reducer.ListItemHeight * m.selected)
  {
    if ns != [] {
      var init := ns[..|ns| - 1];
      RowsMarker(init, m);
      RowsLength(init, m);
      var row := Row(ns[|ns| - 1], |init|, m);
      RowMarked(ns[|ns| - 1], |init|, m);
      var rs := Rows(ns, m);
      assert rs == Rows(init, m) + row;
      forall k | 0 <= k < |rs|
        ensures Marked(rs[k]) <==> 0 <= m.selected < |ns| && k == Reducer.ListItemHeight * m.selected
      {
        if k < |Rows(init, m)| {
          assert rs[k] == Rows(init, m)[k];
        } else {
          var j := k - |Rows(init, m)|;
          assert rs[k] == row[j];
        }
      }
    }
  }

  /** In the list's text, the marker is on exactly one line: the title of the
      item whose index in the filtered list is the selection. */
  lemma ListMarker(m: Model, filtered: seq<Notification>)
    ensures var ls := ListLines(m, filtered);
      forall k :: 0 <= k < |ls| ==>
        (Marked(ls[k]) <==>
           0 <= m.selected < |filtered| && k == 1 + |SearchHeader(m)| + Reducer.ListItemHeight * m.selected)
  {
    var ls := ListLines(m, filtered);
    var rs := Rows(filtered, m);
    var top := [[]] + SearchHeader(m);
    RowsMarker(filtered, m);
    assert ls == top + rs + [[]];
    forall k | 0 <= k < |ls|
      ensures Marked(ls[k]) <==>
        0 <= m.selected < |filtered| && k == 1 + |SearchHeader(m)| + Reducer.ListItemHeight * m.selected
    {
      if k < |top| {
        assert ls[k] == top[k];
        assert k == 0 || SearchHeader(m)[k - 1] == top[k];
        assert !Marked(top[k]);
        assert |top| == 1 + |SearchHeader(m)|;
      } else if k < |top| + |rs| {
        assert ls[k] == rs[k - |top|];
        assert Marked(rs[k - |top|]) <==> 0 <= m.selected < |filtered| && k - |top| == Reducer.ListItemHeight * m.selected;
      } else {
        assert ls[k] == [];
        RowsLength(filtered, m);
        assert !(0 <= m.selected < |filtered| && k == 1 + |SearchHeader(m)| + Reducer.ListItemHeight * m.selected);
      }
    }
  }

  /** The list's text has the height scrollNotifications computes, counted in
      line breaks, for a list with the search line shown or not. */
  lemma ListDocumentHeight(m: Model, filtered: seq<Notification>)
    ensures var ls := Split(Terminated(ListLines(m, filtered)));
      ls == ListLines(m, filtered) + [[]]
      && |ls| - 1 == Reducer.ListHeight(|filtered|, m.searching || m.searchInput.value != "")
  {
    SplitTerminated(ListLines(m, filtered), []);
    assert Terminated(ListLines(m, filtered)) + [] == Terminated(ListLines(m, filtered));
    RowsLength(filtered, m);
  }

  /** The sticky header of the list is the padding line and the search line
      when the search line is shown, and empty otherwise. */
  lemma ListStickyHeader(m: Model, filtered: seq<Notification>)
    ensures ListOffset(m) == 0 <==> SearchHeader(m) == []
    ensures ListOffset(m) != 0 ==>
      ListOffset(m) <= |Split(Terminated(ListLines(m, filtered)))|
      && Split(Terminated(ListLines(m, filtered)))[..ListOffset(m)] == [[]] + SearchHeader(m)
  {
    ListDocumentHeight(m, filtered);
    var ls := ListLines(m, filtered);
    assert ls == [[]] + SearchHeader(m) + (Rows(filtered, m) + [[]]);
  }

  // ---------------------------------------------------------------------
  // The notification page

  /** The padding line and the three header lines. */
  function DetailHead(n: Notification, issue: Option<Issue>): seq<Line> {
    [[],
     [Lit("    "), Bold(n.repository.fullName)],
     [Lit("    "), Lit(n.subject.title)],
     match issue
     case None => []
     case Some(i) => [Lit("    Opened "), Humanized(i.createdAt), Lit(" by @" + i.user.login)]]
  }

  /** The in-flight work the page shows instead of the issue, in the order the
      source tests it. */
  function Pending(m: Model): Option<string> {
    if m.loadingIssue then Some("    Loading")
    else if m.markingAsRead then Some("    Marking as read")
    else if m.unsubscribing then Some("    Unsubscribing")
    else if m.unwatching then Some("    Unwatching")
    else None
  }

  /** The chips of the labels whose color parses, each followed by a space. */
  function Chips(r: Renderers, labels: seq<Label>): Line {
    if labels == [] then []
    else
      var l := labels[|labels| - 1];
      Chips(r, labels[..|labels| - 1]) + (if r.validColor(l.color) then [LabelChip(l.name, l.color), Lit(" ")] else [])
  }

  /** All the lines above the description: the head, the labels line when
      there are labels, and the rule between empty lines. */
  function DetailHeader(r: Renderers, m: Model, n: Notification): seq<Line> {
    DetailHead(n, m.issue) + (if |m.labels| > 0 then [[Lit("    ")] + Chips(r, m.labels)] else []) + [[], [Rule], []]
  }

  /** The issue body; a missing issue has an empty body. */
  function Description(r: Renderers, issue: Option<Issue>): Buffer {
    var body := match issue case None => "" case Some(i) => i.body;
    if body == "" then Ln([Lit("    No description provided.")]) else r.markdown(body)
  }

  /** One comment, with the rule that separates it from the next one. */
  function CommentBlock(r: Renderers, c: Comment, ruled: bool): Buffer {
    [NL] + Ln([Lit("    "), Bold("@" + c.user.login), Lit(" "), Humanized(c.createdAt)]) + [NL]
      + r.markdown(c.body) + (if ruled then Ln([Rule]) else [])
  }

  /** The comments; the one at index `total - 1` is the last and has no rule. */
  function CommentBlocks(r: Renderers, cs: seq<Comment>, total: int): Buffer {
    if cs == [] then []
    else CommentBlocks(r, cs[..|cs| - 1], total) + CommentBlock(r, cs[|cs| - 1], |cs| - 1 < total - 1)
  }

  /** The text written for a notification with nothing in flight. */
  function DetailBuffer(r: Renderers, m: Model, n: Notification): Buffer {
    Terminated(DetailHeader(r, m, n)) + DetailRest(r, m)
  }

  /** The text below the header: the description, a rule and the comments. */
  function DetailRest(r: Renderers, m: Model): Buffer {
    Description(r, m.issue) + [NL] + Ln([Rule]) + CommentBlocks(r, m.comments, |m.comments|) + [NL]
  }

  /** The sticky header of the notification page. */
  function DetailOffset(m: Model): int {
    if |m.labels| > 0 then 8 else 7
  }

  /** What viewNotification renders. Without a notification the first field
      access dereferences nil. While work is in flight the text is returned
      as written, without viewport or bottom bar. */
  function DetailScreen(r: Renderers, m: Model): Frame {
    match m.notification
    case None => Panicked("nil pointer dereference")
    case Some(n) =>
      match Pending(m)
      case Some(text) => Rendered(Terminated(DetailHead(n, m.issue) + [[], [Rule], [], [Lit(text)]]))
      case None =>
        ScrolledFrame(DetailBuffer(r, m, n), m.notificationScrollY, m.height, m.width, DetailOffset(m), DetailShortcuts)
  }

  /** The labels line of viewNotification: the chips of the labels whose
      color parses; a label whose color does not parse is skipped. */
  method WriteLabels(r: Renderers, labels: seq<Label>) returns (w: Buffer)
    ensures w == Ln([Lit("    ")] + Chips(r, labels))
  {
    w := [Chunk(Lit("    "))];
    for i := 0 to |labels|
      invariant w == [Chunk(Lit("    "))] + Chunks(Chips(r, labels[..i]))
    {
      ChipsStep(r, labels, i);
      var l := labels[i];
      if !r.validColor(l.color) {
        continue;
      }
      w := w + [Chunk(LabelChip(l.name, l.color)), Chunk(Lit(" "))];
    }
    w := w + [NL];
    assert labels[..|labels|] == labels;
    ChunksConcat([Lit("    ")], Chips(r, labels));
  }

  /** The chips after one more label. */
  lemma ChipsStep(r: Renderers, labels: seq<Label>, i: int)
    requires 0 <= i < |labels|
    ensures var l := labels[i];
      Chunks(Chips(r, labels[..i + 1])) == Chunks(Chips(r, labels[..i]))
        + (if r.validColor(l.color) then [Chunk(LabelChip(l.name, l.color)), Chunk(Lit(" "))] else [])
  {
    var l := labels[i];
    assert labels[..i + 1][..i] == labels[..i];
    var tail: Line := if r.validColor(l.color) then [LabelChip(l.name, l.color), Lit(" ")] else [];
    assert Chips(r, labels[..i + 1]) == Chips(r, labels[..i]) + tail;
    ChunksConcat(Chips(r, labels[..i]), tail);
  }

  /** The comments of viewNotification, a rule after each but the last. */
  method WriteComments(r: Renderers, comments: seq<Comment>) returns (w: Buffer)
    ensures w == CommentBlocks(r, comments, |comments|)
  {
    w := [];
    for i := 0 to |comments|
      invariant w == CommentBlocks(r, comments[..i], |comments|)
    {
      assert comments[..i + 1][..i] == comments[..i];
      var c := comments[i];
      var block := [NL];
      block := block + Ln([Lit("    "), Bold("@" + c.user.login), Lit(" "), Humanized(c.createdAt)]) + [NL];
      block := block + r.markdown(c.body);
      if i < |comments| - 1 {
        block := block + Ln([Rule]);
      }
      assert block == CommentBlock(r, c, i < |comments| - 1);
      w := w + block;
    }
    assert comments[..|comments|] == comments;
  }

  /** The padding line and the header of viewNotification. */
  method WriteDetailHead(n: Notification, issue: Option<Issue>) returns (w: Buffer)
    ensures w == Terminated(DetailHead(n, issue))
  {
    FourLines([], DetailHead(n, issue));
    assert [] + DetailHead(n, issue) == DetailHead(n, issue);
    w := Ln([]);
    w := w + Ln([Lit("    "), Bold(n.repository.fullName)]);
    w := w + Ln([Lit("    "), Lit(n.subject.title)]);
    if issue.None? {
      w := w + Ln([]);
    } else {
      w := w + Ln([Lit("    Opened "), Humanized(issue.value.createdAt), Lit(" by @" + issue.value.user.login)]);
    }
  }

  /** The part of viewNotification after the header, when nothing is in
      flight: the labels line, the description and the comments. */
  method WriteDetailBody(r: Renderers, m: Model, n: Notification) returns (w: Buffer)
    ensures w == DetailBuffer(r, m, n)
  {
    w := WriteDetailHead(n, m.issue);
    ghost var head := DetailHead(n, m.issue);
    // the label chips
    ghost var labelLines: seq<Line> := [];
    if |m.labels| > 0 {
      var chips := WriteLabels(r, m.labels);
      LnAppend(head, [Lit("    ")] + Chips(r, m.labels));
      w := w + chips;
      labelLines := [[Lit("    ")] + Chips(r, m.labels)];
    } else {
      assert head + labelLines == head;
    }
    assert head + labelLines == head + (if |m.labels| > 0 then [[Lit("    ")] + Chips(r, m.labels)] else []);
    assert w == Terminated(head + labelLines);
    // the Markdown description
    ThreeLines(head + labelLines, [], [Rule], []);
    w := w + Ln([]) + Ln([Rule]) + Ln([]);
    assert w == Terminated(DetailHeader(r, m, n));
    var rest: Buffer;
    var body := if m.issue.None? then "" else m.issue.value.body;
    if body == "" {
      rest := Ln([Lit("    No description provided.")]);
    } else {
      rest := r.markdown(body);
    }
    // one block per comment
    rest := rest + [NL];
    rest := rest + Ln([Rule]);
    var cs := WriteComments(r, m.comments);
    rest := rest + cs;
    rest := rest + [NL];
    w := w + rest;
  }

  /** viewNotification. */
  method ViewNotification(r: Renderers, m: Model) returns (f: Frame)
    ensures f == DetailScreen(r, m)
  {
    if m.notification.None? {
      return Panicked("nil pointer dereference");
    }
    var n := m.notification.value;
    var pending := Pending(m);
    if pending.Some? {
      var w := WriteDetailHead(n, m.issue);
      FourLines(DetailHead(n, m.issue), [[], [Rule], [], [Lit(pending.value)]]);
      w := w + Ln([]) + Ln([Rule]) + Ln([]) + Ln([Lit(pending.value)]);
      return Rendered(w);
    }
    var w := WriteDetailBody(r, m, n);
    var offset := 7;
    if |m.labels| > 0 {
      offset := 8;
    }
    // viewport and menu
    f := ViewportThenMenu(w, m.notificationScrollY, m.height, m.width, offset, DetailShortcuts);
  }

  /** The sticky header of the notification page is exactly the lines above
      the description: 7 of them, 8 with the labels line. */
  lemma DetailStickyHeader(r: Renderers, m: Model, n: Notification)
    ensures DetailOffset(m) == |DetailHeader(r, m, n)|
    ensures var ls := Split(DetailBuffer(r, m, n));
      DetailOffset(m) <= |ls| && ls[..DetailOffset(m)] == DetailHeader(r, m, n)
  {
    var h := DetailHeader(r, m, n);
    SplitTerminated(h, DetailRest(r, m));
  }

  /** While work is in flight the page shows the header, a rule and what is
      in flight, and no bottom bar. */
  lemma DetailPendingShows(r: Renderers, m: Model)
    requires m.notification.Some? && Pending(m).Some?
    ensures DetailScreen(r, m).Rendered?
    ensures var ls := Split(DetailScreen(r, m).text);
      ls == DetailHead(m.notification.value, m.issue) + [[], [Rule], [], [Lit(Pending(m).value)], []]
  {
    var ls := DetailHead(m.notification.value, m.issue) + [[], [Rule], [], [Lit(Pending(m).value)]];
    SplitTerminated(ls, []);
    assert Terminated(ls) + [] == Terminated(ls);
  }

  // ---------------------------------------------------------------------
  // The picker and comment pages

  /** A prompt between empty lines. */
  function Prompt(text: string): seq<Line> {
    [[], [Lit(text)], []]
  }

  /** What viewLabels renders. */
  function LabelsScreen(r: Renderers, m: Model): Frame {
    if m.loading || m.loadingLabels then Loading(m.height, m.width)
    else
      MenuFrame(Split(Terminated(Prompt("  Press space to select labels:")) + r.optionsView(m.labelOptions)),
                m.height, m.width, PickerShortcuts)
  }

  /** What viewPriorities renders. */
  function PrioritiesScreen(r: Renderers, m: Model): Frame {
    MenuFrame(Split(Terminated(Prompt("  Select a priority:")) + r.optionView(m.priorityOptions)),
              m.height, m.width, PickerShortcuts)
  }

  /** What viewComment renders: the input is written without a line break. */
  function CommentScreen(m: Model): Frame {
    MenuFrame(Split(Terminated(Prompt("  Press enter to save your comment:")) + Chunks([Lit("  "), InputView(m.commentInput)])),
              m.height, m.width, CommentShortcuts)
  }

  /** Writing a prompt. */
  lemma PromptWritten(text: string)
    ensures Terminated(Prompt(text)) == Ln([]) + Ln([Lit(text)]) + Ln([])
  {
    ThreeLines([], [], [Lit(text)], []);
    assert [] + [[], [Lit(text)], []] == Prompt(text);
  }

  /** viewLabels. */
  method ViewLabels(r: Renderers, m: Model) returns (f: Frame)
    ensures f == LabelsScreen(r, m)
  {
    if m.loading || m.loadingLabels {
      return Loading(m.height, m.width);
    }
    var w: Buffer := Ln([]);
    w := w + Ln([Lit("  Press space to select labels:")]) + Ln([]);
    w := w + r.optionsView(m.labelOptions);
    PromptWritten("  Press space to select labels:");
    f := Menu(w, m.height, m.width, PickerShortcuts);
  }

  /** viewPriorities. */
  method ViewPriorities(r: Renderers, m: Model) returns (f: Frame)
    ensures f == PrioritiesScreen(r, m)
  {
    var w: Buffer := Ln([]);
    w := w + Ln([Lit("  Select a priority:")]) + Ln([]);
    w := w + r.optionView(m.priorityOptions);
    PromptWritten("  Select a priority:");
    f := Menu(w, m.height, m.width, PickerShortcuts);
  }

  /** viewComment. */
  method ViewComment(m: Model) returns (f: Frame)
    ensures f == CommentScreen(m)
  {
    var w: Buffer := Ln([]);
    w := w + Ln([Lit("  Press enter to save your comment:")]) + Ln([]);
    w := w + [Chunk(Lit("  ")), Chunk(InputView(m.commentInput))];
    PromptWritten("  Press enter to save your comment:");
    assert Chunks([Lit("  "), InputView(m.commentInput)]) == [Chunk(Lit("  ")), Chunk(InputView(m.commentInput))];
    f := Menu(w, m.height, m.width, CommentShortcuts);
  }

  /** On a screen at least five rows tall, a prompt page shows its prompt on
      top and the shortcut bar on the last row. */
  lemma PromptPageShows(text: string, widget: Buffer, height: int, width: int, keys: seq<ShortcutKey>)
    requires height >= 5 && width >= 0
    ensures var f := MenuFrame(Split(Terminated(Prompt(text)) + widget), height, width, keys);
      f.Rendered? && var ls := Split(f.text);
      |ls| >= height && ls[..3] == Prompt(text) && ls[|ls| - 1] == [Shortcuts(keys)]
  {
    var lines := Split(Terminated(Prompt(text)) + widget);
    SplitTerminated(Prompt(text), widget);
    var ml := MenuLines(lines, height, width, keys);
    SplitJoin(ml);
    assert ml[..3] == Prompt(text) by {
      forall k | 0 <= k < 3 ensures ml[k] == Prompt(text)[k] {
        assert lines[k] == Prompt(text)[k];
      }
    }
  }

  // ---------------------------------------------------------------------
  // Dispatch

  /** What View renders on each page. Page is a closed type, so the source's
      unhandled-page panic cannot happen. */
  function Screen(r: Renderers, m: Model): Frame {
    match m.page
    case PageNotifications => ListScreen(m)
    case PageNotification => DetailScreen(r, m)
    case PageComment => CommentScreen(m)
    case PageLabels => LabelsScreen(r, m)
    case PagePriorities => PrioritiesScreen(r, m)
  }

  /** The notification list after View: sorted by recency when the list page
      got past its loading and empty checks. */
  function ListAfterView(m: Model): seq<Notification> {
    if m.page == PageNotifications && !m.loading && m.notifications != [] then SortByRecency(m.notifications)
    else m.notifications
  }

  /** View: dispatches on the page. */
  method View(r: Renderers, m: Model) returns (f: Frame, notifications: seq<Notification>)
    ensures f == Screen(r, m) && notifications == ListAfterView(m)
  {
    notifications := m.notifications;
    match m.page
    case PageNotifications => f, notifications := ViewNotifications(m);
    case PageNotification => f := ViewNotification(r, m);
    case PageComment => f := ViewComment(m);
    case PageLabels => f := ViewLabels(r, m);
    case PagePriorities => f := ViewPriorities(r, m);
  }

  /** View only reorders the list: most recent first, nothing added or lost. */
  lemma ViewReordersList(m: Model)
    ensures multiset(ListAfterView(m)) == multiset(m.notifications)
    ensures m.page == PageNotifications && !m.loading ==> RecentFirst(ListAfterView(m))
  {
  }

  // ---------------------------------------------------------------------
  // Where rendering panics

  lemma DoneTextWidth()
    ensures Utf8Len(DoneText) == 31
  {
    var ascii := "Looks like you're all done ";
    assert DoneText == ascii + ['\U{1F60A}'];
    Utf8LenAscii(ascii);
    Utf8LenSnoc(ascii, '\U{1F60A}');
  }

  lemma LoadingWidth()
    ensures Utf8Len("Loading") == 7
  {
    Utf8LenAscii("Loading");
  }

  /** Every page renders without a panic on a terminal at least 8 rows tall
      and 30 columns wide, as long as the notification page has its
      notification. */
  lemma ViewRendersOnUsableTerminal(r: Renderers, m: Model)
    requires m.height >= 8 && m.width >= 30
    requires m.page == PageNotification ==> m.notification.Some?
    ensures Screen(r, m).Rendered?
  {
    DoneTextWidth();
    LoadingWidth();
    match m.page
    case PageNotifications =>
      if !m.loading && |m.notifications| > 0 {
        var filtered := Filtered(SortByRecency(m.notifications), m.searchInput.value);
        var buf := Terminated(ListLines(m, filtered));
        ListDocumentHeight(m, filtered);
        ViewportTotal(|Split(buf)|, m.notificationsScrollY, m.height, ListOffset(m));
      }
    case PageNotification =>
      var n := m.notification.value;
      if Pending(m).None? {
        DetailStickyHeader(r, m, n);
        ViewportTotal(|Split(DetailBuffer(r, m, n))|, m.notificationScrollY, m.height, DetailOffset(m));
      }
    case _ =>
  }

  /** On a one-row terminal the list panics in the bottom bar: the window
      keeps one line and the bar needs two. */
  lemma ListPanicsOnOneRowTerminal(r: Renderers, m: Model)
    requires m.page == PageNotifications && !m.loading && m.notifications != []
    requires !m.searching && m.searchInput.value == ""
    requires m.height == 1 && m.width >= 0 && m.notificationsScrollY == 0
    ensures Screen(r, m) == Panicked("index out of range")
  {
    var filtered := Filtered(SortByRecency(m.notifications), "");
    var buf := Terminated(ListLines(m, filtered));
    ListDocumentHeight(m, filtered);
    var v := ViewportLines(Split(buf), 0, 1, 0);
    assert |v| == 1;
    SplitJoin(v);
  }
}
