/** Properties of the reducer and of its list helpers. */
module UpdateLemmas {
  import opened Entities
  import opened Messages
  import opened Model
  import opened Util
  import opened Seqs
  import opened Reducer

  // ---------------------------------------------------------------------
  // List helpers

  /** removeNotification drops exactly one occurrence, the last one with the
      id, and keeps the others with their multiplicities. */
  lemma RemovedDropsOne(ns: seq<Notification>, id: string)
    requires exists k :: 0 <= k < |ns| && ns[k].id == id
    ensures var i := LastIndexOf(ns, id);
      0 <= i < |ns| && ns[i].id == id && multiset(Removed(ns, id)) + multiset{ns[i]} == multiset(ns)
  {
    var i := LastIndexOf(ns, id);
    assert 0 <= i by {
      var k :| 0 <= k < |ns| && ns[k].id == id;
    }
    MultisetWithout(ns, i);
  }

  /** Dropping the element at `i` drops exactly that element from the multiset. */
  lemma MultisetWithout<T>(s: seq<T>, i: int)
    requires 0 <= i < |s|
    ensures multiset(s[..i] + s[i + 1..]) + multiset{s[i]} == multiset(s)
  {
    assert s == s[..i] + [s[i]] + s[i + 1..];
  }

  /** An id that is not in the list leaves the list as it is. */
  lemma RemovedAbsent(ns: seq<Notification>, id: string)
    requires forall k :: 0 <= k < |ns| ==> ns[k].id != id
    ensures Removed(ns, id) == ns
  {
  }

  /** removeNotification keeps the relative order of what it keeps. */
  lemma RemovedIsSubsequence(ns: seq<Notification>, id: string) returns (idx: seq<int>)
    ensures Embedding(Removed(ns, id), ns, idx)
  {
    var i := LastIndexOf(ns, id);
    if i == -1 {
      idx := seq(|ns|, k => k);
    } else {
      idx := seq(|ns| - 1, k => if k < i then k else k + 1);
    }
  }

  /** Notification ids are unique in the list. */
  predicate UniqueIds(ns: seq<Notification>) {
    forall j, k :: 0 <= j < k < |ns| ==> ns[j].id != ns[k].id
  }

  /** With unique ids a duplicate completion is harmless: removing an id that
      was already removed changes nothing. */
  lemma RemovedTwice(ns: seq<Notification>, id: string)
    requires UniqueIds(ns)
    ensures Removed(Removed(ns, id), id) == Removed(ns, id)
  {
    var i := LastIndexOf(ns, id);
    if i != -1 {
      var r := Removed(ns, id);
      forall k | 0 <= k < |r| ensures r[k].id != id {
        if k < i { assert r[k] == ns[k]; } else { assert r[k] == ns[k + 1]; }
      }
    }
  }

  /** filterPriorityLabels keeps exactly the labels whose name no priority uses. */
  lemma {:induction false} NonPriorityLabelsMembers(labels: seq<Label>, priorities: seq<Priority>)
    ensures forall l :: l in NonPriorityLabels(labels, priorities) <==> l in labels && !IsPriorityLabel(l, priorities)
  {
    if labels != [] {
      var init := labels[..|labels| - 1];
      NonPriorityLabelsMembers(init, priorities);
      assert labels == init + [labels[|labels| - 1]];
    }
  }

  /** filterPriorityLabels keeps the order of the labels it keeps. */
  lemma {:induction false} NonPriorityLabelsIsSubsequence(labels: seq<Label>, priorities: seq<Priority>)
    returns (idx: seq<int>)
    ensures Embedding(NonPriorityLabels(labels, priorities), labels, idx)
  {
    if labels == [] {
      idx := [];
    } else {
      var init := labels[..|labels| - 1];
      var last := labels[|labels| - 1];
      var idx0 := NonPriorityLabelsIsSubsequence(init, priorities);
      EmbeddingSnoc(NonPriorityLabels(init, priorities), init, idx0, last, !IsPriorityLabel(last, priorities));
      assert init + [last] == labels;
      idx := idx0 + (if IsPriorityLabel(last, priorities) then [] else [|init|]);
    }
  }

  /** labelsSelected yields strictly increasing indices of repository labels,
      and an index is present exactly when the issue has a label with that
      label's id. */
  lemma {:induction false} SelectedIndexesMeaning(labels: seq<Label>, selected: seq<Label>)
    ensures var r := SelectedIndexes(labels, selected);
      && StrictlyIncreasing(r)
      && (forall k :: 0 <= k < |r| ==> 0 <= r[k] < |labels|)
      && (forall i :: 0 <= i < |labels| ==> (i in r <==> HasLabelId(selected, labels[i].id)))
  {
    if labels != [] {
      var n := |labels| - 1;
      var init := labels[..n];
      SelectedIndexesMeaning(init, selected);
      var r0 := SelectedIndexes(init, selected);
      var tail: seq<int> := if HasLabelId(selected, labels[n].id) then [n] else [];
      var r := SelectedIndexes(labels, selected);
      assert r == r0 + tail;
      assert n !in r0;
      forall i | 0 <= i < |labels|
        ensures i in r <==> HasLabelId(selected, labels[i].id)
      {
        if i < n {
          assert labels[i] == init[i];
          assert i in r <==> i in r0;
        }
      }
    }
  }

  /** getNotificationsByRepo keeps the notifications of that repository in
      their list order, so the 'U' batch marks them in that order. */
  lemma {:induction false} InRepoIsSubsequence(ns: seq<Notification>, owner: string, repo: string)
    returns (idx: seq<int>)
    ensures Embedding(InRepo(ns, owner, repo), ns, idx)
  {
    if ns == [] {
      idx := [];
    } else {
      var init := ns[..|ns| - 1];
      var last := ns[|ns| - 1];
      var keep := OwnerRepo(last) == (owner, repo);
      var idx0 := InRepoIsSubsequence(init, owner, repo);
      EmbeddingSnoc(InRepo(init, owner, repo), init, idx0, last, keep);
      assert init + [last] == ns;
      idx := idx0 + (if keep then [|init|] else []);
    }
  }

  /** getNotificationsByRepo keeps exactly the notifications of that repository. */
  lemma {:induction false} InRepoMembers(ns: seq<Notification>, owner: string, repo: string)
    ensures forall n :: n in InRepo(ns, owner, repo) <==> n in ns && OwnerRepo(n) == (owner, repo)
  {
    if ns != [] {
      var init := ns[..|ns| - 1];
      InRepoMembers(init, owner, repo);
      assert ns == init + [ns[|ns| - 1]];
    }
  }

  // ---------------------------------------------------------------------
  // scrollNotifications

  /** The scroll offset lies between min(0, listHeight - height) and
      listHeight - height, give or take the row that integer halving loses
      on an odd height; 0 is also returned for lists shorter than the screen. */
  lemma ScrollBounds(m: Model, notifications: seq<Notification>, direction: int)
    requires m.height >= 0 && (direction == 1 || direction == -1)
    ensures var r := ScrollNotifications(m, notifications, direction);
      var lh := ListHeight(|notifications|, m.searching);
      Min(0, lh - m.height) <= r <= Max(0, lh - m.height + m.height % 2)
  {
  }

  /** On a screen of at least 8 rows the selected item's four rows lie inside
      the window [offset, offset + height) of the list. */
  lemma ScrollKeepsSelectionVisible(m: Model, notifications: seq<Notification>, direction: int)
    requires m.height >= 8 && (direction == 1 || direction == -1)
    requires 0 <= m.selected < |notifications|
    ensures var r := ScrollNotifications(m, notifications, direction);
      r <= m.selected * ListItemHeight && m.selected * ListItemHeight + ListItemHeight <= r + m.height
  {
  }

  /** The offset can be negative: a list that fits on the screen, with the
      selection past the first half of the screen. */
  lemma ScrollCanBeNegative()
    ensures var ns := seq(6, k => ExampleNotification("x"));
      ScrollNotifications(ZeroModel.(selected := 5, height := 40), ns, -1) == -14
  {
  }

  const ExampleRepo := Repository(User("tj"), "triage", "tj/triage")

  function ExampleNotification(id: string): Notification {
    Notification(id, ExampleRepo, Subject("Issue title", "https://api.github.com/repos/tj/triage/issues/1", "Issue"), "mention", 1)
  }

  // ---------------------------------------------------------------------
  // The reducer

  /** Unfolds Update into its tiers, one after another, for the proofs below. */
  lemma Routing(config: Config, w: Widgets, msg: Msg, m: Model)
    requires !msg.GotDimensions?
    ensures var f := Filtered(m.notifications, m.searchInput.value);
      var t := PageTier(config, w, msg, m, f);
      var s := RemovalResults(msg, m, f);
      Update(config, w, msg, m)
        == if t.Some? then t.value
           else if (m.page == PageNotification || m.page == PageNotifications) && s.Some? then s.value
           else Next(m, GlobalKeys(msg))
  {
  }

  /** A terminal size message, on any page, sets the size, reloads the
      notifications and changes nothing else. */
  lemma GotDimensionsOnAnyPage(config: Config, w: Widgets, width: int, height: int, m: Model)
    ensures Update(config, w, GotDimensions(width, height), m)
         == Next(m.(width := width, height := height), Cmd.LoadNotifications)
  {
  }

  /** On the notifications page, outside the search bar, any key quits with
      the model unchanged when the filtered list is empty. */
  lemma EmptyListKeyQuits(config: Config, w: Widgets, k: Key, m: Model)
    requires m.page == PageNotifications && !m.searching
    requires Filtered(m.notifications, m.searchInput.value) == []
    ensures Update(config, w, KeyboardInput(k), m) == Next(m, Quit)
  {
  }

  /** Up and Down move the selection by at most one, in their direction, and
      keep it inside the filtered list. */
  lemma ArrowsKeepSelectionInRange(config: Config, w: Widgets, k: Key, m: Model)
    requires m.page == PageNotifications && !m.searching
    requires k == KeyUp || k == KeyDown
    requires 0 <= m.selected < |Filtered(m.notifications, m.searchInput.value)|
    ensures var o := Update(config, w, KeyboardInput(k), m);
      && o.Next? && o.cmd == NoCmd
      && o.model.notifications == m.notifications && o.model.searchInput == m.searchInput
      && 0 <= o.model.selected < |Filtered(m.notifications, m.searchInput.value)|
      && (k == KeyUp ==> m.selected - 1 <= o.model.selected <= m.selected)
      && (k == KeyDown ==> m.selected <= o.model.selected <= m.selected + 1)
  {
    var f := Filtered(m.notifications, m.searchInput.value);
    Routing(config, w, KeyboardInput(k), m);
    if k == KeyUp { UpOnList(m, f); } else { DownOnList(m, f); }
  }

  lemma UpOnList(m: Model, f: seq<Notification>)
    requires 0 <= m.selected < |f|
    ensures var m' := SelectUp(m, f);
      && m'.notifications == m.notifications && m'.searchInput == m.searchInput
      && m.selected - 1 <= m'.selected <= m.selected && 0 <= m'.selected
  {
    SelectUpFrame(m, f);
    var m1 := if m.selected > 0 then m.(selected := m.selected - 1)
              else if m.searchInput.value != "" then m.(searching := true)
              else m;
    assert SelectUp(m, f).selected == m1.selected;
  }

  lemma DownOnList(m: Model, f: seq<Notification>)
    requires 0 <= m.selected < |f|
    ensures var m' := SelectDown(m, f);
      && m'.notifications == m.notifications && m'.searchInput == m.searchInput
      && m.selected <= m'.selected <= m.selected + 1 && m'.selected < |f|
  {
    SelectDownFrame(m, f);
    var m1 := if m.selected < |f| - 1 then m.(selected := m.selected + 1) else m;
    assert SelectDown(m, f).selected == m1.selected;
  }

  /** Up on the first item hands focus to the search bar when there is
      search text. */
  lemma UpAtTopFocusesSearch(config: Config, w: Widgets, m: Model)
    requires m.page == PageNotifications && !m.searching && m.selected == 0
    requires m.searchInput.value != "" && Filtered(m.notifications, m.searchInput.value) != []
    ensures var o := Update(config, w, KeyboardInput(KeyUp), m);
      o.Next? && o.model.searching && o.model.selected == 0
  {
  }

  /** While the search bar has focus it consumes every message except the
      terminal size: the page, the list and the commands stay as they are. */
  lemma SearchBarConsumesEverything(config: Config, w: Widgets, msg: Msg, m: Model)
    requires m.page == PageNotifications && m.searching && !msg.GotDimensions?
    ensures var o := Update(config, w, msg, m);
      && o.Next? && o.cmd == NoCmd
      && o.model.page == PageNotifications && o.model.notifications == m.notifications
  {
    SearchBarRouting(config, w, msg, m);
    if msg.KeyboardInput? {
      SearchBarKeys(w, msg.key, m);
    } else {
      SearchBarSteps(w, msg, m);
    }
  }

  lemma SearchBarKeys(w: Widgets, k: Key, m: Model)
    ensures var o := SearchBar(w, KeyboardInput(k), m);
      && o.Next? && o.cmd == NoCmd
      && o.model.page == m.page && o.model.notifications == m.notifications
      && (k == KeyEscape ==> !o.model.searching && o.model.searchInput.value == "")
      && (k == KeyEnter || k == KeyDown ==> o.model == m.(searching := false))
      && (k !in {KeyEscape, KeyEnter, KeyDown} ==>
            o.model.selected == 0 && o.model.notificationsScrollY == 0 && o.model.searching == m.searching)
  {
  }

  lemma SearchBarRouting(config: Config, w: Widgets, msg: Msg, m: Model)
    requires m.page == PageNotifications && m.searching && !msg.GotDimensions?
    ensures Update(config, w, msg, m) == SearchBar(w, msg, m)
  {
    Routing(config, w, msg, m);
  }

  /** Enter or Right on a non-empty list opens the selected notification:
      the detail page with nothing loaded yet, all three loading flags set
      and the issue fetch issued. */
  lemma EnterOpensSelected(config: Config, w: Widgets, k: Key, m: Model)
    requires m.page == PageNotifications && !m.searching && (k == KeyEnter || k == KeyRight)
    requires 0 <= m.selected < |Filtered(m.notifications, m.searchInput.value)|
    ensures var n := Filtered(m.notifications, m.searchInput.value)[m.selected];
      Update(config, w, KeyboardInput(k), m)
        == Next(m.(page := PageNotification, notification := Some(n), notificationScrollY := 0,
                   issue := None, labels := [], comments := [],
                   loadingIssue := true, loadingLabels := true, loadingComments := true),
                LoadNotificationIssue(Some(n)))
  {
  }

  /** The message results that remove a notification. */
  predicate IsRemovalResult(msg: Msg) {
    msg.MarkedAsRead? || msg.Unsubscribed? || msg.Unwatched?
  }

  /** A mark-read or unsubscribe result, on either notification page (and the
      search bar not focused), returns to the list, removes that notification
      by id, clears its flag and the detail scroll, and clamps the selection
      with the length of the filtered list BEFORE the removal. */
  lemma RemovalReturnsToList(config: Config, w: Widgets, msg: Msg, m: Model)
    requires msg.MarkedAsRead? || msg.Unsubscribed?
    requires m.page == PageNotification || (m.page == PageNotifications && !m.searching)
    ensures var o := Update(config, w, msg, m);
      var before := Filtered(m.notifications, m.searchInput.value);
      && o.Next? && o.cmd == NoCmd
      && o.model == m.(page := PageNotifications,
                       notifications := Removed(m.notifications, msg.notification.id),
                       selected := Min(m.selected, |before| - 1),
                       markingAsRead := if msg.MarkedAsRead? then false else m.markingAsRead,
                       unsubscribing := if msg.Unsubscribed? then false else m.unsubscribing,
                       notificationScrollY := 0)
  {
  }

  /** The messages each page reacts to (other than the terminal size). */
  predicate InVocabulary(m: Model, msg: Msg) {
    match m.page
    case PageComment => msg.KeyboardInput?
    case PageLabels =>
      msg.LabelsLoaded? || msg.NotificationLabelsLoaded? || msg.NotificationLabelsUpdated? || msg.KeyboardInput?
    case PagePriorities => msg.NotificationPriorityUpdated? || msg.KeyboardInput?
    case PageNotification =>
      || msg.CommentAdded? || msg.NotificationIssueLoaded? || msg.NotificationLabelsLoaded?
      || msg.NotificationCommentsLoaded? || msg.KeyboardInput? || IsRemovalResult(msg)
    case PageNotifications => m.searching || msg.NotificationsLoaded? || msg.KeyboardInput? || IsRemovalResult(msg)
  }

  /** A result that arrives for a page the user has left (and every failure
      result) is dropped: the model is unchanged and no command is issued. */
  lemma StaleResultsAreDropped(config: Config, w: Widgets, msg: Msg, m: Model)
    requires !msg.GotDimensions? && !InVocabulary(m, msg)
    ensures Update(config, w, msg, m) == Next(m, NoCmd)
  {
  }

  /** Escape and `q` quit from the detail page. */
  lemma DetailPageQuitKeys(config: Config, w: Widgets, k: Key, m: Model)
    requires m.page == PageNotification && (k == KeyEscape || k == KeyRune('q'))
    ensures Update(config, w, KeyboardInput(k), m) == Next(m, Quit)
  {
  }

  /** A page vocabulary leaves the unwatching flag alone and changes the list
      only by loading a new one. */
  predicate PageFrame(m: Model, msg: Msg, t: Option<Outcome>) {
    t.Some? && t.value.Next? ==>
      && t.value.model.unwatching == m.unwatching
      && (t.value.model.notifications == m.notifications
          || (msg.NotificationsLoaded? && t.value.model.notifications == msg.notifications))
  }

  lemma CommentPageFrame(w: Widgets, msg: Msg, m: Model)
    ensures PageFrame(m, msg, CommentPage(w, msg, m))
  {
    if msg.KeyboardInput? {
      CommentKeysFrame(w, msg.key, m);
    }
  }

  lemma CommentKeysFrame(w: Widgets, k: Key, m: Model)
    ensures PageFrame(m, KeyboardInput(k), CommentPage(w, KeyboardInput(k), m))
  {
  }

  lemma LabelsPageFrame(config: Config, w: Widgets, msg: Msg, m: Model)
    ensures PageFrame(m, msg, LabelsPage(config, w, msg, m))
  {
    if msg.KeyboardInput? {
      LabelsKeysFrame(config, w, msg.key, m);
    } else {
      LabelsResultsFrame(config, w, msg, m);
    }
  }

  lemma LabelsKeysFrame(config: Config, w: Widgets, k: Key, m: Model)
    ensures PageFrame(m, KeyboardInput(k), LabelsPage(config, w, KeyboardInput(k), m))
  {
  }

  lemma LabelsResultsFrame(config: Config, w: Widgets, msg: Msg, m: Model)
    requires !msg.KeyboardInput?
    ensures PageFrame(m, msg, LabelsPage(config, w, msg, m))
  {
  }

  lemma PrioritiesPageFrame(w: Widgets, msg: Msg, m: Model)
    ensures PageFrame(m, msg, PrioritiesPage(w, msg, m))
  {
    if msg.KeyboardInput? {
      PrioritiesKeysFrame(w, msg.key, m);
    } else {
      PrioritiesResultsFrame(w, msg, m);
    }
  }

  lemma PrioritiesKeysFrame(w: Widgets, k: Key, m: Model)
    ensures PageFrame(m, KeyboardInput(k), PrioritiesPage(w, KeyboardInput(k), m))
  {
  }

  lemma PrioritiesResultsFrame(w: Widgets, msg: Msg, m: Model)
    requires !msg.KeyboardInput?
    ensures PageFrame(m, msg, PrioritiesPage(w, msg, m))
  {
  }

  lemma NotificationPageFrame(config: Config, msg: Msg, m: Model)
    ensures PageFrame(m, msg, NotificationPage(config, msg, m))
  {
    if msg.KeyboardInput? {
      var k := msg.key;
      if k.KeyRune? {
        var r := k.rune;
        if r == 'R' {
          DetailReloadFrame(config, m);
        } else if r == 'r' || r == 'u' || r == 'o' {
          DetailActionFrame(config, r, m);
        } else if r == 'l' || r == 'p' || r == 'c' {
          DetailSubpageFrame(config, r, m);
        } else {
          DetailOtherRune(config, r, m);
        }
      } else {
        DetailKeysFrame(config, k, m);
      }
    } else {
      DetailResultsFrame(config, msg, m);
    }
  }

  lemma DetailReloadFrame(config: Config, m: Model)
    ensures PageFrame(m, KeyboardInput(KeyRune('R')), NotificationPage(config, KeyboardInput(KeyRune('R')), m))
  {
  }

  lemma DetailActionFrame(config: Config, r: char, m: Model)
    requires r == 'r' || r == 'u' || r == 'o'
    ensures PageFrame(m, KeyboardInput(KeyRune(r)), NotificationPage(config, KeyboardInput(KeyRune(r)), m))
  {
  }

  lemma DetailSubpageFrame(config: Config, r: char, m: Model)
    requires r == 'l' || r == 'p' || r == 'c'
    ensures PageFrame(m, KeyboardInput(KeyRune(r)), NotificationPage(config, KeyboardInput(KeyRune(r)), m))
  {
  }

  lemma DetailOtherRune(config: Config, r: char, m: Model)
    requires r !in "Rruolpc"
    ensures NotificationPage(config, KeyboardInput(KeyRune(r)), m) == None
  {
  }

  lemma DetailKeysFrame(config: Config, k: Key, m: Model)
    requires !k.KeyRune?
    ensures PageFrame(m, KeyboardInput(k), NotificationPage(config, KeyboardInput(k), m))
  {
  }

  lemma DetailResultsFrame(config: Config, msg: Msg, m: Model)
    requires !msg.KeyboardInput?
    ensures PageFrame(m, msg, NotificationPage(config, msg, m))
  {
  }

  lemma NotificationsPageFrame(w: Widgets, msg: Msg, m: Model, f: seq<Notification>)
    ensures PageFrame(m, msg, NotificationsPage(w, msg, m, f))
  {
    if m.searching {
      SearchBarFrame(w, msg, m);
    } else if msg.KeyboardInput? {
      ListKeysFrame(msg.key, m, f);
    }
  }

  lemma SearchBarFrame(w: Widgets, msg: Msg, m: Model)
    ensures PageFrame(m, msg, Some(SearchBar(w, msg, m)))
  {
    SearchBarSteps(w, msg, m);
  }

  /** The search bar's outcome, message by message. */
  lemma SearchBarSteps(w: Widgets, msg: Msg, m: Model)
    ensures msg == KeyboardInput(KeyEscape) ==>
      SearchBar(w, msg, m) == Next(m.(searching := false, searchInput := m.searchInput.(value := "")), NoCmd)
    ensures msg == KeyboardInput(KeyEnter) || msg == KeyboardInput(KeyDown) ==>
      SearchBar(w, msg, m) == Next(m.(searching := false), NoCmd)
    ensures msg.KeyboardInput? && msg.key !in {KeyEscape, KeyEnter, KeyDown} ==>
      SearchBar(w, msg, m)
        == Next(m.(selected := 0, searchInput := w.inputUpdate(msg, m.searchInput), notificationsScrollY := 0), NoCmd)
    ensures !msg.KeyboardInput? ==>
      SearchBar(w, msg, m) == Next(m.(searchInput := w.inputUpdate(msg, m.searchInput)), NoCmd)
  {
    if msg.KeyboardInput? {
      var k := msg.key;
      if k == KeyEscape {
      } else if k == KeyEnter {
      } else if k == KeyDown {
      } else {
        assert SearchBar(w, msg, m)
          == Next(m.(selected := 0, searchInput := w.inputUpdate(msg, m.searchInput), notificationsScrollY := 0), NoCmd);
      }
    } else {
      assert SearchBar(w, msg, m) == Next(m.(searchInput := w.inputUpdate(msg, m.searchInput)), NoCmd);
    }
  }

  lemma ListKeysFrame(k: Key, m: Model, f: seq<Notification>)
    ensures PageFrame(m, KeyboardInput(k), ListKeys(k, m, f))
  {
    if |f| > 0 {
      match k
      case KeyUp => {
        assert ListKeys(k, m, f) == Some(Next(SelectUp(m, f), NoCmd));
        SelectUpFrame(m, f);
      }
      case KeyDown => {
        assert ListKeys(k, m, f) == Some(Next(SelectDown(m, f), NoCmd));
        SelectDownFrame(m, f);
      }
      case KeyEnter => { assert ListKeys(k, m, f) == Some(Open(m, f)); }
      case KeyRight => { assert ListKeys(k, m, f) == Some(Open(m, f)); }
      case KeyBackspace => {
        assert ListKeys(k, m, f)
          == Some(if 0 <= m.selected < |f| then Next(m.(markingAsRead := true), MarkAsRead(Some(f[m.selected])))
                  else Panic("index out of range"));
      }
      case KeyRune(r) => {
        assert ListKeys(k, m, f) == ListRunes(r, m, f);
        ListRunesFrame(r, m, f);
      }
      case _ => { assert ListKeys(k, m, f) == None; }
    }
  }

  lemma ListRunesFrame(r: char, m: Model, f: seq<Notification>)
    ensures PageFrame(m, KeyboardInput(KeyRune(r)), ListRunes(r, m, f))
  {
    if r == 'R' || r == 'r' || r == 'u' {
      ListActionFrame(r, m, f);
    } else if r == 'U' || r == 'o' || r == '/' {
      ListOtherActionFrame(r, m, f);
    } else {
      assert r !in "RruUo/";
    }
  }

  lemma ListActionFrame(r: char, m: Model, f: seq<Notification>)
    requires r == 'R' || r == 'r' || r == 'u'
    ensures PageFrame(m, KeyboardInput(KeyRune(r)), ListRunes(r, m, f))
  {
  }

  lemma ListOtherActionFrame(r: char, m: Model, f: seq<Notification>)
    requires r == 'U' || r == 'o' || r == '/'
    ensures PageFrame(m, KeyboardInput(KeyRune(r)), ListRunes(r, m, f))
  {
  }

  /** Moving the selection changes only the selection, the scroll offset
      and the search focus. */
  lemma SelectUpFrame(m: Model, f: seq<Notification>)
    ensures SelectUp(m, f) == m.(selected := SelectUp(m, f).selected, searching := SelectUp(m, f).searching,
                                 notificationsScrollY := SelectUp(m, f).notificationsScrollY)
  {
    if m.selected > 0 {
      var m1 := m.(selected := m.selected - 1);
      assert SelectUp(m, f) == m1.(notificationsScrollY := ScrollNotifications(m1, f, 1));
    } else if m.searchInput.value != "" {
      var m1 := m.(searching := true);
      assert SelectUp(m, f) == m1.(notificationsScrollY := ScrollNotifications(m1, f, 1));
    } else {
      assert SelectUp(m, f) == m.(notificationsScrollY := ScrollNotifications(m, f, 1));
    }
  }

  lemma SelectDownFrame(m: Model, f: seq<Notification>)
    ensures SelectDown(m, f) == m.(selected := SelectDown(m, f).selected,
                                   notificationsScrollY := SelectDown(m, f).notificationsScrollY)
  {
    var m1 := if m.selected < |f| - 1 then m.(selected := m.selected + 1) else m;
    assert SelectDown(m, f) == m1.(notificationsScrollY := ScrollNotifications(m1, f, -1));
  }

  /** Every page vocabulary keeps the page frame. */
  lemma PageTierFrame(config: Config, w: Widgets, msg: Msg, m: Model, f: seq<Notification>)
    ensures PageFrame(m, msg, PageTier(config, w, msg, m, f))
  {
    match m.page
    case PageComment => CommentPageFrame(w, msg, m);
    case PageLabels => LabelsPageFrame(config, w, msg, m);
    case PagePriorities => PrioritiesPageFrame(w, msg, m);
    case PageNotification => NotificationPageFrame(config, msg, m);
    case PageNotifications => NotificationsPageFrame(w, msg, m, f);
  }

  /** The reducer never sets the unwatching flag. */
  lemma UnwatchingNeverSet(config: Config, w: Widgets, msg: Msg, m: Model)
    requires !m.unwatching
    ensures var o := Update(config, w, msg, m); o.Next? ==> !o.model.unwatching
  {
    if !msg.GotDimensions? {
      Routing(config, w, msg, m);
      PageTierFrame(config, w, msg, m, Filtered(m.notifications, m.searchInput.value));
    }
  }

  /** The list itself changes only on a load (replaced) or a removal result
      (one notification removed). */
  lemma ListChangesOnlyByLoadOrRemoval(config: Config, w: Widgets, msg: Msg, m: Model)
    ensures var o := Update(config, w, msg, m);
      o.Next? ==>
        || o.model.notifications == m.notifications
        || (msg.NotificationsLoaded? && o.model.notifications == msg.notifications)
        || ((msg.MarkedAsRead? || msg.Unsubscribed?)
            && o.model.notifications == Removed(m.notifications, msg.notification.id))
  {
    if !msg.GotDimensions? {
      Routing(config, w, msg, m);
      PageTierFrame(config, w, msg, m, Filtered(m.notifications, m.searchInput.value));
    }
  }

  /** The selection is inside the filtered list, or the list is empty. */
  predicate SelectionInRange(m: Model) {
    var f := Filtered(m.notifications, m.searchInput.value);
    f == [] || 0 <= m.selected < |f|
  }

  /** The pre-removal clamp can leave the selection one past the end of the
      list, and the next Enter then indexes out of range. */
  lemma RemovalClampCanPanic(config: Config, w: Widgets)
    ensures var a, b := ExampleNotification("1"), ExampleNotification("2");
      var m := ZeroModel.(notifications := [a, b], selected := 1);
      var o := Update(config, w, MarkedAsRead(b), m);
      && SelectionInRange(m)
      && o.Next? && o.model.notifications == [a] && o.model.selected == 1
      && !SelectionInRange(o.model)
      && Update(config, w, KeyboardInput(KeyEnter), o.model).Panic?
  {
    var a, b := ExampleNotification("1"), ExampleNotification("2");
    FilteredEmptySearch([a, b]);
    FilteredEmptySearch([a]);
    assert [a, b][..1] == [a];
  }

  /** Up on the detail page can drive its scroll offset negative. */
  lemma DetailScrollCanBeNegative(config: Config, w: Widgets)
    ensures var m := ZeroModel.(page := PageNotification, notificationScrollY := 1, height := 8);
      Update(config, w, KeyboardInput(KeyUp), m) == Next(m.(notificationScrollY := -1), NoCmd)
  {
  }

  /** Nothing keeps the in-flight flags exclusive: `r` then `u` on the list
      leaves both a mark-read and an unsubscribe in flight. */
  lemma InFlightFlagsNotExclusive(config: Config, w: Widgets)
    ensures var m := ZeroModel.(notifications := [ExampleNotification("1")]);
      var o1 := Update(config, w, KeyboardInput(KeyRune('r')), m);
      o1.Next? &&
      var o2 := Update(config, w, KeyboardInput(KeyRune('u')), o1.model);
      o2.Next? && o2.model.markingAsRead && o2.model.unsubscribing
  {
    FilteredEmptySearch([ExampleNotification("1")]);
  }
}
