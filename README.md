# triage: a Dafny model of the terminal GitHub-notifications triager

triage is a terminal program for working through GitHub notifications. It
follows the Elm architecture of the go-tea library:

- a `Model` value holds the whole UI state;
- `Update` takes a message and the model, and returns the next model and a
  command to run;
- `View` renders the model to a string;
- commands talk to the GitHub API and answer with a message.

This project models that core in Dafny and proves properties of the model.

- **Entities, Messages, Model** (`entities.dfy`, `messages.dfy`, `model.dfy`).
  - The GitHub values the core reads: notification, subject, repository,
    issue, label, comment.
  - The configured priorities.
  - Opaque widget states for the text inputs and option lists.
  - The messages and command descriptors, as closed sums.
  - The pages, the `Model` record, and `Init`.
- **Util** (`util.dfy`).
  - The search filter: a case-sensitive substring of the repository's full
    name.
  - `Min` and `Max`.
  - Go's truncating integer division.
- **Reducer** (`update.dfy`). `Update` is a pure function. Its result is
  `Next(model, cmd)`, or `Panic(reason)` where the Go code would index out of
  range. Every page handler and every helper loop of update.go is here. Each
  loop is a method proved equal to a specification function.
- **UpdateLemmas** (`update_lemmas.dfy`). What the reducer guarantees:
  - routing between the page handlers;
  - selection and scrolling bounds;
  - how the search bar behaves;
  - removal after mark-as-read or unsubscribe;
  - a frame property per page (no handler touches the list except a load or a
    removal; the "unwatching" flag is never set);
  - concrete witnesses of the edge cases the code has.
- **Text** (`text.dfy`).
  - Rendered output is a buffer of one-line pieces and `"\r\n"` breaks.
  - `Split` and `Join` model `strings.Split` and `strings.Join` on that
    separator.
  - They are proved to be inverse to each other.
- **Layout** (`view.dfy`). The view helpers:
  - `bounded`, `viewport`, `menu`, `centered`;
  - the byte width of a string;
  - the most-recent-first sort.
- **Pages** (`pages.dfy`).
  - The five page renderers and `View`.
  - Each writer loop is a method tied to a document function.
  - Lemmas about the documents: the selection marker's line, the list
    height, the sticky header, when a frame renders and when it panics.
- **Commands** (`commands.dfy`).
  - The commands with decision logic: loading the notifications, replacing
    labels, setting a priority, unsubscribing, and the two error
    classifiers.
  - The GitHub server is an explicit value threaded through each call. It
    keeps:
    - a log of the calls made;
    - a map of injected faults, keyed by the ordinal of the call;
    - the state the calls change: subscriptions, unread threads, repository
      labels, issue labels.
  - Unless a fault is injected:
    - creating an existing label answers an `already_exists` error;
    - removing a label the issue lacks answers 404.

Behaviour of the code that the model keeps as written:

- **Scroll offsets can go negative.**
  - On the detail page, Up subtracts without a floor
    (`DetailScrollCanBeNegative`).
  - In the list, the offset goes negative when the list is shorter than the
    screen (`ScrollCanBeNegative`).
- **The selection can end up out of range after a removal.** It is clamped
  with the filtered length taken *before* the removal. A later Enter then
  indexes past the end (`RemovalClampCanPanic`).
- **The "unwatching" flag is never set** (`UnwatchingNeverSet`).
- **'U' on the list ignores the search filter.** It indexes the unfiltered
  list, while every other key indexes the filtered one.
- **Escape on the priorities page resets the label options, not the
  priority options.**
- **`View` is not total.**
  - A one-row terminal makes `menu` index line -1
    (`ListPanicsOnOneRowTerminal`).
  - A viewport shorter than its sticky header can make `bounded` slice
    backwards.
  - Both are modelled as `Panicked` frames.
- **Rendering sorts the list in place.** `View` sorts the model's
  notifications most recent first. It returns that order as well
  (`ListAfterView`), because `Update` later indexes the same slice.
- **The deferred padding closure writes nothing.** It writes after the
  returned string has been taken, so it never reaches the output.
- **Two in-flight flags can be on at once.** Marking-as-read and
  unsubscribing can both be pending (`InFlightFlagsNotExclusive`).
- **`PagePriorities` is the fifth page value (4).** The reducer and the
  renderer use it, but it is not among the page constants of model.go.

## Model

| member | source | states |
|---|---|---|
| Model.PageValue | model.go:16-21 | every page has an iota value below 5 |
| Model.PageOf | model.go:16-21 | the integers 0 to 4 are exactly the pages, and PageOf inverts PageValue |
| Model.Init | model.go:62-67 | the program starts on the notifications page, loading, with every other field zero or empty (lists, flags, offsets, sizes and all widget states), and asks for the terminal dimensions |
| Util.FilterNotifications | util.go:10-18 | the filtering loop computes Filtered |
| Util.Filtered | util.go:10-18 | filtering never lengthens the list |
| Util.FilteredMembers | util.go:10-18 | a notification is kept exactly when it is in the input and its repository's full name contains the search text |
| Util.FilteredIsSubsequence | util.go:10-18 | the kept notifications stay in their original order |
| Util.FilteredAllMatch | util.go:10-18 | when every notification matches, the list is returned unchanged |
| Util.FilteredEmptySearch | util.go:10-18 | an empty search keeps every notification |
| Util.FilteredIdempotent | util.go:10-18 | filtering twice with the same text is filtering once |
| Util.Min | util.go:29-34 | the result is one of the arguments and at most both |
| Util.Max | util.go:37-42 | the result is one of the arguments and at least both |
| Util.OwnerRepo | util.go:21-26 | no contract of its own: the owner's login and the repository name; UpdateLemmas.InRepoMembers states how the 'U' selection uses it |
| Util.Quot | view.go:335-339 | Go's integer division truncates toward zero: the remainder takes the sign of the dividend and is smaller than the divisor |
| Reducer.LastIndexOf | update.go:464-473 | the result is -1 or an index holding the id, and no later index holds it |
| Reducer.GetNotificationIndex | update.go:464-473 | the search loop finds the last index holding the id, or -1 |
| Reducer.Removed | update.go:455-462 | the list shrinks by one exactly when the id is present |
| Reducer.RemoveNotification | update.go:455-462 | the removal computes Removed |
| UpdateLemmas.RemovedDropsOne | update.go:455-462 | removal takes out exactly the last notification with the id and keeps every other one |
| UpdateLemmas.RemovedIsSubsequence | update.go:455-462 | removal keeps the others in order |
| UpdateLemmas.RemovedTwice | update.go:455-462 | with unique ids, removing twice is removing once |
| UpdateLemmas.RemovedAbsent | update.go:455-459 | an id that is not in the list leaves the list untouched |
| Reducer.NonPriorityLabels | update.go:475-487 | the filtered labels are never more than the input |
| Reducer.FilterPriorityLabels | update.go:475-487 | the loop computes NonPriorityLabels |
| UpdateLemmas.NonPriorityLabelsMembers | update.go:475-487 | a label is kept exactly when it is not a configured priority label |
| UpdateLemmas.NonPriorityLabelsIsSubsequence | update.go:475-487 | the kept labels stay in order |
| Reducer.Names | update.go:395-401 | one name per label, position by position |
| Reducer.LabelNames | update.go:395-401 | the loop computes Names |
| Reducer.LabelsSelected | update.go:403-414 | the loop computes SelectedIndexes |
| UpdateLemmas.SelectedIndexesMeaning | update.go:403-414 | the result is increasing, lies within the repository labels, and holds an index exactly when that label's id is among the issue's labels |
| Reducer.InRepo | update.go:444-453 | the selection is never longer than the input |
| Reducer.GetNotificationsByRepo | update.go:444-453 | the loop computes InRepo |
| UpdateLemmas.InRepoMembers | update.go:444-453 | a notification is kept exactly when it belongs to the given owner and repository |
| UpdateLemmas.InRepoIsSubsequence | update.go:444-453 | the repository's notifications are kept in list order, so the 'U' batch marks them in that order |
| Reducer.PriorityNames | update.go:230-237 | the priority options are the configured priority names, in order |
| Reducer.MarkAllRead | update.go:322-330 | one mark-as-read command per notification of the repository, in order |
| Reducer.ScrollNotifications | update.go:416-442 | the offset is at least the smaller of 0 and the list height minus the screen height |
| UpdateLemmas.ScrollBounds | update.go:416-442 | the offset stays between that lower bound and the list's overflow, plus half a row when the height is odd |
| UpdateLemmas.ScrollKeepsSelectionVisible | update.go:416-442 | on a screen of at least eight rows, the selected item lies wholly inside the window after scrolling |
| UpdateLemmas.ScrollCanBeNegative | update.go:416-442 | a short list on a tall screen gives a negative offset |
| Reducer.Update | update.go:75-383 | no contract of its own; UpdateLemmas.GotDimensionsOnAnyPage, StaleResultsAreDropped, UnwatchingNeverSet and ListChangesOnlyByLoadOrRemoval state what it does |
| Reducer.PageTier | update.go:90-340 | no contract of its own: the active page's handler; UpdateLemmas.PageTierFrame states its frame |
| Reducer.CommentPage | update.go:91-110 | no contract of its own; UpdateLemmas.CommentPageFrame and CommentKeysFrame state that it keeps the list and the unwatching flag |
| Reducer.LabelsPage | update.go:113-145 | no contract of its own; UpdateLemmas.LabelsPageFrame, LabelsKeysFrame and LabelsResultsFrame state its frame |
| Reducer.PrioritiesPage | update.go:147-169 | no contract of its own; UpdateLemmas.PrioritiesPageFrame, PrioritiesKeysFrame and PrioritiesResultsFrame state its frame |
| Reducer.NotificationPage | update.go:172-243 | no contract of its own; UpdateLemmas.NotificationPageFrame and the Detail*Frame lemmas state its frame, DetailOtherRune its fall-through and DetailScrollCanBeNegative its unfloored scroll |
| Reducer.SearchBar | update.go:248-270 | no contract of its own; UpdateLemmas.SearchBarSteps states each of its four cases and SearchBarKeys what every key keeps |
| Reducer.NotificationsPage | update.go:247-340 | no contract of its own; UpdateLemmas.NotificationsPageFrame, SearchBarRouting and EmptyListKeyQuits state its behaviour |
| Reducer.ListKeys | update.go:278-308 | no contract of its own; UpdateLemmas.ArrowsKeepSelectionInRange, EnterOpensSelected and ListKeysFrame state its behaviour |
| Reducer.ListRunes | update.go:309-337 | no contract of its own; UpdateLemmas.ListRunesFrame, ListActionFrame, ListOtherActionFrame and InFlightFlagsNotExclusive state its behaviour |
| Reducer.SelectUp | update.go:283-290 | no contract of its own; UpdateLemmas.UpOnList, UpAtTopFocusesSearch and SelectUpFrame state its effect |
| Reducer.SelectDown | update.go:291-296 | no contract of its own; UpdateLemmas.DownOnList and SelectDownFrame state its effect |
| Reducer.Open | update.go:297-304 | no contract of its own; UpdateLemmas.EnterOpensSelected states the page it opens and the command it issues |
| Reducer.LoadNotification | update.go:386-393 | no contract of its own; UpdateLemmas.EnterOpensSelected states the loading flags it sets and the issue load it starts |
| Reducer.RemovalResults | update.go:343-366 | no contract of its own; UpdateLemmas.RemovalReturnsToList states the removal and the clamp, and RemovalClampCanPanic shows the clamp going out of range |
| Reducer.GlobalKeys | update.go:368-381 | no contract of its own; UpdateLemmas.DetailPageQuitKeys and EmptyListKeyQuits show its quit keys |
| Reducer.ListHeight | update.go:416-442 | no contract of its own: four rows per item, two of padding and two for the search bar while searching; UpdateLemmas.ScrollBounds uses it and Pages.ListDocumentHeight compares it with the drawn list |
| UpdateLemmas.GotDimensionsOnAnyPage | update.go:84-88 | on every page a resize records the size and reloads the notifications |
| UpdateLemmas.EmptyListKeyQuits | update.go:278-281 | any key on an empty filtered list quits |
| UpdateLemmas.ArrowsKeepSelectionInRange | update.go:283-296 | Up and Down leave the list untouched, move the selection by at most one and keep it within the filtered list |
| UpdateLemmas.UpOnList | update.go:283-290 | Up moves the selection up by at most one, never below 0 |
| UpdateLemmas.DownOnList | update.go:291-296 | Down moves the selection down by at most one, never past the last item |
| UpdateLemmas.UpAtTopFocusesSearch | update.go:283-290 | Up on the first item focuses the search bar when there is search text |
| UpdateLemmas.SearchBarRouting | update.go:247-250 | while searching, every message except a resize goes to the search bar |
| UpdateLemmas.SearchBarSteps | update.go:248-270 | Escape clears and leaves the search; Enter and Down leave it; other keys edit and reset the selection and scroll; other messages reach the input widget |
| UpdateLemmas.SearchBarKeys | update.go:251-265 | every key on the search bar keeps the page and the list and issues no command |
| UpdateLemmas.SearchBarConsumesEverything | update.go:248-270 | while searching, nothing quits, nothing loads and the list is untouched |
| UpdateLemmas.EnterOpensSelected | update.go:297-304 | Enter or Right opens the selected filtered notification with fresh detail state and loads its issue |
| UpdateLemmas.RemovalReturnsToList | update.go:343-358 | a mark-as-read or unsubscribe result removes that notification, clears its flag, clamps the selection and returns to the list |
| UpdateLemmas.StaleResultsAreDropped | update.go:75-384 | a message the current page does not handle changes nothing |
| UpdateLemmas.DetailPageQuitKeys | update.go:368-381 | Escape and 'q' on the detail page quit |
| UpdateLemmas.CommentPageFrame | update.go:91-110 | the comment page never changes the list or the unwatching flag |
| UpdateLemmas.CommentKeysFrame | update.go:93-108 | nor does any key on it |
| UpdateLemmas.LabelsPageFrame | update.go:113-145 | the labels page never changes the list or the unwatching flag |
| UpdateLemmas.LabelsKeysFrame | update.go:129-143 | nor does any key on it |
| UpdateLemmas.LabelsResultsFrame | update.go:114-128 | nor does any result message on it |
| UpdateLemmas.PrioritiesPageFrame | update.go:147-169 | the priorities page never changes the list or the unwatching flag |
| UpdateLemmas.PrioritiesKeysFrame | update.go:153-167 | nor does any key on it |
| UpdateLemmas.PrioritiesResultsFrame | update.go:149-152 | nor does its result message |
| UpdateLemmas.NotificationPageFrame | update.go:172-243 | the detail page never changes the list or the unwatching flag |
| UpdateLemmas.DetailReloadFrame | update.go:213-216 | 'R' on the detail page keeps the frame |
| UpdateLemmas.DetailActionFrame | update.go:217-224 | 'r', 'u' and 'o' on the detail page keep the frame |
| UpdateLemmas.DetailSubpageFrame | update.go:225-241 | 'l', 'p' and 'c' on the detail page keep the frame |
| UpdateLemmas.DetailOtherRune | update.go:211-242 | other characters on the detail page fall through to the shared handlers |
| UpdateLemmas.DetailKeysFrame | update.go:191-210 | the detail page's non-character keys keep the frame |
| UpdateLemmas.DetailResultsFrame | update.go:173-190 | the detail page's load results keep the frame |
| UpdateLemmas.NotificationsPageFrame | update.go:247-340 | the list page changes the list only by applying a load |
| UpdateLemmas.SearchBarFrame | update.go:248-270 | the search bar keeps the frame |
| UpdateLemmas.ListKeysFrame | update.go:278-308 | the list keys keep the frame |
| UpdateLemmas.ListRunesFrame | update.go:309-337 | the list's character keys keep the frame |
| UpdateLemmas.ListActionFrame | update.go:311-321 | 'R', 'r' and 'u' on the list keep the frame |
| UpdateLemmas.ListOtherActionFrame | update.go:322-336 | 'U', 'o' and '/' on the list keep the frame |
| UpdateLemmas.SelectUpFrame | update.go:283-290 | Up changes only the selection, the search focus and the scroll |
| UpdateLemmas.SelectDownFrame | update.go:291-296 | Down changes only the selection and the scroll |
| UpdateLemmas.PageTierFrame | update.go:90-340 | no page handler changes the list other than by a load, or sets the unwatching flag |
| UpdateLemmas.UnwatchingNeverSet | update.go:359-364 | the unwatching flag, once clear, stays clear |
| UpdateLemmas.ListChangesOnlyByLoadOrRemoval | update.go:273-277 | the list changes only when a load replaces it or a removal result drops one notification |
| UpdateLemmas.RemovalClampCanPanic | update.go:343-358 | removing the last of two notifications leaves the selection past the end, and Enter then panics |
| UpdateLemmas.DetailScrollCanBeNegative | update.go:197-203 | Up on the detail page can scroll above the top |
| UpdateLemmas.InFlightFlagsNotExclusive | update.go:314-321 | mark-as-read and unsubscribe can both be in flight |
| Text.SplitJoin | view.go:359-372 | splitting joined lines gives the lines back |
| Text.JoinSplit | view.go:359-372 | joining split text gives the text back |
| Text.SplitTerminated | view.go:359-372 | lines each written with a trailing break come out of the split one by one |
| Text.SplitLength | view.go:359-372 | the text has one more line than it has breaks |
| Layout.Spaces | view.go:335-339 | n spaces |
| Layout.Clamp | view.go:375-379 | a bound is clamped into 0..n and left alone when already inside |
| Layout.Bounded | view.go:375-379 | the clamped slice, element by element; the plain slice when the bounds are in range |
| Layout.ViewportLines | view.go:359-372 | the sticky header lines come first, then a window of at most the height, starting at the clamped scroll |
| Layout.Viewport | view.go:359-372 | the viewport renders exactly when the slice bounds are well formed |
| Layout.ViewportTotal | view.go:359-372 | it always renders when the height covers the sticky header |
| Layout.ViewportPanicsWhenShort | view.go:359-372 | it panics when the height is below the header and the view is scrolled |
| Layout.ViewportShows | view.go:359-372 | a rendered viewport is the join of the window lines, and splitting it again gives those lines |
| Layout.MenuLines | view.go:342-354 | the text is padded to the height, then a blank line of the width and the shortcut bar close it |
| Layout.Menu | view.go:342-354 | the padding loop computes MenuFrame |
| Layout.MenuFrame | view.go:342-354 | no contract of its own: nothing at height 0, a panic on a negative width or too few lines, otherwise MenuLines; Layout.MenuLines and Pages.PromptPageShows state what it draws |
| Layout.ViewportThenMenu | view.go:144-165 | the scrolled page is the viewport followed by the menu |
| Layout.Utf8Len | view.go:335-339 | the byte length is at least the character count |
| Layout.Utf8LenAscii | view.go:335-339 | for ASCII text, bytes and characters agree |
| Layout.Utf8LenSnoc | view.go:335-339 | each character adds its UTF-8 width |
| Layout.Centered | view.go:335-339 | a centered message renders exactly when the terminal has two rows and is wide enough |
| Layout.CenteredLines | view.go:335-339 | the message sits on the middle row, indented by half the width minus half its byte length |
| Layout.Insert | view.go:98-102 | inserting into a most-recent-first list keeps it sorted and adds the element |
| Layout.HeadIsMostRecent | view.go:98-102 | an older element inserted behind the head keeps the order |
| Layout.SortByRecency | view.go:98-102 | the sort orders newest first and is a permutation |
| Pages.ListScreen | view.go:71-168 | no contract of its own; Pages.ListMarker, ListDocumentHeight, ListStickyHeader and ListPanicsOnOneRowTerminal state what it shows |
| Pages.WriteSearchHeader | view.go:86-95 | the writer emits the blank padding line and the search header, each with a trailing break |
| Pages.WriteItem | view.go:108-140 | the writer emits a notification's row |
| Pages.ItemText | view.go:108-140 | a row is the title line and either its status or the subject and the updated time, filled to four lines |
| Pages.WriteList | view.go:84-141 | the writer loop emits the header and every row |
| Pages.ViewNotifications | view.go:71-168 | the list page is the loading, done or list screen, and the list is left sorted most recent first |
| Pages.RowHeight | view.go:108-140 | every row is four lines |
| Pages.RowsLength | view.go:108-140 | the rows take four lines per notification |
| Pages.RowMarked | view.go:112-118 | a row's first line carries the selection marker exactly when it is selected |
| Pages.RowsMarker | view.go:108-140 | the marker appears exactly on the selected notification's first line |
| Pages.ListMarker | view.go:84-141 | in the whole list the marker sits on line 1 + header + 4 × selected, and nowhere when the selection is out of range |
| Pages.ListDocumentHeight | view.go:84-141 | the list document has the padding line, the search header whenever it shows (while searching or with search text) and four lines per notification; the reducer's scroll counts the header only while searching |
| Pages.ListStickyHeader | view.go:144-148 | the sticky offset is zero without a search header, otherwise it covers exactly the padding and the header |
| Pages.DetailScreen | view.go:171-272 | no contract of its own; Pages.DetailStickyHeader and DetailPendingShows state what it shows |
| Pages.WriteLabels | view.go:215-228 | the label chips are written for the labels with a valid color, in order |
| Pages.WriteComments | view.go:239-249 | each comment is written as its block, in order |
| Pages.WriteDetailHead | view.go:184-192 | the padding line and the title and state lines |
| Pages.WriteDetailBody | view.go:184-249 | the detail document |
| Pages.ViewNotification | view.go:171-272 | the detail page is the detail screen |
| Pages.DetailStickyHeader | view.go:252-256 | the sticky offset covers exactly the header lines of the document |
| Pages.DetailPendingShows | view.go:195-212 | while an action is pending, the page shows only the header and the pending message |
| Pages.ViewLabels | view.go:275-293 | the labels page is the prompt, the options and the menu |
| Pages.ViewPriorities | view.go:296-309 | the priorities page is the prompt, the options and the menu |
| Pages.ViewComment | view.go:312-324 | the comment page is the prompt, the input and the menu |
| Pages.PromptPageShows | view.go:275-324 | on five rows or more, a prompt page opens with its prompt and ends with the shortcut bar |
| Pages.Screen | view.go:53-68 | no contract of its own: the active page's frame; Pages.ViewRendersOnUsableTerminal and ListPanicsOnOneRowTerminal state when it renders |
| Pages.View | view.go:53-68 | View renders the active page and returns the list order it leaves behind |
| Pages.ViewReordersList | view.go:98-102 | rendering only permutes the list, and sorts it on the list page once loaded |
| Pages.DoneTextWidth | view.go:80-82 | the all-done message is 31 bytes wide |
| Pages.LoadingWidth | view.go:327-332 | the loading message is 7 bytes wide |
| Pages.ViewRendersOnUsableTerminal | view.go:53-68 | on a terminal of at least 8 rows and 30 columns every page renders, the detail page once a notification is open |
| Pages.ListPanicsOnOneRowTerminal | view.go:342-354 | on a one-row terminal the list page panics with index out of range |
| Commands.IsNotFound | commands.go:363-370 | no contract of its own: a GitHub error response with status 404; Commands.ErrorClasses and PriorityRemoveFault state how it classifies and what it tolerates |
| Commands.AlreadyExists | commands.go:373-386 | no contract of its own: an error response with an already_exists entry; Commands.IsAlreadyExists computes it and PriorityCreateFault states what it tolerates |
| Commands.Perform | commands.go:38-278 | every call is logged; an injected fault at its ordinal is returned, and then only the log changes (a failed call is assumed to have had no effect) |
| Commands.IsAlreadyExists | commands.go:373-386 | the loop answers true exactly when some error entry has the code already_exists |
| Commands.ErrorClasses | commands.go:363-386 | the already-exists response, the not-found response and other errors fall in different classes |
| Commands.WithoutReleases | commands.go:59-67 | the filter never lengthens the page |
| Commands.LoadNotifications | commands.go:38-70 | one list call of 100 per page; its error is wrapped as fetching notifications, otherwise the first page comes back without releases |
| Commands.WithoutReleasesMembers | commands.go:59-67 | a notification is kept exactly when its subject is not a release |
| Commands.WithoutReleasesIsSubsequence | commands.go:59-67 | the kept notifications stay in order |
| Commands.WithoutReleasesKeepsOthers | commands.go:59-67 | a page without releases comes back unchanged |
| Commands.UpdateNotificationLabels | commands.go:141-164 | an empty list removes every label and a non-empty one replaces them; success exactly when that call succeeds, and then the issue has exactly the given labels; on failure the wrapped error comes back and, since a failed call is assumed to have had no effect, the labels are unchanged |
| Commands.FirstNamed | commands.go:177-184 | the index of the first priority with the name, or -1 |
| Commands.ChoosePriority | commands.go:177-184 | the search loop picks the first priority with the name, or the zero priority |
| Commands.IndexOf | commands.go:186-187 | the index of the first occurrence, or -1 |
| Commands.StripHashDropsFirst | commands.go:186-187 | only the first '#' of the color is removed: the result with a '#' put back at that position is the color, and no '#' comes before it |
| Commands.StripHash | commands.go:186-187 | no contract of its own; Commands.StripHashDropsFirst states that only the first '#' goes |
| Commands.DefaultColorStripped | commands.go:186-187 | the default color loses its hash |
| Commands.RemoveAll | commands.go:202-208 | the removal loop computes RemovePriorityLabels |
| Commands.RemovePriorityLabels | commands.go:202-208 | no contract of its own; Commands.RemoveLog, RemoveEffect and PriorityRemoveFault state its calls, its effect and its tolerance of 404 |
| Commands.RemoveEffect | commands.go:202-208 | when the removals succeed, every configured priority label is gone from the issue, its other labels stay and the repository labels are unchanged |
| Commands.RemoveLog | commands.go:202-208 | the removals issue one call per priority, in order, stopping at the first real failure |
| Commands.RemoveClean | commands.go:202-208 | fault-free removals can be skipped over: the rest of the loop continues from the intermediate server |
| Commands.UpdateNotificationPriority | commands.go:167-218 | the command computes PriorityUpdate |
| Commands.PriorityUpdate | commands.go:167-218 | no contract of its own; Commands.PriorityFaultFree, PrioritySuccess, PriorityLeavesOne, PriorityCallsFollowPlan, PriorityCreateFault and PriorityRemoveFault state its promises |
| Commands.PriorityFaultFree | commands.go:167-218 | with no faults the update succeeds, makes every planned call, adds the chosen label to the repository and replaces the issue's configured priority labels with it |
| Commands.PrioritySuccess | commands.go:167-218 | after a success, the issue's labels are its old non-priority labels plus the chosen one |
| Commands.PriorityLeavesOne | commands.go:167-218 | after a success, of the configured priority labels the issue carries exactly the chosen one |
| Commands.PriorityCallsFollowPlan | commands.go:167-218 | the calls made are a prefix of the plan (create, remove each, add), and all of it on success |
| Commands.PriorityCreateFault | commands.go:189-200 | a create error aborts exactly when it is not already_exists |
| Commands.PriorityRemoveFault | commands.go:202-208 | a removal error aborts, naming the label, exactly when it is not a 404 |
| Commands.DefaultHighLabel | cmd/triage/main.go:18-34 | the default High priority creates the label "Priority: High" with color 532BE3 and description "High priority issue." |
| Commands.UnknownPriorityLabel | commands.go:177-195 | an unknown name falls back to the zero priority and creates a label with an empty name |
| Commands.Unsubscribe | commands.go:259-278 | delete the subscription, then mark the thread read; each error is wrapped and stops the command; success exactly when both succeed, and then the thread is neither subscribed nor unread; a failed call is assumed to have had no effect |

## Left out

- Terminal I/O, the go-tea run loop, timeouts and context plumbing are not
  modelled. This covers client.go, config.go and cmd/triage/main.go, apart
  from the default priorities. Messages arrive as values, and commands are
  descriptors or server functions.
- Concurrency is not modelled. `tea.Batch` runs its commands concurrently;
  the 'U' key yields them as a plain list.
- GetDimensions and OpenInBrowser are not modelled. They read the terminal
  size or start a browser, with no decision logic.
- The single-call commands are not modelled: AddComment, MarkAsRead, Unwatch,
  LoadNotificationIssue, LoadNotificationLabels, LoadNotificationComments,
  LoadRepoLabels, getIssue, getIssueLabels and getIssueComments. Each makes
  one client call and wraps its error; only their descriptors are modelled.
- Pagination is left out. LoadNotifications sees the server's first page of
  100 only, as the code does.
- Markdown, syntax highlighting, emoji, colors, relative times and the
  horizontal rule are opaque pieces. They are produced by explicit renderer
  functions and have no layout of their own, apart from the fixed lines the
  code writes around them.
- The text input, options and option widgets are opaque states. Their update
  and view are explicit function parameters.
- Layout.SortByRecency: sorts on values with a stable insertion sort, not in
  place. The Go sort is unstable, so only "newest first and a permutation"
  is stated.
- Commands.RemoveContext: the label name is quoted plainly, not with Go's %q
  escaping.
- Commands.Unsubscribe: takes a notification, not a possibly nil pointer.
  Every caller passes a selected notification.
- The server model holds one repository and one issue. Its already_exists and
  404 answers are assumptions about GitHub, not facts the model proves.
- Commands.Perform: a failed call is assumed to have had no effect on
  GitHub. Each call runs under a context timeout, and a request GitHub has
  already applied can still come back as a deadline error; that case is not
  modelled. So the unchanged issue labels after a failed
  UpdateNotificationLabels, and the unchanged unread set after a failed
  mark-read in Unsubscribe, hold for the model's server only.
- Reducer.RemoveNotification: returns a fresh sequence. The Go `append` shifts
  the elements within the shared backing array, and the model does not capture
  that aliasing.
- Reducer.SelectedIndexes: has no postcondition of its own. Its meaning is
  stated by UpdateLemmas.SelectedIndexesMeaning.
