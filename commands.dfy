/** commands.go: the decisions the GitHub commands make, run against an
    abstract GitHub server. The server is a value the command receives and
    returns: the inbox, the thread subscriptions and unread marks, the labels
    of the repository and of the issue the command works on, the log of the
    calls made so far, and the failures injected into chosen calls. */
module Commands {
  import opened Entities
  import opened Messages
  import opened Seqs
  import opened Model
  import Util

  // ---------------------------------------------------------------- errors

  /** isNotFound: a GitHub error response with HTTP status 404. */
  predicate IsNotFound(e: Error) {
    e.ErrorResponse? && e.statusCode == 404
  }

  /** What isAlreadyExists decides: a GitHub error response with an entry
      whose code is "already_exists". */
  predicate AlreadyExists(e: Error) {
    e.ErrorResponse? && exists k :: 0 <= k < |e.errors| && e.errors[k].code == "already_exists"
  }

  /** The loop of isAlreadyExists. */
  method IsAlreadyExists(e: Error) returns (b: bool)
    ensures b <==> AlreadyExists(e)
  {
    if !e.ErrorResponse? {
      return false;
    }
    var i := 0;
    while i < |e.errors|
      invariant 0 <= i <= |e.errors|
      invariant forall k :: 0 <= k < i ==> e.errors[k].code != "already_exists"
    {
      if e.errors[i].code == "already_exists" {
        return true;
      }
      i := i + 1;
    }
    return false;
  }

  // ---------------------------------------------------------------- server

  /** The label the priority command asks GitHub to create. */
  datatype NewLabel = NewLabel(name: string, color: string, description: string)

  /** The API calls the commands make, with their arguments. */
  datatype Call =
    | ListNotifications(perPage: int)
    | RemoveLabelsForIssue(owner: string, repo: string, number: int)
    | ReplaceLabelsForIssue(owner: string, repo: string, number: int, labels: seq<string>)
    | CreateLabel(owner: string, repo: string, newLabel: NewLabel)
    | RemoveLabelForIssue(owner: string, repo: string, number: int, name: string)
    | AddLabelsToIssue(owner: string, repo: string, number: int, labels: seq<string>)
    | DeleteThreadSubscription(thread: string)
    | MarkThreadRead(thread: string)

  /** The GitHub state a command sees. `repoLabels` and `issueLabels` are the
      label names of the one repository and issue the command targets. The
      call whose position in `log` is `k` fails with `faults[k]` when that key
      is present (a refused request, a server error) and then changes
      nothing; a call that GitHub applies but that times out is not
      modelled. */
  datatype Server = Server(
    inbox: seq<Notification>,
    subscribed: set<string>,
    unread: set<string>,
    repoLabels: set<string>,
    issueLabels: set<string>,
    log: seq<Call>,
    faults: map<nat, Error>)

  /** GitHub's answer to creating a label the repository already has. */
  const AlreadyExistsResponse := ErrorResponse(422, [ErrorEntry("already_exists")])

  /** GitHub's answer to removing a label the issue does not carry. */
  const NotFoundResponse := ErrorResponse(404, [])

  function Elements(names: seq<string>): set<string> {
    set x | x in names
  }

  /** The error of a call, if any, and the server after it. */
  datatype Reply = Reply(err: Option<Error>, server: Server)

  /** One API call: it is logged, fails if a fault is injected at its
      position, and otherwise takes effect. */
  function Perform(s: Server, c: Call): (r: Reply)
    ensures r.server.log == s.log + [c] && r.server.faults == s.faults && r.server.inbox == s.inbox
    ensures |s.log| in s.faults ==> r.err == Some(s.faults[|s.log|])
    ensures r.err.Some? ==> r.server == s.(log := s.log + [c])
  {
    var logged := s.(log := s.log + [c]);
    if |s.log| in s.faults then Reply(Some(s.faults[|s.log|]), logged)
    else
      match c
      case ListNotifications(_) => Reply(None, logged)
      case RemoveLabelsForIssue(_, _, _) => Reply(None, logged.(issueLabels := {}))
      case ReplaceLabelsForIssue(_, _, _, names) =>
        Reply(None, logged.(issueLabels := Elements(names), repoLabels := s.repoLabels + Elements(names)))
      case CreateLabel(_, _, l) =>
        if l.name in s.repoLabels then Reply(Some(AlreadyExistsResponse), logged)
        else Reply(None, logged.(repoLabels := s.repoLabels + {l.name}))
      case RemoveLabelForIssue(_, _, _, name) =>
        if name in s.issueLabels then Reply(None, logged.(issueLabels := s.issueLabels - {name}))
        else Reply(Some(NotFoundResponse), logged)
      case AddLabelsToIssue(_, _, _, names) =>
        Reply(None, logged.(issueLabels := s.issueLabels + Elements(names), repoLabels := s.repoLabels + Elements(names)))
      case DeleteThreadSubscription(id) => Reply(None, logged.(subscribed := s.subscribed - {id}))
      case MarkThreadRead(id) => Reply(None, logged.(unread := s.unread - {id}))
  }

  /** The server's own answers are classified as the commands expect, and an
      error that is not a GitHub error response is neither class. */
  lemma ErrorClasses(message: string)
    ensures AlreadyExists(AlreadyExistsResponse) && !IsNotFound(AlreadyExistsResponse)
    ensures IsNotFound(NotFoundResponse) && !AlreadyExists(NotFoundResponse)
    ensures !IsNotFound(OtherError(message)) && !AlreadyExists(OtherError(message))
  {
    assert AlreadyExistsResponse.errors[0].code == "already_exists";
  }

  /** The result of a command: the message it yields and the server after it. */
  datatype Done = Done(msg: Msg, server: Server)

  /** ownerRepo and GetNumber on possibly-nil pointers: nil reads as empty. */
  function OwnerOf(n: Option<Notification>): string {
    if n.Some? then Util.OwnerRepo(n.value).0 else ""
  }

  function RepoOf(n: Option<Notification>): string {
    if n.Some? then Util.OwnerRepo(n.value).1 else ""
  }

  function NumberOf(issue: Option<Issue>): int {
    if issue.Some? then issue.value.number else 0
  }

  // ---------------------------------------------------------------- LoadNotifications

  /** The page size the inbox is fetched with; only the first page is read. */
  const PerPage: int := 100

  function FirstPage(s: Server): seq<Notification> {
    if |s.inbox| <= PerPage then s.inbox else s.inbox[..PerPage]
  }

  predicate IsRelease(n: Notification) {
    n.subject.kind == "Release"
  }

  /** The notifications that are not about a release, in their order. */
  function WithoutReleases(ns: seq<Notification>): (r: seq<Notification>)
    ensures |r| <= |ns|
  {
    if ns == [] then []
    else
      var last := ns[|ns| - 1];
      WithoutReleases(ns[..|ns| - 1]) + (if IsRelease(last) then [] else [last])
  }

  /** LoadNotifications: fetch the first page, then drop the releases in a loop. */
  method LoadNotifications(s: Server) returns (msg: Msg, t: Server)
    ensures t == Perform(s, ListNotifications(PerPage)).server
    ensures msg == match Perform(s, ListNotifications(PerPage)).err
                   case Some(e) => Failed("fetching notifications", e)
                   case None => NotificationsLoaded(WithoutReleases(FirstPage(s)))
  {
    var reply := Perform(s, ListNotifications(PerPage));
    t := reply.server;
    if reply.err.Some? {
      return Failed("fetching notifications", reply.err.value), t;
    }
    var notifications := FirstPage(s);
    var filtered := [];
    var i := 0;
    while i < |notifications|
      invariant 0 <= i <= |notifications|
      invariant filtered == WithoutReleases(notifications[..i])
    {
      assert notifications[..i + 1][..i] == notifications[..i];
      var n := notifications[i];
      if !IsRelease(n) {
        filtered := filtered + [n];
      }
      i := i + 1;
    }
    assert notifications[..i] == notifications;
    msg := NotificationsLoaded(filtered);
  }

  /** Exactly the releases are dropped. */
  lemma {:induction false} WithoutReleasesMembers(ns: seq<Notification>)
    ensures forall n :: n in WithoutReleases(ns) <==> n in ns && !IsRelease(n)
  {
    if ns != [] {
      var init := ns[..|ns| - 1];
      WithoutReleasesMembers(init);
      assert ns == init + [ns[|ns| - 1]];
    }
  }

  /** What is kept keeps its relative order. */
  lemma {:induction false} WithoutReleasesIsSubsequence(ns: seq<Notification>) returns (idx: seq<int>)
    ensures Embedding(WithoutReleases(ns), ns, idx)
  {
    if ns == [] {
      idx := [];
    } else {
      var init, last := ns[..|ns| - 1], ns[|ns| - 1];
      var idx0 := WithoutReleasesIsSubsequence(init);
      EmbeddingSnoc(WithoutReleases(init), init, idx0, last, !IsRelease(last));
      assert init + [last] == ns;
      idx := idx0 + (if IsRelease(last) then [] else [|init|]);
    }
  }

  /** An inbox without releases is delivered whole. */
  lemma {:induction false} WithoutReleasesKeepsOthers(ns: seq<Notification>)
    requires forall k :: 0 <= k < |ns| ==> !IsRelease(ns[k])
    ensures WithoutReleases(ns) == ns
  {
    if ns != [] {
      WithoutReleasesKeepsOthers(ns[..|ns| - 1]);
      assert ns[..|ns| - 1] + [ns[|ns| - 1]] == ns;
    }
  }

  // ---------------------------------------------------------------- UpdateNotificationLabels

  /** UpdateNotificationLabels: an empty selection removes every label, any
      other selection replaces the labels with exactly it. */
  function UpdateNotificationLabels(s: Server, n: Option<Notification>, issue: Option<Issue>, labels: seq<string>): (r: Done)
    ensures r.server.log == s.log + [if labels == [] then RemoveLabelsForIssue(OwnerOf(n), RepoOf(n), NumberOf(issue))
                                     else ReplaceLabelsForIssue(OwnerOf(n), RepoOf(n), NumberOf(issue), labels)]
    ensures r.msg == NotificationLabelsUpdated <==> |s.log| !in s.faults
    ensures r.msg == NotificationLabelsUpdated ==> r.server.issueLabels == Elements(labels)
    ensures r.msg != NotificationLabelsUpdated ==>
      && r.msg == Failed(if labels == [] then "removing labels" else "replacing labels", s.faults[|s.log|])
      && r.server.issueLabels == s.issueLabels
  {
    var owner, repo, number := OwnerOf(n), RepoOf(n), NumberOf(issue);
    if labels == [] then
      var reply := Perform(s, RemoveLabelsForIssue(owner, repo, number));
      assert Elements(labels) == {};
      if reply.err.Some? then Done(Failed("removing labels", reply.err.value), reply.server)
      else Done(NotificationLabelsUpdated, reply.server)
    else
      var reply := Perform(s, ReplaceLabelsForIssue(owner, repo, number, labels));
      if reply.err.Some? then Done(Failed("replacing labels", reply.err.value), reply.server)
      else Done(NotificationLabelsUpdated, reply.server)
  }

  // ---------------------------------------------------------------- UpdateNotificationPriority

  /** The position of the first priority called `name`, or -1. */
  function FirstNamed(ps: seq<Priority>, name: string): (k: int)
    ensures -1 <= k < |ps|
    ensures k >= 0 ==> ps[k].name == name
    ensures forall j :: 0 <= j < |ps| && (k < 0 || j < k) ==> ps[j].name != name
  {
    if ps == [] then -1
    else if ps[0].name == name then 0
    else
      var k := FirstNamed(ps[1..], name);
      assert forall j :: 1 <= j < |ps| ==> ps[j] == ps[1..][j - 1];
      if k < 0 then -1 else k + 1
  }

  /** The priority the command applies: the first configured one with the
      name, or the zero priority. */
  function FindPriority(ps: seq<Priority>, name: string): Priority {
    var k := FirstNamed(ps, name);
    if k < 0 then ZeroPriority else ps[k]
  }

  /** The search loop, with its early exit. */
  method ChoosePriority(ps: seq<Priority>, name: string) returns (priority: Priority)
    ensures priority == FindPriority(ps, name)
  {
    priority := ZeroPriority;
    var i := 0;
    while i < |ps|
      invariant 0 <= i <= |ps|
      invariant forall j :: 0 <= j < i ==> ps[j].name != name
    {
      if ps[i].name == name {
        priority := ps[i];
        break;
      }
      i := i + 1;
    }
  }

  /** The position of the first `x` in `s`, or -1. */
  function IndexOf(s: string, x: char): (i: int)
    ensures -1 <= i < |s|
    ensures i >= 0 ==> s[i] == x
    ensures forall j :: 0 <= j < |s| && (i < 0 || j < i) ==> s[j] != x
  {
    if s == [] then -1
    else if s[0] == x then 0
    else
      var i := IndexOf(s[1..], x);
      assert forall j :: 1 <= j < |s| ==> s[j] == s[1..][j - 1];
      if i < 0 then -1 else i + 1
  }

  /** strings.Replace(color, "#", "", 1): the first '#' is deleted. */
  function StripHash(color: string): string {
    var i := IndexOf(color, '#');
    if i < 0 then color else color[..i] + color[i + 1..]
  }

  /** Only one '#' goes, the first: putting a '#' back at the position of
      the first one gives the color again, so everything else stays in
      order. */
  lemma StripHashDropsFirst(color: string)
    ensures '#' !in color ==> StripHash(color) == color
    ensures '#' in color ==>
      && multiset(StripHash(color)) == multiset(color) - multiset{'#'}
      && color[..IndexOf(color, '#')] <= StripHash(color)
      && '#' !in color[..IndexOf(color, '#')]
    ensures '#' in color ==>
      var i := IndexOf(color, '#');
      color == StripHash(color)[..i] + "#" + StripHash(color)[i..]
  {
    var i := IndexOf(color, '#');
    if i >= 0 {
      var before, after := color[..i], color[i + 1..];
      assert color == before + [color[i]] + after;
      assert StripHash(color)[..i] == before && StripHash(color)[i..] == after;
      assert multiset(color) == multiset(before) + multiset{'#'} + multiset(after);
      assert StripHash(color) == before + after;
      assert multiset(before + after) == multiset(before) + multiset(after);
      forall j | 0 <= j < |before| ensures before[j] != '#' {
        assert before[j] == color[j];
      }
    } else {
      assert forall j :: 0 <= j < |color| ==> color[j] != '#';
    }
  }

  /** The description the priority label is created with. */
  function Description(p: Priority): string {
    p.name + " priority issue."
  }

  /** The label the command asks GitHub to create. */
  function PriorityLabel(p: Priority): NewLabel {
    NewLabel(p.labelName, StripHash(p.color), Description(p))
  }

  function RemoveContext(labelName: string): string {
    "error removing label \"" + labelName + "\""
  }

  /** The state after an unfinished run of calls: the message it aborted
      with, if it did. */
  datatype Run = Run(failure: Option<Msg>, server: Server)

  /** The removal loop: every configured priority label is removed in turn; a
      404 is ignored, any other error ends the loop. */
  function RemovePriorityLabels(s: Server, owner: string, repo: string, number: int, ps: seq<Priority>): Run
    decreases |ps|
  {
    if ps == [] then Run(None, s)
    else
      var reply := Perform(s, RemoveLabelForIssue(owner, repo, number, ps[0].labelName));
      if reply.err.Some? && !IsNotFound(reply.err.value) then
        Run(Some(Failed(RemoveContext(ps[0].labelName), reply.err.value)), reply.server)
      else RemovePriorityLabels(reply.server, owner, repo, number, ps[1..])
  }

  /** UpdateNotificationPriority as a function of the server it starts from:
      create the label (tolerating "already exists"), remove every configured
      priority label, then add the chosen one. */
  function PriorityUpdate(s: Server, config: Config, n: Option<Notification>, issue: Option<Issue>, name: string): Done {
    var owner, repo, number := OwnerOf(n), RepoOf(n), NumberOf(issue);
    var p := FindPriority(config.priorities, name);
    var created := Perform(s, CreateLabel(owner, repo, PriorityLabel(p)));
    if created.err.Some? && !AlreadyExists(created.err.value) then
      Done(Failed("creating priority label", created.err.value), created.server)
    else
      var removed := RemovePriorityLabels(created.server, owner, repo, number, config.priorities);
      if removed.failure.Some? then Done(removed.failure.value, removed.server)
      else
        var added := Perform(removed.server, AddLabelsToIssue(owner, repo, number, [p.labelName]));
        if added.err.Some? then Done(Failed("assigning priority label", added.err.value), added.server)
        else Done(NotificationPriorityUpdated, added.server)
  }

  /** The removal loop of UpdateNotificationPriority, with its early return. */
  method RemoveAll(s: Server, owner: string, repo: string, number: int, ps: seq<Priority>) returns (r: Run)
    ensures r == RemovePriorityLabels(s, owner, repo, number, ps)
  {
    var cur := s;
    var i := 0;
    while i < |ps|
      invariant 0 <= i <= |ps|
      invariant RemovePriorityLabels(s, owner, repo, number, ps) == RemovePriorityLabels(cur, owner, repo, number, ps[i..])
    {
      var labelName := ps[i].labelName;
      var reply := Perform(cur, RemoveLabelForIssue(owner, repo, number, labelName));
      if reply.err.Some? && !IsNotFound(reply.err.value) {
        return Run(Some(Failed(RemoveContext(labelName), reply.err.value)), reply.server);
      }
      assert ps[i..][1..] == ps[i + 1..];
      cur := reply.server;
      i := i + 1;
    }
    return Run(None, cur);
  }

  /** UpdateNotificationPriority. */
  method UpdateNotificationPriority(s: Server, config: Config, n: Option<Notification>, issue: Option<Issue>, name: string)
    returns (msg: Msg, t: Server)
    ensures Done(msg, t) == PriorityUpdate(s, config, n, issue, name)
  {
    var owner, repo, number := OwnerOf(n), RepoOf(n), NumberOf(issue);
    var priority := ChoosePriority(config.priorities, name);
    var color := StripHash(priority.color);
    var desc := Description(priority);
    var created := Perform(s, CreateLabel(owner, repo, NewLabel(priority.labelName, color, desc)));
    if created.err.Some? {
      var exists_ := IsAlreadyExists(created.err.value);
      if !exists_ {
        return Failed("creating priority label", created.err.value), created.server;
      }
    }
    var removed := RemoveAll(created.server, owner, repo, number, config.priorities);
    if removed.failure.Some? {
      return removed.failure.value, removed.server;
    }
    var added := Perform(removed.server, AddLabelsToIssue(owner, repo, number, [priority.labelName]));
    if added.err.Some? {
      return Failed("assigning priority label", added.err.value), added.server;
    }
    return NotificationPriorityUpdated, added.server;
  }

  // ---------------------------------------------------------------- priority properties

  /** The labels of the configured priorities. */
  function ConfiguredLabels(ps: seq<Priority>): set<string> {
    set p | p in ps :: p.labelName
  }

  /** The calls the priority command makes when nothing fails. */
  function Removals(owner: string, repo: string, number: int, ps: seq<Priority>): seq<Call> {
    seq(|ps|, k requires 0 <= k < |ps| => RemoveLabelForIssue(owner, repo, number, ps[k].labelName))
  }

  function PriorityPlan(config: Config, n: Option<Notification>, issue: Option<Issue>, name: string): seq<Call> {
    var owner, repo, number := OwnerOf(n), RepoOf(n), NumberOf(issue);
    var p := FindPriority(config.priorities, name);
    [CreateLabel(owner, repo, PriorityLabel(p))] + Removals(owner, repo, number, config.priorities)
      + [AddLabelsToIssue(owner, repo, number, [p.labelName])]
  }

  /** No 404 is injected: every 404 a command sees is the server's own. */
  predicate NoInjected404(s: Server) {
    forall k :: k in s.faults && |s.log| <= k ==> !IsNotFound(s.faults[k])
  }

  /** No failure is injected into calls from position `from` up to `to`. */
  predicate Clean(s: Server, from: int, to: int) {
    forall k :: from <= k < to ==> k !in s.faults
  }

  /** Removal calls that do not fail by injection never end the loop. */
  lemma {:induction false} RemoveClean(s: Server, owner: string, repo: string, number: int, ps: seq<Priority>, j: nat)
    returns (u: Server)
    requires j <= |ps|
    requires Clean(s, |s.log|, |s.log| + j)
    ensures u.log == s.log + Removals(owner, repo, number, ps)[..j] && u.faults == s.faults
    ensures RemovePriorityLabels(s, owner, repo, number, ps) == RemovePriorityLabels(u, owner, repo, number, ps[j..])
    decreases j
  {
    if j == 0 {
      u := s;
    } else {
      var reply := Perform(s, RemoveLabelForIssue(owner, repo, number, ps[0].labelName));
      assert reply.err.Some? ==> reply.err.value == NotFoundResponse;
      var v := RemoveClean(reply.server, owner, repo, number, ps[1..], j - 1);
      assert Removals(owner, repo, number, ps)[..j]
        == [RemoveLabelForIssue(owner, repo, number, ps[0].labelName)] + Removals(owner, repo, number, ps[1..])[..j - 1];
      assert ps[1..][j - 1..] == ps[j..];
      u := v;
    }
  }

  /** The removal loop's effect when it runs to the end: the configured labels
      are gone and nothing else changed. */
  lemma {:induction false} RemoveEffect(s: Server, owner: string, repo: string, number: int, ps: seq<Priority>)
    requires NoInjected404(s)
    ensures var r := RemovePriorityLabels(s, owner, repo, number, ps);
      r.failure.None? ==> r.server.issueLabels == s.issueLabels - ConfiguredLabels(ps) && r.server.repoLabels == s.repoLabels
    decreases |ps|
  {
    if ps != [] {
      var reply := Perform(s, RemoveLabelForIssue(owner, repo, number, ps[0].labelName));
      RemoveEffect(reply.server, owner, repo, number, ps[1..]);
      assert ConfiguredLabels(ps) == {ps[0].labelName} + ConfiguredLabels(ps[1..]) by {
        assert ps == [ps[0]] + ps[1..];
      }
      if reply.err.Some? && IsNotFound(reply.err.value) {
        assert |s.log| !in s.faults;
        assert ps[0].labelName !in s.issueLabels;
      }
    }
  }

  /** The removal loop makes the planned calls in order and stops after the
      one that fails. */
  lemma {:induction false} RemoveLog(s: Server, owner: string, repo: string, number: int, ps: seq<Priority>)
    returns (j: nat)
    ensures var r := RemovePriorityLabels(s, owner, repo, number, ps);
      && j <= |ps|
      && r.server.log == s.log + Removals(owner, repo, number, ps)[..j]
      && r.server.faults == s.faults
      && (r.failure.None? ==> j == |ps|)
      && (r.failure.Some? ==> j >= 1 && r.failure.value.Failed?)
    decreases |ps|
  {
    if ps == [] {
      j := 0;
    } else {
      var reply := Perform(s, RemoveLabelForIssue(owner, repo, number, ps[0].labelName));
      var call := RemoveLabelForIssue(owner, repo, number, ps[0].labelName);
      if reply.err.Some? && !IsNotFound(reply.err.value) {
        j := 1;
        assert Removals(owner, repo, number, ps)[..1] == [call];
      } else {
        var j0 := RemoveLog(reply.server, owner, repo, number, ps[1..]);
        j := j0 + 1;
        assert Removals(owner, repo, number, ps)[..j]
          == [call] + Removals(owner, repo, number, ps[1..])[..j0];
      }
    }
  }

  /** When no call fails by injection the command succeeds, makes exactly
      the planned calls, and leaves the chosen label as the issue's only
      configured priority label. */
  lemma PriorityFaultFree(s: Server, config: Config, n: Option<Notification>, issue: Option<Issue>, name: string)
    requires forall k :: k in s.faults ==> k < |s.log|
    ensures var r := PriorityUpdate(s, config, n, issue, name);
      var p := FindPriority(config.priorities, name);
      && r.msg == NotificationPriorityUpdated
      && r.server.log == s.log + PriorityPlan(config, n, issue, name)
      && r.server.issueLabels == s.issueLabels - ConfiguredLabels(config.priorities) + {p.labelName}
      && r.server.repoLabels == s.repoLabels + {p.labelName}
  {
    var owner, repo, number, ps := OwnerOf(n), RepoOf(n), NumberOf(issue), config.priorities;
    var p := FindPriority(ps, name);
    var create, add := CreateLabel(owner, repo, PriorityLabel(p)), AddLabelsToIssue(owner, repo, number, [p.labelName]);
    var rem := Removals(owner, repo, number, ps);
    var created := Perform(s, create);
    ErrorClasses("");
    assert created.err.Some? ==> created.err.value == AlreadyExistsResponse;
    assert created.server.issueLabels == s.issueLabels && created.server.repoLabels == s.repoLabels + {p.labelName};
    var u := RemoveClean(created.server, owner, repo, number, ps, |ps|);
    assert ps[|ps|..] == [] && rem[..|ps|] == rem;
    var removed := RemovePriorityLabels(created.server, owner, repo, number, ps);
    assert removed == Run(None, u);
    RemoveEffect(created.server, owner, repo, number, ps);
    var added := Perform(u, add);
    assert added.err.None?;
    assert Elements([p.labelName]) == {p.labelName};
    assert PriorityUpdate(s, config, n, issue, name) == Done(NotificationPriorityUpdated, added.server);
    assert added.server.log == s.log + PriorityPlan(config, n, issue, name) by {
      assert PriorityPlan(config, n, issue, name) == [create] + rem + [add];
    }
  }

  /** Whenever the command succeeds (and every 404 is the server's own), the
      issue keeps its other labels, loses every configured priority label and
      gains the chosen one. */
  lemma PrioritySuccess(s: Server, config: Config, n: Option<Notification>, issue: Option<Issue>, name: string)
    requires NoInjected404(s)
    ensures var r := PriorityUpdate(s, config, n, issue, name);
      r.msg == NotificationPriorityUpdated ==>
        r.server.issueLabels == s.issueLabels - ConfiguredLabels(config.priorities) + {FindPriority(config.priorities, name).labelName}
  {
    var owner, repo, number, ps := OwnerOf(n), RepoOf(n), NumberOf(issue), config.priorities;
    var p := FindPriority(ps, name);
    var created := Perform(s, CreateLabel(owner, repo, PriorityLabel(p)));
    var r := PriorityUpdate(s, config, n, issue, name);
    assert created.server.issueLabels == s.issueLabels;
    if !(created.err.Some? && !AlreadyExists(created.err.value)) {
      var removed := RemovePriorityLabels(created.server, owner, repo, number, ps);
      RemoveEffect(created.server, owner, repo, number, ps);
      if removed.failure.None? {
        var added := Perform(removed.server, AddLabelsToIssue(owner, repo, number, [p.labelName]));
        assert Elements([p.labelName]) == {p.labelName};
        if added.err.None? {
          assert r == Done(NotificationPriorityUpdated, added.server);
          assert added.server.issueLabels == removed.server.issueLabels + {p.labelName};
        } else {
          assert r.msg.Failed?;
        }
      } else {
        assert r == Done(removed.failure.value, removed.server);
        var j := RemoveLog(created.server, owner, repo, number, ps);
      }
    } else {
      assert r.msg.Failed?;
    }
  }

  /** So, when the name is configured, exactly one priority label remains. */
  lemma PriorityLeavesOne(s: Server, config: Config, n: Option<Notification>, issue: Option<Issue>, name: string, k: int)
    requires NoInjected404(s)
    requires 0 <= k < |config.priorities| && config.priorities[k].name == name
    requires PriorityUpdate(s, config, n, issue, name).msg == NotificationPriorityUpdated
    ensures PriorityUpdate(s, config, n, issue, name).server.issueLabels * ConfiguredLabels(config.priorities)
      == {FindPriority(config.priorities, name).labelName}
  {
    PrioritySuccess(s, config, n, issue, name);
    var i := FirstNamed(config.priorities, name);
    assert config.priorities[i] in config.priorities;
  }

  /** The command's calls follow the plan, and every call of the plan is
      made exactly when the command gets past the removals. */
  lemma PriorityCallsFollowPlan(s: Server, config: Config, n: Option<Notification>, issue: Option<Issue>, name: string)
    returns (k: nat)
    ensures var r := PriorityUpdate(s, config, n, issue, name);
      var plan := PriorityPlan(config, n, issue, name);
      && 1 <= k <= |plan|
      && r.server.log == s.log + plan[..k]
      && (r.msg == NotificationPriorityUpdated ==> k == |plan|)
      && (k < |plan| ==> r.msg.Failed?)
  {
    var owner, repo, number, ps := OwnerOf(n), RepoOf(n), NumberOf(issue), config.priorities;
    var p := FindPriority(ps, name);
    var plan := PriorityPlan(config, n, issue, name);
    var create := CreateLabel(owner, repo, PriorityLabel(p));
    var add := AddLabelsToIssue(owner, repo, number, [p.labelName]);
    var rem := Removals(owner, repo, number, ps);
    assert plan == [create] + rem + [add];
    var r := PriorityUpdate(s, config, n, issue, name);
    var created := Perform(s, create);
    assert created.server.log == s.log + [create];
    if created.err.Some? && !AlreadyExists(created.err.value) {
      k := 1;
      assert r == Done(Failed("creating priority label", created.err.value), created.server);
      assert plan[..1] == [create];
    } else {
      var j := RemoveLog(created.server, owner, repo, number, ps);
      var removed := RemovePriorityLabels(created.server, owner, repo, number, ps);
      assert removed.server.log == created.server.log + rem[..j];
      if removed.failure.Some? {
        k := 1 + j;
        assert r == Done(removed.failure.value, removed.server);
        assert plan[..k] == [create] + rem[..j];
        AppendAssoc(s.log, [create], rem[..j]);
      } else {
        k := |plan|;
        assert rem[..j] == rem;
        var added := Perform(removed.server, add);
        assert r.server == added.server;
        assert added.server.log == s.log + [create] + rem + [add];
        assert plan[..k] == plan;
        AppendAssoc3(s.log, [create], rem, [add]);
      }
    }
  }

  // AppendAssoc and AppendAssoc3 only regroup concatenations for the solver
  // inside PriorityCallsFollowPlan; they state no property of the model.
  lemma AppendAssoc<T>(a: seq<T>, b: seq<T>, c: seq<T>)
    ensures a + (b + c) == a + b + c
  {
  }

  lemma AppendAssoc3<T>(a: seq<T>, b: seq<T>, c: seq<T>, d: seq<T>)
    ensures a + (b + c + d) == a + b + c + d
  {
  }

  /** An injected failure of the label creation aborts the command at once
      exactly when it is not "already exists". */
  lemma PriorityCreateFault(s: Server, config: Config, n: Option<Notification>, issue: Option<Issue>, name: string)
    requires |s.log| in s.faults
    ensures var r := PriorityUpdate(s, config, n, issue, name);
      var e := s.faults[|s.log|];
      (|r.server.log| == |s.log| + 1 && r.msg == Failed("creating priority label", e)) <==> !AlreadyExists(e)
  {
    var k := PriorityCallsFollowPlan(s, config, n, issue, name);
    var owner, repo, number, ps := OwnerOf(n), RepoOf(n), NumberOf(issue), config.priorities;
    var p := FindPriority(ps, name);
    var created := Perform(s, CreateLabel(owner, repo, PriorityLabel(p)));
    if AlreadyExists(s.faults[|s.log|]) {
      var j := RemoveLog(created.server, owner, repo, number, ps);
    }
  }

  /** Past a clean label creation and clean earlier removals, an injected
      failure of the removal of the `j`-th configured label aborts the command
      at once exactly when it is not a 404. */
  lemma PriorityRemoveFault(s: Server, config: Config, n: Option<Notification>, issue: Option<Issue>, name: string, j: nat)
    requires j < |config.priorities|
    requires Clean(s, |s.log|, |s.log| + 1 + j) && |s.log| + 1 + j in s.faults
    ensures var r := PriorityUpdate(s, config, n, issue, name);
      var e := s.faults[|s.log| + 1 + j];
      (|r.server.log| == |s.log| + 2 + j && r.msg == Failed(RemoveContext(config.priorities[j].labelName), e))
        <==> !IsNotFound(e)
  {
    var owner, repo, number, ps := OwnerOf(n), RepoOf(n), NumberOf(issue), config.priorities;
    var p := FindPriority(ps, name);
    var created := Perform(s, CreateLabel(owner, repo, PriorityLabel(p)));
    ErrorClasses("");
    assert !(created.err.Some? && !AlreadyExists(created.err.value));
    var u := RemoveClean(created.server, owner, repo, number, ps, j);
    assert |u.log| == |s.log| + 1 + j;
    assert ps[j..][0] == ps[j];
    var e := s.faults[|s.log| + 1 + j];
    var reply := Perform(u, RemoveLabelForIssue(owner, repo, number, ps[j].labelName));
    assert reply.err == Some(e);
    var r := PriorityUpdate(s, config, n, issue, name);
    var removed := RemovePriorityLabels(created.server, owner, repo, number, ps);
    if IsNotFound(e) {
      assert removed == RemovePriorityLabels(reply.server, owner, repo, number, ps[j..][1..]);
      var i := RemoveLog(reply.server, owner, repo, number, ps[j..][1..]);
      assert |removed.server.log| >= |s.log| + 2 + j;
      if removed.failure.None? {
        assert |removed.server.log| + 1 == |r.server.log|;
      } else {
        assert r.server == removed.server;
      }
    } else {
      assert removed == Run(Some(Failed(RemoveContext(ps[j].labelName), e)), reply.server);
      assert r == Done(removed.failure.value, removed.server);
    }
  }

  /** With the default priorities, "High" creates "Priority: High" with the
      color stripped of its '#'. */
  lemma DefaultHighLabel()
    ensures PriorityLabel(FindPriority(DefaultPriorities, "High"))
      == NewLabel("Priority: High", "532BE3", "High priority issue.")
  {
    DefaultHighIndex();
    var p := DefaultPriorities[2];
    assert p == Priority("High", "Priority: High", "#532BE3");
    assert Description(p) == "High priority issue.";
    DefaultColorStripped();
  }

  /** "High" is the third default priority. */
  lemma DefaultHighIndex()
    ensures FindPriority(DefaultPriorities, "High") == DefaultPriorities[2]
  {
    var ps := DefaultPriorities;
    var t := ps[1..];
    assert |ps[0].name| != |"High"|;
    assert |t[0].name| != |"High"|;
    assert t[1..] == [ps[2]];
    assert FirstNamed([ps[2]], "High") == 0;
    assert FirstNamed(t, "High") == 1;
    assert FirstNamed(ps, "High") == 2;
  }

  lemma DefaultColorStripped()
    ensures StripHash("#532BE3") == "532BE3"
  {
    assert "#532BE3"[0] == '#';
    assert IndexOf("#532BE3", '#') == 0;
    assert "#532BE3"[..0] + "#532BE3"[1..] == "532BE3";
  }

  /** An unknown name falls back to the zero priority: the created label has
      an empty name and color. */
  lemma UnknownPriorityLabel()
    ensures FindPriority(DefaultPriorities, "Urgent") == ZeroPriority
    ensures PriorityLabel(ZeroPriority) == NewLabel("", "", " priority issue.")
  {
    var ps := DefaultPriorities;
    assert ps[1..][1..] == [ps[2]];
    assert FirstNamed(ps, "Urgent") == -1;
    assert IndexOf("", '#') == -1;
  }

  // ---------------------------------------------------------------- Unsubscribe

  /** Unsubscribe: delete the thread subscription, then mark the thread
      read; the first failure ends the command. */
  function Unsubscribe(s: Server, n: Notification): (r: Done)
    ensures |s.log| in s.faults ==>
      r == Done(Failed("removing thread subscription", s.faults[|s.log|]), s.(log := s.log + [DeleteThreadSubscription(n.id)]))
    ensures |s.log| !in s.faults && |s.log| + 1 in s.faults ==>
      && r.msg == Failed("marking thread as read", s.faults[|s.log| + 1])
      && r.server.subscribed == s.subscribed - {n.id} && r.server.unread == s.unread
    ensures r.msg == Unsubscribed(n) <==> |s.log| !in s.faults && |s.log| + 1 !in s.faults
    ensures r.msg == Unsubscribed(n) ==>
      && r.server.log == s.log + [DeleteThreadSubscription(n.id), MarkThreadRead(n.id)]
      && r.server.subscribed == s.subscribed - {n.id} && r.server.unread == s.unread - {n.id}
  {
    var deleted := Perform(s, DeleteThreadSubscription(n.id));
    if deleted.err.Some? then Done(Failed("removing thread subscription", deleted.err.value), deleted.server)
    else
      var read := Perform(deleted.server, MarkThreadRead(n.id));
      if read.err.Some? then Done(Failed("marking thread as read", read.err.value), read.server)
      else Done(Unsubscribed(n), read.server)
  }
}
