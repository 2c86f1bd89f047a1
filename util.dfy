/** util.go: the search filter over notifications, the owner/repository
    accessor and integer helpers. */
module Util {
  import opened Entities
  import opened Seqs

  /** `sub` occurs in `text` starting at position `i`. */
  predicate OccursAt(text: string, sub: string, i: int) {
    0 <= i <= |text| - |sub| && text[i..i + |sub|] == sub
  }

  /** Case-sensitive substring test (strings.Contains). */
  predicate Contains(text: string, sub: string) {
    exists i :: 0 <= i <= |text| - |sub| && OccursAt(text, sub, i)
  }

  /** The search text matches a notification when it occurs in the
      repository's full name ("owner/name"). */
  predicate MatchesSearch(n: Notification, s: string) {
    Contains(n.repository.fullName, s)
  }

  /** The notifications the search text `s` keeps, in their original order. */
  function Filtered(ns: seq<Notification>, s: string): (r: seq<Notification>)
    ensures |r| <= |ns|
  {
    if ns == [] then []
    else
      var last := ns[|ns| - 1];
      Filtered(ns[..|ns| - 1], s) + (if MatchesSearch(last, s) then [last] else [])
  }

  /** The loop of filterNotifications. */
  method FilterNotifications(notifications: seq<Notification>, s: string) returns (filtered: seq<Notification>)
    ensures filtered == Filtered(notifications, s)
  {
    filtered := [];
    var i := 0;
    while i < |notifications|
      invariant 0 <= i <= |notifications|
      invariant filtered == Filtered(notifications[..i], s)
    {
      assert notifications[..i + 1][..i] == notifications[..i];
      var n := notifications[i];
      if MatchesSearch(n, s) {
        filtered := filtered + [n];
      }
      i := i + 1;
    }
    assert notifications[..i] == notifications;
  }

  /** The filter keeps exactly the matching notifications. */
  lemma {:induction false} FilteredMembers(ns: seq<Notification>, s: string)
    ensures forall n :: n in Filtered(ns, s) <==> n in ns && MatchesSearch(n, s)
  {
    if ns != [] {
      var init := ns[..|ns| - 1];
      FilteredMembers(init, s);
      assert ns == init + [ns[|ns| - 1]];
    }
  }

  /** The filter result is a subsequence of its input: it keeps the relative
      order of what it keeps. */
  lemma {:induction false} FilteredIsSubsequence(ns: seq<Notification>, s: string) returns (idx: seq<int>)
    ensures Embedding(Filtered(ns, s), ns, idx)
  {
    if ns == [] {
      idx := [];
    } else {
      var init := ns[..|ns| - 1];
      var last := ns[|ns| - 1];
      var idx0 := FilteredIsSubsequence(init, s);
      EmbeddingSnoc(Filtered(init, s), init, idx0, last, MatchesSearch(last, s));
      assert init + [last] == ns;
      idx := idx0 + (if MatchesSearch(last, s) then [|init|] else []);
    }
  }

  /** A filter that every notification passes keeps the whole list. */
  lemma {:induction false} FilteredAllMatch(ns: seq<Notification>, s: string)
    requires forall k :: 0 <= k < |ns| ==> MatchesSearch(ns[k], s)
    ensures Filtered(ns, s) == ns
  {
    if ns != [] {
      FilteredAllMatch(ns[..|ns| - 1], s);
      assert ns[..|ns| - 1] + [ns[|ns| - 1]] == ns;
    }
  }

  /** The empty search keeps every notification. */
  lemma FilteredEmptySearch(ns: seq<Notification>)
    ensures Filtered(ns, "") == ns
  {
    forall k | 0 <= k < |ns| ensures MatchesSearch(ns[k], "") {
      assert OccursAt(ns[k].repository.fullName, "", 0);
    }
    FilteredAllMatch(ns, "");
  }

  /** Filtering twice with the same text is filtering once. */
  lemma FilteredIdempotent(ns: seq<Notification>, s: string)
    ensures Filtered(Filtered(ns, s), s) == Filtered(ns, s)
  {
    var f := Filtered(ns, s);
    FilteredMembers(ns, s);
    forall k | 0 <= k < |f| ensures MatchesSearch(f[k], s) {
      assert f[k] in f;
    }
    FilteredAllMatch(f, s);
  }

  /** The owner's login and the repository name of a notification. */
  function OwnerRepo(n: Notification): (string, string) {
    (n.repository.owner.login, n.repository.name)
  }

  function Min(a: int, b: int): (r: int)
    ensures r <= a && r <= b && (r == a || r == b)
  {
    if a < b then a else b
  }

  function Max(a: int, b: int): (r: int)
    ensures r >= a && r >= b && (r == a || r == b)
  {
    if a > b then a else b
  }

  /** Go's integer division, which truncates toward zero (Dafny's `/` is
      Euclidean). */
  function Quot(a: int, b: int): (r: int)
    requires b > 0
    ensures a >= 0 ==> 0 <= r && 0 <= a - r * b < b
    ensures a < 0 ==> r <= 0 && -b < a - r * b <= 0
  {
    if a >= 0 then a / b else -((-a) / b)
  }
}
