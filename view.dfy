/** view.go, the rendering engine: the pieces a page is written with, the
    line window with a sticky header (viewport, bounded), the bottom bar
    (menu), centered messages, and the recency order of the list. */
module Layout {
  import opened Entities
  import opened Util
  import opened Text

  /** A shortcut shown in the bottom bar. */
  datatype ShortcutKey = ShortcutKey(key: string, help: string)

  /** A piece of one line of output. Literal text is `Lit`; the others are
      produced by libraries the model treats as opaque (bold text, relative
      times, the input widget, colored label chips, the horizontal rule and
      the shortcut bar). No piece contains a line break. */
  datatype Piece =
    | Lit(s: string)
    | Bold(s: string)
    | Humanized(time: int)
    | InputView(input: InputModel)
    | LabelChip(name: string, color: string)
    | Rule
    | Shortcuts(keys: seq<ShortcutKey>)

  type Line = seq<Piece>
  type Buffer = seq<Token<Piece>>

  /** What View returns: the text, or the run-time panic rendering hit. */
  datatype Frame = Rendered(text: Buffer) | Panicked(reason: string)

  /** `Fprintf(w, "...\r\n")`: one line and its line break. */
  function Ln(l: Line): Buffer {
    Chunks(l) + [NL]
  }

  /** Writing one more line is terminating one more line. */
  lemma LnAppend(ls: seq<Line>, l: Line)
    ensures Terminated(ls + [l]) == Terminated(ls) + Ln(l)
  {
    TerminatedAppend(ls, l);
  }

  function Spaces(n: nat): (r: string)
    ensures |r| == n && forall k :: 0 <= k < n ==> r[k] == ' '
  {
    seq(n, _ => ' ')
  }

  // ---------------------------------------------------------------------
  // bounded and viewport

  /** `max(0, min(x, n))`. */
  function Clamp(x: int, n: nat): (r: nat)
    ensures r <= n
    ensures 0 <= x <= n ==> r == x
  {
    Max(0, Min(x, n))
  }

  /** bounded does not panic: the clamped bounds are in order. */
  predicate BoundedOk(n: nat, from: int, to: int) {
    Clamp(from, n) <= Clamp(to, n)
  }

  /** bounded: `s[from:to]` with both bounds clamped into [0, |s|]. */
  function Bounded<T>(s: seq<T>, from: int, to: int): (r: seq<T>)
    requires BoundedOk(|s|, from, to)
    ensures |r| == Clamp(to, |s|) - Clamp(from, |s|)
    ensures forall k :: 0 <= k < |r| ==> r[k] == s[Clamp(from, |s|) + k]
    ensures 0 <= from <= to <= |s| ==> r == s[from..to]
  {
    s[Clamp(from, |s|)..Clamp(to, |s|)]
  }

  /** viewport does not panic on these lines. */
  predicate ViewportOk(n: nat, scroll: int, height: int, offset: int) {
    0 <= offset <= n && BoundedOk(n - offset, scroll, scroll + height - offset)
  }

  /** The lines viewport keeps: the first `offset` lines, then the window of
      the rest that starts `scroll` lines down and is `height - offset`
      lines tall. */
  function ViewportLines(lines: seq<Line>, scroll: int, height: int, offset: int): (r: seq<Line>)
    requires ViewportOk(|lines|, scroll, height, offset)
    ensures |r| <= |lines|
    ensures |r| >= offset && r[..offset] == lines[..offset]
    ensures height >= offset ==> |r| <= height
    ensures offset + Clamp(scroll, |lines| - offset) + (|r| - offset) <= |lines|
    ensures forall k :: offset <= k < |r| ==> r[k] == lines[offset + Clamp(scroll, |lines| - offset) + (k - offset)]
  {
    var rest := lines[offset..];
    lines[..offset] + Bounded(rest, scroll, scroll + height - offset)
  }

  /** viewport on a rendered buffer. Slicing past the end of the lines, or a
      window whose clamped end is before its start, panics. */
  function Viewport(s: Buffer, scroll: int, height: int, offset: int): (r: Frame)
    ensures r.Rendered? <==> ViewportOk(|Split(s)|, scroll, height, offset)
  {
    var lines := Split(s);
    if ViewportOk(|lines|, scroll, height, offset) then Rendered(Join(ViewportLines(lines, scroll, height, offset)))
    else Panicked("slice bounds out of range")
  }

  /** A viewport at least as tall as its sticky header never panics on
      lines that hold the header. */
  lemma ViewportTotal(n: nat, scroll: int, height: int, offset: int)
    requires 0 <= offset <= n && height >= offset
    ensures ViewportOk(n, scroll, height, offset)
  {
  }

  /** A viewport too short for its sticky header panics once the window
      start lies inside the rest of the lines. */
  lemma ViewportPanicsWhenShort(n: nat, scroll: int, height: int, offset: int)
    requires 0 <= offset <= n && height < offset && 0 < scroll <= n - offset
    ensures !ViewportOk(n, scroll, height, offset)
  {
  }

  /** What viewport renders, read back as lines: the sticky header, then the
      window. */
  lemma ViewportShows(s: Buffer, scroll: int, height: int, offset: int)
    requires ViewportOk(|Split(s)|, scroll, height, offset)
    ensures var v := ViewportLines(Split(s), scroll, height, offset);
      Viewport(s, scroll, height, offset) == Rendered(Join(v)) && (v != [] ==> Split(Join(v)) == v)
  {
    var v := ViewportLines(Split(s), scroll, height, offset);
    if v != [] {
      SplitJoin(v);
    }
  }

  // ---------------------------------------------------------------------
  // menu

  /** The lines of the screen with the bottom bar: the lines padded with
      empty ones up to `height`, then the second-last line replaced by
      `width` spaces and the last by the shortcut bar. */
  function MenuLines(lines: seq<Line>, height: int, width: nat, keys: seq<ShortcutKey>): (r: seq<Line>)
    requires Max(|lines|, height) >= 2
    ensures |r| == Max(|lines|, height)
    ensures forall k :: 0 <= k < |r| - 2 ==> r[k] == if k < |lines| then lines[k] else []
    ensures r[|r| - 2] == [Lit(Spaces(width))] && r[|r| - 1] == [Shortcuts(keys)]
  {
    var padded := lines + seq(Max(0, height - |lines|), _ => []);
    padded[..|padded| - 2] + [[Lit(Spaces(width))], [Shortcuts(keys)]]
  }

  /** menu: nothing on a zero-height screen; a panic when the width is
      negative (strings.Repeat) or when fewer than two lines remain after
      padding (index -1); otherwise the lines with the bottom bar. */
  function MenuFrame(lines: seq<Line>, height: int, width: int, keys: seq<ShortcutKey>): Frame {
    if height == 0 then Rendered([])
    else if width < 0 then Panicked("negative Repeat count")
    else if Max(|lines|, height) < 2 then Panicked("index out of range")
    else Rendered(Join(MenuLines(lines, height, width, keys)))
  }

  /** menu, with its padding loop. */
  method Menu(s: Buffer, height: int, width: int, keys: seq<ShortcutKey>) returns (r: Frame)
    ensures r == MenuFrame(Split(s), height, width, keys)
  {
    if height == 0 {
      return Rendered([]);
    }
    var lines := Split(s);
    var i := |lines|;
    while i < height
      invariant |Split(s)| <= i <= Max(height, |Split(s)|) && |lines| == i
      invariant lines == Split(s) + seq(|lines| - |Split(s)|, _ => [])
    {
      lines := lines + [[]];
      i := i + 1;
    }
    assert |lines| == Max(|Split(s)|, height);
    if width < 0 {
      return Panicked("negative Repeat count");
    }
    if |lines| < 2 {
      return Panicked("index out of range");
    }
    lines := lines[|lines| - 2 := [Lit(Spaces(width))]];
    lines := lines[|lines| - 1 := [Shortcuts(keys)]];
    assert lines == MenuLines(Split(s), height, width, keys);
    r := Rendered(Join(lines));
  }

  /** A scrolling page: the viewport, then the bottom bar on what it keeps. */
  function ScrolledFrame(s: Buffer, scroll: int, height: int, width: int, offset: int, keys: seq<ShortcutKey>): Frame {
    match Viewport(s, scroll, height, offset)
    case Panicked(why) => Panicked(why)
    case Rendered(v) => MenuFrame(Split(v), height, width, keys)
  }

  /** `s := viewport(...)` then `s = menu(s, ...)`; a panic in the viewport
      ends the rendering. */
  method ViewportThenMenu(s: Buffer, scroll: int, height: int, width: int, offset: int, keys: seq<ShortcutKey>)
    returns (r: Frame)
    ensures r == ScrolledFrame(s, scroll, height, width, offset, keys)
  {
    var v := Viewport(s, scroll, height, offset);
    if v.Panicked? {
      return v;
    }
    r := Menu(v.text, height, width, keys);
  }

  // ---------------------------------------------------------------------
  // centered and loading

  /** The number of bytes of the UTF-8 encoding of `s` (Go's len). */
  function Utf8Len(s: string): (r: nat)
    ensures r >= |s|
  {
    if s == [] then 0
    else
      var c := s[|s| - 1] as int;
      Utf8Len(s[..|s| - 1]) + (if c < 0x80 then 1 else if c < 0x800 then 2 else if c < 0x10000 then 3 else 4)
  }

  /** ASCII text takes one byte per character. */
  lemma {:induction false} Utf8LenAscii(s: string)
    requires forall k :: 0 <= k < |s| ==> s[k] as int < 0x80
    ensures Utf8Len(s) == |s|
  {
    if s != [] {
      Utf8LenAscii(s[..|s| - 1]);
    }
  }

  /** One more character adds its encoded length. */
  lemma Utf8LenSnoc(s: string, c: char)
    ensures Utf8Len(s + [c]) == Utf8Len(s) + (if c as int < 0x80 then 1 else if c as int < 0x800 then 2 else if c as int < 0x10000 then 3 else 4)
  {
    assert (s + [c])[..|s|] == s;
  }

  /** centered: `height/2 - 1` line breaks, then `width/2 - len(s)/2`
      spaces, then the text; strings.Repeat panics on a negative count. */
  function Centered(height: int, width: int, s: string): (r: Frame)
    ensures r.Rendered? <==> height >= 2 && Quot(width, 2) >= Quot(Utf8Len(s), 2)
  {
    var ny := Quot(height, 2) - 1;
    var nx := Quot(width, 2) - Quot(Utf8Len(s), 2);
    if ny < 0 || nx < 0 then Panicked("negative Repeat count")
    else Rendered(seq(ny, _ => NL) + [Chunk(Lit(Spaces(nx))), Chunk(Lit(s))])
  }

  /** The text is drawn on line height/2 - 1, after the spaces that center it. */
  lemma CenteredLines(height: int, width: int, s: string)
    requires Centered(height, width, s).Rendered?
    ensures var ls := Split(Centered(height, width, s).text);
      |ls| == Quot(height, 2) && ls[|ls| - 1] == [Lit(Spaces(Quot(width, 2) - Quot(Utf8Len(s), 2))), Lit(s)]
  {
    var ny := Quot(height, 2) - 1;
    var nx := Quot(width, 2) - Quot(Utf8Len(s), 2);
    var last := [Lit(Spaces(nx)), Lit(s)];
    var blank: seq<Line> := seq(ny, _ => []);
    var text := Centered(height, width, s).text;
    assert text == seq(ny, _ => NL) + [Chunk(Lit(Spaces(nx))), Chunk(Lit(s))];
    TerminatedBlank<Piece>(ny);
    assert Chunks(last) == [Chunk(Lit(Spaces(nx))), Chunk(Lit(s))];
    assert text == Terminated(blank) + Chunks(last);
    SplitTerminated(blank, Chunks(last));
    SplitChunks(last);
    assert Split(text) == blank + [last];
  }

  /** loading: nothing on a zero-height screen, else "Loading" centered. */
  function Loading(height: int, width: int): Frame {
    if height == 0 then Rendered([]) else Centered(height, width, "Loading")
  }

  // ---------------------------------------------------------------------
  // The recency order of the list

  /** Most recently updated first. */
  predicate RecentFirst(ns: seq<Notification>) {
    forall i, j :: 0 <= i < j < |ns| ==> ns[i].updatedAt >= ns[j].updatedAt
  }

  function Insert(n: Notification, ns: seq<Notification>): (r: seq<Notification>)
    requires RecentFirst(ns)
    ensures RecentFirst(r) && multiset(r) == multiset(ns) + multiset{n}
  {
    if ns == [] then [n]
    else if n.updatedAt >= ns[0].updatedAt then [n] + ns
    else
      var rest := Insert(n, ns[1..]);
      assert ns == [ns[0]] + ns[1..];
      HeadIsMostRecent(ns, n, rest);
      [ns[0]] + rest
  }

  /** The head of a recent-first list is at least as recent as anything the
      insertion into its tail produces. */
  lemma HeadIsMostRecent(ns: seq<Notification>, n: Notification, rest: seq<Notification>)
    requires ns != [] && RecentFirst(ns) && RecentFirst(rest) && n.updatedAt < ns[0].updatedAt
    requires multiset(rest) == multiset(ns[1..]) + multiset{n}
    ensures RecentFirst([ns[0]] + rest)
  {
    forall k | 0 <= k < |rest| ensures rest[k].updatedAt <= ns[0].updatedAt {
      assert rest[k] in multiset(rest);
      if rest[k] != n {
        assert rest[k] in multiset(ns[1..]);
        var j :| 0 <= j < |ns[1..]| && ns[1..][j] == rest[k];
        assert ns[j + 1] == rest[k];
      }
    }
  }

  /** The order `sort.Slice` leaves the list in, by an insertion sort: the
      comparator puts the most recently updated first. sort.Slice is not
      stable; this model fixes one of the orders it may produce. */
  function SortByRecency(ns: seq<Notification>): (r: seq<Notification>)
    ensures RecentFirst(r) && multiset(r) == multiset(ns)
  {
    if ns == [] then []
    else
      assert ns == [ns[0]] + ns[1..];
      Insert(ns[0], SortByRecency(ns[1..]))
  }
}
