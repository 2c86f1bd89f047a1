/** Rendered text as a buffer of one-line pieces and line breaks ("\r\n"),
    with strings.Split and strings.Join on the line break. A piece never
    contains a line break, so splitting and joining are exact inverses. */
module Text {

  /** A buffer element: a line break, or a piece of text within a line. */
  datatype Token<P> = NL | Chunk(piece: P)

  /** The pieces of one line, as tokens. */
  function Chunks<P>(l: seq<P>): (r: seq<Token<P>>)
    ensures |r| == |l|
  {
    if l == [] then [] else Chunks(l[..|l| - 1]) + [Chunk(l[|l| - 1])]
  }

  /** Each line followed by a line break: what a run of `Fprintf(w, "...\r\n")`
      calls writes. */
  function Terminated<P>(ls: seq<seq<P>>): seq<Token<P>> {
    if ls == [] then [] else Terminated(ls[..|ls| - 1]) + Chunks(ls[|ls| - 1]) + [NL]
  }

  /** strings.Join(lines, "\r\n"). */
  function Join<P>(ls: seq<seq<P>>): seq<Token<P>> {
    if ls == [] then [] else Terminated(ls[..|ls| - 1]) + Chunks(ls[|ls| - 1])
  }

  /** strings.Split(s, "\r\n"): the text between consecutive line breaks;
      never empty. */
  function Split<P>(ts: seq<Token<P>>): (r: seq<seq<P>>)
    ensures |r| >= 1
  {
    if ts == [] then [[]]
    else
      var init := Split(ts[..|ts| - 1]);
      match ts[|ts| - 1]
      case NL => init + [[]]
      case Chunk(p) => init[..|init| - 1] + [init[|init| - 1] + [p]]
  }

  /** A buffer with no line break is a single line. */
  lemma {:induction false} SplitChunks<P>(l: seq<P>)
    ensures Split(Chunks(l)) == [l]
  {
    if l != [] {
      var n := |l| - 1;
      var ts := Chunks(l);
      SplitChunks(l[..n]);
      assert ts[..n] == Chunks(l[..n]);
      assert ts[n] == Chunk(l[n]);
      assert Split(ts) == [l[..n] + [l[n]]];
      assert l[..n] + [l[n]] == l;
    }
  }

  /** Split on a buffer with one more token at its end. */
  lemma SplitSnoc<P>(ts: seq<Token<P>>, t: Token<P>)
    ensures var s := Split(ts);
      Split(ts + [t]) == if t.NL? then s + [[]] else s[..|s| - 1] + [s[|s| - 1] + [t.piece]]
  {
    assert (ts + [t])[..|ts|] == ts;
  }

  /** Splitting at a line break splits the two sides independently. */
  lemma {:induction false} SplitAtBreak<P>(a: seq<Token<P>>, b: seq<Token<P>>)
    ensures Split(a + [NL] + b) == Split(a) + Split(b)
  {
    if b == [] {
      assert a + [NL] + b == a + [NL];
      SplitSnoc(a, NL);
    } else {
      var init, t := b[..|b| - 1], b[|b| - 1];
      assert b == init + [t];
      assert a + [NL] + b == (a + [NL] + init) + [t];
      SplitAtBreak(a, init);
      SplitSnoc(a + [NL] + init, t);
      SplitSnoc(init, t);
      SnocLastLine(Split(a), Split(init), t);
    }
  }

  /** The line arithmetic behind SplitAtBreak. */
  lemma SnocLastLine<P>(x: seq<seq<P>>, y: seq<seq<P>>, t: Token<P>)
    requires |y| >= 1
    ensures var xy := x + y;
      (if t.NL? then xy + [[]] else xy[..|xy| - 1] + [xy[|xy| - 1] + [t.piece]])
      == x + (if t.NL? then y + [[]] else y[..|y| - 1] + [y[|y| - 1] + [t.piece]])
  {
    if !t.NL? {
      var xy := x + y;
      assert xy[..|xy| - 1] == x + y[..|y| - 1];
    }
  }

  lemma TerminatedAppend<P>(ls: seq<seq<P>>, l: seq<P>)
    ensures Terminated(ls + [l]) == Terminated(ls) + Chunks(l) + [NL]
  {
    assert (ls + [l])[..|ls|] == ls;
  }

  /** Terminated distributes over concatenation of line lists. */
  lemma {:induction false} TerminatedConcat<P>(a: seq<seq<P>>, b: seq<seq<P>>)
    ensures Terminated(a + b) == Terminated(a) + Terminated(b)
  {
    if b == [] {
      assert a + b == a;
    } else {
      var init, last := b[..|b| - 1], b[|b| - 1];
      assert b == init + [last];
      assert a + b == (a + init) + [last];
      calc {
        Terminated(a + b);
        Terminated((a + init) + [last]);
        { TerminatedAppend(a + init, last); }
        Terminated(a + init) + Chunks(last) + [NL];
        { TerminatedConcat(a, init); }
        Terminated(a) + Terminated(init) + Chunks(last) + [NL];
        { TerminatedAppend(init, last); }
        Terminated(a) + Terminated(init + [last]);
        Terminated(a) + Terminated(b);
      }
    }
  }

  /** Terminated lines come out of Split one by one, ahead of whatever
      follows them. */
  lemma {:induction false} SplitTerminated<P>(ls: seq<seq<P>>, rest: seq<Token<P>>)
    ensures Split(Terminated(ls) + rest) == ls + Split(rest)
  {
    if ls == [] {
      assert Terminated(ls) + rest == rest;
    } else {
      var init, last := ls[..|ls| - 1], ls[|ls| - 1];
      assert ls == init + [last];
      calc {
        Split(Terminated(ls) + rest);
        { TerminatedAppend(init, last);
          assert Terminated(ls) + rest == Terminated(init) + Chunks(last) + [NL] + rest; }
        Split(Terminated(init) + Chunks(last) + [NL] + rest);
        { SplitAtBreak(Terminated(init) + Chunks(last), rest); }
        Split(Terminated(init) + Chunks(last)) + Split(rest);
        { SplitTerminated(init, Chunks(last)); SplitChunks(last); }
        init + [last] + Split(rest);
        ls + Split(rest);
      }
    }
  }

  /** Join then Split gives the lines back. */
  lemma SplitJoin<P>(ls: seq<seq<P>>)
    requires ls != []
    ensures Split(Join(ls)) == ls
  {
    var init, last := ls[..|ls| - 1], ls[|ls| - 1];
    SplitTerminated(init, Chunks(last));
    SplitChunks(last);
    assert init + [last] == ls;
  }

  lemma JoinSnoc<P>(ls: seq<seq<P>>, l: seq<P>)
    ensures Join(ls + [l]) == Terminated(ls) + Chunks(l)
  {
    assert (ls + [l])[..|ls|] == ls;
  }

  lemma ChunksSnoc<P>(l: seq<P>, p: P)
    ensures Chunks(l + [p]) == Chunks(l) + [Chunk(p)]
  {
    assert (l + [p])[..|l|] == l;
  }

  lemma {:induction false} ChunksIndex<P>(l: seq<P>)
    ensures forall k :: 0 <= k < |l| ==> Chunks(l)[k] == Chunk(l[k])
  {
    if l != [] {
      ChunksIndex(l[..|l| - 1]);
    }
  }

  /** Chunks distributes over concatenation. */
  lemma ChunksConcat<P>(a: seq<P>, b: seq<P>)
    ensures Chunks(a + b) == Chunks(a) + Chunks(b)
  {
    var l, r := Chunks(a + b), Chunks(a) + Chunks(b);
    ChunksIndex(a + b); ChunksIndex(a); ChunksIndex(b);
    assert |l| == |r|;
    forall k | 0 <= k < |l| ensures l[k] == r[k] {
      if k < |a| {
        assert (a + b)[k] == a[k];
      } else {
        assert (a + b)[k] == b[k - |a|];
      }
    }
  }

  /** Split then Join gives the buffer back. */
  lemma {:induction false} JoinSplit<P>(ts: seq<Token<P>>)
    ensures Join(Split(ts)) == ts
  {
    if ts != [] {
      var init, t := ts[..|ts| - 1], ts[|ts| - 1];
      assert ts == init + [t];
      JoinSplit(init);
      JoinSplitSnoc(init, t);
    }
  }

  /** The inductive step of JoinSplit. */
  lemma JoinSplitSnoc<P>(init: seq<Token<P>>, t: Token<P>)
    requires Join(Split(init)) == init
    ensures Join(Split(init + [t])) == init + [t]
  {
    SplitSnoc(init, t);
    var s := Split(init);
    var n := |s| - 1;
    assert s == s[..n] + [s[n]];
    JoinSnoc(s[..n], s[n]);
    if t.NL? {
      BreakStep(s);
    } else {
      ChunkStep(s, t.piece);
    }
  }

  lemma BreakStep<P>(s: seq<seq<P>>)
    requires s != []
    ensures Join(s + [[]]) == Join(s) + [NL]
  {
    var n := |s| - 1;
    assert s == s[..n] + [s[n]];
    JoinSnoc(s, []);
    JoinSnoc(s[..n], s[n]);
    TerminatedAppend(s[..n], s[n]);
  }

  lemma ChunkStep<P>(s: seq<seq<P>>, p: P)
    requires s != []
    ensures Join(s[..|s| - 1] + [s[|s| - 1] + [p]]) == Join(s) + [Chunk(p)]
  {
    var n := |s| - 1;
    assert s == s[..n] + [s[n]];
    JoinSnoc(s[..n], s[n]);
    JoinSnoc(s[..n], s[n] + [p]);
    ChunksSnoc(s[n], p);
  }

  /** `n` empty lines, terminated, are `n` line breaks. */
  lemma {:induction false} TerminatedBlank<P>(n: nat)
    ensures Terminated(seq<seq<P>>(n, _ => [])) == seq(n, _ => NL)
  {
    if n > 0 {
      TerminatedBlank<P>(n - 1);
      assert seq<seq<P>>(n, _ => [])[..n - 1] == seq<seq<P>>(n - 1, _ => []);
      assert seq<Token<P>>(n, _ => NL) == seq<Token<P>>(n - 1, _ => NL) + [NL];
    }
  }

  /** The number of lines of a buffer is one more than its line breaks. */
  function Breaks<P>(ts: seq<Token<P>>): nat {
    if ts == [] then 0 else Breaks(ts[..|ts| - 1]) + (if ts[|ts| - 1] == NL then 1 else 0)
  }

  lemma {:induction false} SplitLength<P>(ts: seq<Token<P>>)
    ensures |Split(ts)| == Breaks(ts) + 1
  {
    if ts != [] {
      SplitLength(ts[..|ts| - 1]);
    }
  }
}
