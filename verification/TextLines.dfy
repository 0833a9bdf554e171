/** Splitting text on line feeds, as the two log paths of the runner do it.

    A `char` stands for one byte.  `Complete` holds the segments that a line feed has
    ended, `Rest` what is left after the last line feed; `SplitRebuilds` and `SplitUnique`
    show that the two are the only such decomposition, and `SplitAppend` is the law on
    which independence of chunking rests.
 */
module TextLines {
  import opened Wrappers

  const LF: char := '\n'
  const CR: char := '\r'

  function Last(s: string): char
    requires s != []
  {
    s[|s| - 1]
  }

  function Init(s: string): string
    requires s != []
  {
    s[..|s| - 1]
  }

  /** The segments of `s` that a line feed has ended. */
  function Complete(s: string): seq<string> {
    if s == [] then [] else if Last(s) == LF then Complete(Init(s)) + [Rest(Init(s))] else Complete(Init(s))
  }

  /** What follows the last line feed of `s`. */
  function Rest(s: string): (r: string)
    ensures LF !in r
  {
    if s == [] || Last(s) == LF then [] else Rest(Init(s)) + [Last(s)]
  }

  /** strings.IndexByte(s, '\n') */
  function IndexLF(s: string): (i: int)
    ensures -1 <= i < |s|
    ensures i >= 0 ==> s[i] == LF && LF !in s[..i]
    ensures i < 0 ==> LF !in s
  {
    if s == [] then -1
    else if s[0] == LF then 0
    else
      var j := IndexLF(s[1..]);
      assert s == [s[0]] + s[1..];
      assert j >= 0 ==> s[..j + 1] == [s[0]] + s[1..][..j];
      if j < 0 then -1 else j + 1
  }

  /** strings.Split(s, "\n") */
  function Split(s: string): seq<string> {
    Complete(s) + [Rest(s)]
  }

  /** strings.TrimRight(s, cutset) */
  function TrimRight(s: string, cutset: set<char>): (r: string)
    ensures r <= s
    ensures r != [] ==> Last(r) !in cutset
    ensures forall k :: |r| <= k < |s| ==> s[k] in cutset
  {
    if s != [] && Last(s) in cutset then TrimRight(Init(s), cutset) else s
  }

  function TrimCR(s: string): string {
    TrimRight(s, {CR})
  }

  lemma {:induction false} TrimWithoutLF(s: string)
    requires LF !in s
    ensures TrimRight(s, {CR, LF}) == TrimCR(s)
  {
    if s != [] && Last(s) == CR {
      TrimWithoutLF(Init(s));
    }
  }

  /** The longest logged part of a line; without a positive limit, all of it. */
  function TruncateLine(line: string, limit: int): string {
    if limit > 0 && |line| > limit then line[..limit] else line
  }

  /** The text that arrives in `chunks`. */
  function Concat(chunks: seq<string>): string {
    if chunks == [] then [] else Concat(chunks[..|chunks| - 1]) + chunks[|chunks| - 1]
  }

  // ---- the decomposition into ended segments and a remainder ----

  predicate NoLF(segs: seq<string>) {
    forall k :: 0 <= k < |segs| ==> LF !in segs[k]
  }

  /** Every segment followed by its line feed. */
  function Ended(segs: seq<string>): string {
    if segs == [] then [] else Ended(segs[..|segs| - 1]) + (segs[|segs| - 1] + [LF])
  }

  lemma {:induction false} SplitSnoc(s: string, c: char)
    ensures Complete(s + [c]) == if c == LF then Complete(s) + [Rest(s)] else Complete(s)
    ensures Rest(s + [c]) == if c == LF then [] else Rest(s) + [c]
  {
    assert Init(s + [c]) == s;
  }

  /** Splitting can be resumed: after `a`, only its remainder matters for what `b` adds. */
  lemma {:induction false} SplitAppend(a: string, b: string)
    ensures Complete(a + b) == Complete(a) + Complete(Rest(a) + b)
    ensures Rest(a + b) == Rest(Rest(a) + b)
  {
    hide Complete, Rest;
    if b == [] {
      assert a + b == a && Rest(a) + b == Rest(a);
      SplitWithoutLF(Rest(a));
      assert Complete(a) + [] == Complete(a);
    } else {
      SplitAppend(a, Init(b));
      assert a + b == (a + Init(b)) + [Last(b)];
      assert Rest(a) + b == (Rest(a) + Init(b)) + [Last(b)];
      SplitSnoc(a + Init(b), Last(b));
      SplitSnoc(Rest(a) + Init(b), Last(b));
      Associate(Complete(a), Complete(Rest(a) + Init(b)), [Rest(a + Init(b))]);
    }
  }

  lemma {:induction false} SplitWithoutLF(s: string)
    requires LF !in s
    ensures Complete(s) == [] && Rest(s) == s
  {
    if s != [] {
      SplitWithoutLF(Init(s));
      assert s == Init(s) + [Last(s)];
    }
  }

  /** Cutting at the first line feed, as a scan from the left does. */
  lemma {:induction false} SplitFirst(a: string, b: string)
    requires LF !in a
    ensures Complete(a + [LF] + b) == [a] + Complete(b)
    ensures Rest(a + [LF] + b) == Rest(b)
  {
    SplitWithoutLF(a);
    SplitSnoc(a, LF);
    SplitAppend(a + [LF], b);
    assert [] + b == b;
  }

  lemma {:induction false} SplitAtIndex(s: string)
    requires IndexLF(s) >= 0
    ensures var i := IndexLF(s);
            Complete(s) == [s[..i]] + Complete(s[i + 1..]) && Rest(s) == Rest(s[i + 1..])
  {
    var i := IndexLF(s);
    assert s == s[..i] + [LF] + s[i + 1..];
    SplitFirst(s[..i], s[i + 1..]);
  }

  lemma {:induction false} EndedSnoc(segs: seq<string>, seg: string)
    ensures Ended(segs + [seg]) == Ended(segs) + (seg + [LF])
  {
    assert (segs + [seg])[..|segs|] == segs;
  }

  lemma {:induction false} NothingToRebuild()
    ensures Complete([]) == [] && Rest([]) == [] && Ended([]) == []
  {
  }

  /** The split loses nothing: gluing the pieces back gives the text. */
  lemma {:induction false} SplitRebuilds(s: string)
    ensures NoLF(Complete(s))
    ensures Ended(Complete(s)) + Rest(s) == s
  {
    hide Complete, Rest, Ended;
    NothingToRebuild();
    if s != [] {
      var front, segs := Init(s), Complete(Init(s));
      SplitRebuilds(front);
      assert s == front + [Last(s)];
      SplitSnoc(front, Last(s));
      if Last(s) == LF {
        EndedSnoc(segs, Rest(front));
        Associate(Ended(segs), Rest(front), [LF]);
        assert s + [] == s;
      } else {
        Associate(Ended(segs), Rest(front), [Last(s)]);
      }
    }
  }

  lemma {:induction false} EndedIsComplete(segs: seq<string>)
    requires NoLF(segs)
    ensures Complete(Ended(segs)) == segs && Rest(Ended(segs)) == []
  {
    hide Complete, Rest, Ended;
    NothingToRebuild();
    if segs != [] {
      var front, seg := segs[..|segs| - 1], segs[|segs| - 1];
      EndedIsComplete(front);
      SplitWithoutLF(seg);
      SplitSnoc(seg, LF);
      SplitAppend(Ended(front), seg + [LF]);
      assert [] + (seg + [LF]) == seg + [LF];
      assert segs == front + [seg];
      EndedSnoc(front, seg);
    }
  }

  /** ... and it is the only decomposition into LF-free pieces. */
  lemma {:induction false} SplitUnique(segs: seq<string>, rest: string)
    requires NoLF(segs) && LF !in rest
    ensures Complete(Ended(segs) + rest) == segs
    ensures Rest(Ended(segs) + rest) == rest
  {
    hide Complete, Rest, Ended;
    EndedIsComplete(segs);
    SplitAppend(Ended(segs), rest);
    assert [] + rest == rest;
    SplitWithoutLF(rest);
  }
}
