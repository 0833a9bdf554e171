/** Slash-separated path names: lexical cleaning of `.` and `..`, joining, and the prefix test by
    which the extraction of an archive keeps its targets beneath a directory. */
module PathNames {
  import opened Wrappers

  type Path = seq<string>

  const SLASH: char := '/'

  // ---- splitting and joining ----

  /** One more character: a slash begins a segment, any other extends the last one. */
  function Extend(segs: seq<string>, c: char): seq<string>
    requires segs != []
  {
    if c == SLASH then segs + [""] else segs[..|segs| - 1] + [segs[|segs| - 1] + [c]]
  }

  /** strings.Split(s, "/") */
  function Segments(s: string): (segs: seq<string>)
    ensures segs != [] && forall i :: 0 <= i < |segs| ==> SLASH !in segs[i]
  {
    if s == "" then [""] else Extend(Segments(s[..|s| - 1]), s[|s| - 1])
  }

  /** strings.Join(p, "/") */
  function Joined(p: Path): string {
    if p == [] then "" else if |p| == 1 then p[0] else Joined(p[..|p| - 1]) + "/" + p[|p| - 1]
  }

  /** The components that cleaning looks at. */
  function Components(segs: seq<string>): Path {
    if segs == [] then []
    else
      var front, last := Components(segs[..|segs| - 1]), segs[|segs| - 1];
      if last == "" || last == "." then front else front + [last]
  }

  predicate Rooted(s: string) {
    s != "" && s[0] == SLASH
  }

  /** A component that cleaning keeps; `..` is one. */
  predicate IsComponent(c: string) {
    c != "" && c != "." && SLASH !in c
  }

  predicate AreComponents(p: Path) {
    forall i :: 0 <= i < |p| ==> IsComponent(p[i])
  }

  // ---- lexical cleaning ----

  function Push(rooted: bool, out: Path, c: string): Path {
    if c != ".." then out + [c]
    else if out != [] && out[|out| - 1] != ".." then out[..|out| - 1]
    else if rooted then out
    else out + [c]
  }

  function Reduce(rooted: bool, out: Path, p: Path): Path {
    if p == [] then out else Push(rooted, Reduce(rooted, out, p[..|p| - 1]), p[|p| - 1])
  }

  function Text(rooted: bool, p: Path): string {
    if rooted then "/" + Joined(p) else if p == [] then "." else Joined(p)
  }

  function CleanPath(s: string): Path {
    Reduce(Rooted(s), [], Components(Segments(s)))
  }

  /** filepath.Clean */
  function Clean(s: string): string {
    Text(Rooted(s), CleanPath(s))
  }

  /** filepath.Join of a directory and a cleaned name; an empty directory is left out. */
  function Join(dir: string, name: string): string {
    if dir == "" then Clean(name) else Clean(dir + "/" + name)
  }

  predicate HasPrefix(s: string, prefix: string) {
    |prefix| <= |s| && s[..|prefix|] == prefix
  }

  // ---- where an archive entry goes ----

  function Target(dest: string, name: string): string {
    Join(dest, Clean(name))
  }

  /** The test that extraction makes. */
  predicate Accepted(dest: string, name: string) {
    Target(dest, name) == Clean(dest) || HasPrefix(Target(dest, name), Clean(dest) + "/")
  }

  function TargetPath(dest: string, name: string): Path {
    Reduce(Rooted(dest), CleanPath(dest), CleanPath(name))
  }

  /** `p` is `dir` or lies beneath it, component by component. */
  predicate Beneath(dir: Path, p: Path) {
    dir <= p && ".." !in p[|dir|..]
  }

  // ---- lemmas on splitting ----

  lemma {:induction false} SegmentsSnoc(s: string, c: char)
    ensures Segments(s + [c]) == Extend(Segments(s), c)
  {
    assert (s + [c])[..|s|] == s;
  }

  lemma {:induction false} ExtendAppend(a: seq<string>, b: seq<string>, c: char)
    requires b != []
    ensures Extend(a + b, c) == a + Extend(b, c)
  {
    if c != SLASH {
      assert (a + b)[..|a + b| - 1] == a + b[..|b| - 1];
    }
  }

  lemma {:induction false} SegmentsOfNothing(a: string)
    ensures Segments("") == [""] && Segments(a + "/") == Segments(a) + [""]
  {
    SegmentsSnoc(a, SLASH);
    assert a + "/" == a + [SLASH];
  }

  lemma {:induction false} SegmentsAppend(a: string, b: string)
    ensures Segments(a + "/" + b) == Segments(a) + Segments(b)
  {
    hide Segments, Extend;
    SegmentsOfNothing(a);
    if b == "" {
      assert a + "/" + b == a + "/";
    } else {
      var front, c := b[..|b| - 1], b[|b| - 1];
      SegmentsAppend(a, front);
      SegmentsSnoc(a + "/" + front, c);
      SegmentsSnoc(front, c);
      ExtendAppend(Segments(a), Segments(front), c);
      assert front + [c] == b;
      Associate(a + "/", front, [c]);
    }
  }

  lemma {:induction false} NotInFront(front: string, c: char)
    requires SLASH !in front + [c]
    ensures SLASH !in front && c != SLASH
  {
    assert (front + [c])[|front|] == c;
    assert forall i :: 0 <= i < |front| ==> (front + [c])[i] == front[i];
  }

  lemma {:induction false} SegmentsOfOne(s: string)
    requires SLASH !in s
    ensures Segments(s) == [s]
  {
    if s != "" {
      var front, c := s[..|s| - 1], s[|s| - 1];
      assert s == front + [c];
      NotInFront(front, c);
      hide Segments;
      SegmentsOfOne(front);
      SegmentsSnoc(front, c);
      assert [front][..0] == [];
    }
  }

  lemma {:induction false} SegmentsOfJoined(p: Path)
    requires p != [] && forall i :: 0 <= i < |p| ==> SLASH !in p[i]
    ensures Segments(Joined(p)) == p
  {
    hide Segments;
    var front, last := p[..|p| - 1], p[|p| - 1];
    SegmentsOfOne(last);
    if |p| > 1 {
      SegmentsOfJoined(front);
      SegmentsAppend(Joined(front), last);
    }
    assert p == front + [last];
  }

  /** The segments of a cleaned name. */
  function TextSegments(rooted: bool, p: Path): seq<string> {
    if p != [] then if rooted then [""] + p else p
    else if rooted then ["", ""] else ["."]
  }

  lemma {:induction false} SegmentsOfText(rooted: bool, p: Path)
    requires AreComponents(p)
    ensures Segments(Text(rooted, p)) == TextSegments(rooted, p)
  {
    assert Segments("") == [""];
    if rooted {
      assert "/" + Joined(p) == "" + "/" + Joined(p);
      SegmentsAppend("", Joined(p));
    }
    if p != [] {
      SegmentsOfJoined(p);
    } else {
      SegmentsOfOne(".");
    }
  }

  lemma {:induction false} ComponentsSnoc(segs: seq<string>, seg: string)
    ensures Components([]) == []
    ensures Components(segs + [seg]) == Components(segs) + if seg == "" || seg == "." then [] else [seg]
  {
    assert (segs + [seg])[..|segs|] == segs;
  }

  lemma {:induction false} ComponentsAppend(a: seq<string>, b: seq<string>)
    ensures Components(a + b) == Components(a) + Components(b)
  {
    hide Components;
    if b == [] {
      ComponentsSnoc([], "");
      assert a + b == a;
    } else {
      var front, last := b[..|b| - 1], b[|b| - 1];
      assert b == front + [last] && a + b == (a + front) + [last];
      ComponentsAppend(a, front);
      ComponentsSnoc(a + front, last);
      ComponentsSnoc(front, last);
    }
  }

  lemma {:induction false} ComponentsAreKept(p: Path)
    requires AreComponents(p)
    ensures Components(p) == p
  {
    if p != [] {
      ComponentsAreKept(p[..|p| - 1]);
    }
  }

  lemma {:induction false} ComponentsAreComponents(segs: seq<string>)
    requires forall i :: 0 <= i < |segs| ==> SLASH !in segs[i]
    ensures AreComponents(Components(segs))
  {
    if segs != [] {
      ComponentsAreComponents(segs[..|segs| - 1]);
    }
  }

  lemma {:induction false} ComponentsOfText(rooted: bool, p: Path)
    requires AreComponents(p)
    ensures Components(Segments(Text(rooted, p))) == p && Rooted(Text(rooted, p)) == rooted
  {
    hide Segments, Joined;
    SegmentsOfText(rooted, p);
    ComponentsAreKept(p);
    ComponentsAppend([""], p);
    assert Components([""]) == [] && Components(["."]) == [] by {
      assert [""][..0] == [] && ["."][..0] == [];
    }
    assert Components(["", ""]) == [] by {
      assert ["", ""][..1] == [""];
    }
    if !rooted && p != [] {
      JoinedBegins(p);
    }
  }

  lemma {:induction false} JoinedBegins(p: Path)
    requires p != [] && AreComponents(p)
    ensures Joined(p) != "" && Joined(p)[0] == p[0][0] != SLASH
  {
    assert p[0][0] in p[0];
    if |p| > 1 {
      JoinedBegins(p[..|p| - 1]);
    }
  }

  // ---- lemmas on cleaning ----

  /** No `..` in a rooted name, and elsewhere only at the front. */
  predicate Reduced(rooted: bool, p: Path) {
    && AreComponents(p)
    && (rooted ==> ".." !in p)
    && forall i, j :: 0 <= i < j < |p| && p[j] == ".." ==> p[i] == ".."
  }

  lemma {:induction false} ReduceReduced(rooted: bool, out: Path, p: Path)
    requires Reduced(rooted, out) && AreComponents(p)
    ensures Reduced(rooted, Reduce(rooted, out, p))
  {
    if p != [] {
      var before, c := Reduce(rooted, out, p[..|p| - 1]), p[|p| - 1];
      ReduceReduced(rooted, out, p[..|p| - 1]);
      PushReduced(rooted, before, c);
    }
  }

  lemma {:induction false} PushReduced(rooted: bool, out: Path, c: string)
    requires Reduced(rooted, out) && IsComponent(c)
    ensures Reduced(rooted, Push(rooted, out, c))
  {
    var after := Push(rooted, out, c);
    if c == ".." && !(out != [] && out[|out| - 1] != "..") && !rooted {
      assert forall i :: 0 <= i < |out| ==> out[i] == "..";
    }
    assert forall i :: 0 <= i < |after| && i < |out| ==> after[i] == out[i];
  }

  lemma {:induction false} ReduceAppend(rooted: bool, out: Path, a: Path, b: Path)
    ensures Reduce(rooted, out, a + b) == Reduce(rooted, Reduce(rooted, out, a), b)
  {
    if b == [] {
      assert a + b == a;
    } else {
      var front, last := b[..|b| - 1], b[|b| - 1];
      ReduceAppend(rooted, out, a, front);
      assert (a + b)[..|a + b| - 1] == a + front;
    }
  }

  lemma {:induction false} CleanPathReduced(s: string)
    ensures Reduced(Rooted(s), CleanPath(s))
  {
    ComponentsAreComponents(Segments(s));
    ReduceReduced(Rooted(s), [], Components(Segments(s)));
  }

  lemma {:induction false} ReducedFront(rooted: bool, p: Path)
    requires Reduced(rooted, p) && p != []
    ensures Reduced(rooted, p[..|p| - 1])
    ensures p[|p| - 1] == ".." ==> !rooted && (|p| > 1 ==> p[|p| - 2] == "..")
  {
    var front := p[..|p| - 1];
    assert forall i :: 0 <= i < |front| ==> front[i] == p[i];
    assert p[|p| - 1] in p;
  }

  /** Reducing a name that is already reduced, onto nothing, changes nothing. */
  lemma {:induction false} ReduceAgain(rooted: bool, p: Path)
    requires Reduced(rooted, p)
    ensures Reduce(rooted, [], p) == p
  {
    if p != [] {
      var front, last := p[..|p| - 1], p[|p| - 1];
      ReducedFront(rooted, p);
      ReduceAgain(rooted, front);
      hide Reduced;
      assert p == front + [last];
    }
  }

  /** Cleaning is idempotent. */
  lemma {:induction false} CleanIsIdempotent(s: string)
    ensures Clean(Clean(s)) == Clean(s) && CleanPath(Clean(s)) == CleanPath(s)
  {
    CleanPathReduced(s);
    ComponentsOfText(Rooted(s), CleanPath(s));
    ReduceAgain(Rooted(s), CleanPath(s));
  }

  lemma {:induction false} RootedAppend(dir: string, name: string)
    requires dir != ""
    ensures Rooted(dir + "/" + name) == Rooted(dir)
  {
  }

  /** Where an entry goes, in components: the cleaned name is walked from the cleaned directory. */
  lemma {:induction false} TargetIs(dest: string, name: string)
    ensures Target(dest, name) == Text(Rooted(dest), TargetPath(dest, name)) || dest == ""
    ensures dest == "" ==> Target(dest, name) == Clean(name)
  {
    CleanPathReduced(name);
    ComponentsOfText(Rooted(name), CleanPath(name));
    CleanIsIdempotent(name);
    if dest != "" {
      RootedAppend(dest, Clean(name));
      SegmentsAppend(dest, Clean(name));
      ComponentsAppend(Segments(dest), Segments(Clean(name)));
      ReduceAppend(Rooted(dest), [], Components(Segments(dest)), CleanPath(name));
    }
  }

  // ---- the prefix test ----

  lemma {:induction false} TextInjective(rooted: bool, a: Path, b: Path)
    requires AreComponents(a) && AreComponents(b) && Text(rooted, a) == Text(rooted, b)
    ensures a == b
  {
    ComponentsOfText(rooted, a);
    ComponentsOfText(rooted, b);
  }

  lemma {:induction false} JoinedAppend(a: Path, b: Path)
    requires a != [] && b != []
    ensures Joined(a + b) == Joined(a) + "/" + Joined(b)
  {
    var front, last := b[..|b| - 1], b[|b| - 1];
    assert (a + b)[..|a + b| - 1] == a + front;
    if front == [] {
      assert a + front == a;
    } else {
      JoinedAppend(a, front);
      assert Joined(a) + "/" + Joined(front) + "/" + last == Joined(a) + "/" + (Joined(front) + "/" + last);
    }
  }

  /** The test on strings compares whole components; but the root and the current directory have
      nothing beneath them for it. */
  lemma {:induction false} PrefixTest(rooted: bool, dir: Path, p: Path)
    requires AreComponents(dir) && AreComponents(p)
    ensures HasPrefix(Text(rooted, p), Text(rooted, dir) + "/") <==> dir != [] && dir < p
  {
    hide Segments, TextSegments, Text;
    var s, q := Text(rooted, p), Text(rooted, dir);
    if HasPrefix(s, q + "/") {
      var rest := s[|q| + 1..];
      assert s == q + "/" + rest;
      SegmentsAppend(q, rest);
      SegmentsOfText(rooted, p);
      SegmentsOfText(rooted, dir);
      PrefixOfSegments(rooted, dir, p, Segments(rest));
    }
    if dir != [] && dir < p {
      TextOfMore(rooted, dir, p[|dir|..]);
      assert p == dir + p[|dir|..];
      assert s[..|q + "/"|] == q + "/";
    }
  }

  lemma {:induction false} TextOfMore(rooted: bool, dir: Path, more: Path)
    requires dir != [] && more != []
    ensures Text(rooted, dir + more) == Text(rooted, dir) + "/" + Joined(more)
  {
    JoinedAppend(dir, more);
    hide Joined;
    if rooted {
      assert "/" + (Joined(dir) + "/" + Joined(more)) == ("/" + Joined(dir)) + "/" + Joined(more);
    }
  }

  lemma {:induction false} PrefixOfSegments(rooted: bool, dir: Path, p: Path, rest: seq<string>)
    requires AreComponents(dir) && AreComponents(p) && rest != []
    requires TextSegments(rooted, p) == TextSegments(rooted, dir) + rest
    ensures dir != [] && dir < p
  {
    var left, right, n := TextSegments(rooted, p), TextSegments(rooted, dir), if rooted then 1 else 0;
    assert p != [] ==> left[n] == p[0] && IsComponent(p[0]);
    assert dir != [] ==> right[n] == dir[0] && IsComponent(dir[0]);
    assert left[n] == right[n];
    assert dir != [] ==> forall i :: 0 <= i < |dir| ==> left[n + i] == dir[i];
  }

  lemma {:induction false} AcceptedMeans(dest: string, name: string)
    requires dest != ""
    ensures Accepted(dest, name) <==>
      var dir, p := CleanPath(dest), TargetPath(dest, name); p == dir || (dir != [] && dir < p)
  {
    var dir, p := CleanPath(dest), TargetPath(dest, name);
    CleanPathReduced(dest);
    CleanPathReduced(name);
    ReduceReduced(Rooted(dest), dir, CleanPath(name));
    TargetIs(dest, name);
    PrefixTest(Rooted(dest), dir, p);
    if Target(dest, name) == Clean(dest) {
      TextInjective(Rooted(dest), p, dir);
    }
  }

  /** A relative directory that leads upwards: there the test lets through names that climb further. */
  predicate LeadsUp(dest: string) {
    !Rooted(dest) && CleanPath(dest) != [] && CleanPath(dest)[|CleanPath(dest)| - 1] == ".."
  }

  /** Every accepted name goes to the directory or beneath it, exactly when the directory is not a
      relative one that leads upwards. */
  lemma {:induction false} ContainmentIff(dest: string)
    ensures (forall name :: Accepted(dest, name) ==> Beneath(CleanPath(dest), TargetPath(dest, name)))
      <==> !LeadsUp(dest)
  {
    if LeadsUp(dest) {
      ClimbsFurther(dest);
    } else {
      forall name | Accepted(dest, name) ensures Beneath(CleanPath(dest), TargetPath(dest, name)) {
        AcceptedIsBeneath(dest, name);
      }
    }
  }

  lemma {:induction false} AcceptedIsBeneath(dest: string, name: string)
    requires !LeadsUp(dest) && Accepted(dest, name)
    ensures Beneath(CleanPath(dest), TargetPath(dest, name))
  {
    if dest == "" {
      AcceptedNowhere(name);
    } else {
      AcceptedSomewhere(dest, name);
    }
  }

  /** Without a directory only a name that stands for the current one is accepted. */
  lemma {:induction false} AcceptedNowhere(name: string)
    requires Accepted("", name)
    ensures CleanPath("") == TargetPath("", name) == []
  {
    hide Segments, Components, Reduce, Joined, CleanPath;
    var p := CleanPath(name);
    CleanPathReduced(name);
    CleanOfEmpty();
    TargetIs("", name);
    assert !Rooted(name);
    PrefixTest(false, [], p);
    TextInjective(false, p, []);
  }

  lemma {:induction false} CleanOfEmpty()
    ensures CleanPath("") == [] && Clean("") == "." && Reduce(false, [], []) == []
  {
    assert [""][..0] == [];
    assert Components([""]) == Components([]) == [];
  }

  lemma {:induction false} AcceptedSomewhere(dest: string, name: string)
    requires dest != "" && !LeadsUp(dest) && Accepted(dest, name)
    ensures Beneath(CleanPath(dest), TargetPath(dest, name))
  {
    var dir, p := CleanPath(dest), TargetPath(dest, name);
    AcceptedMeans(dest, name);
    CleanPathReduced(dest);
    CleanPathReduced(name);
    ReduceReduced(Rooted(dest), dir, CleanPath(name));
    if dir < p && !Rooted(dest) {
      var last := |dir| - 1;
      assert p[last] == dir[last] != "..";
      assert forall k :: last < k < |p| ==> p[k] != "..";
    }
  }

  lemma {:induction false} ClimbsFurther(dest: string)
    requires LeadsUp(dest)
    ensures Accepted(dest, "..") && !Beneath(CleanPath(dest), TargetPath(dest, ".."))
  {
    hide Segments, Components, Reduce, Text, Joined, CleanPath, Accepted;
    var dir := CleanPath(dest);
    CleanOfDotDot(Rooted(dest), dir);
    CleanOfEmpty();
    AcceptedMeans(dest, "..");
    assert ".." in (dir + [".."])[|dir|..];
  }

  lemma {:induction false} CleanOfDotDot(rooted: bool, dir: Path)
    ensures CleanPath("..") == [".."] && Reduce(rooted, dir, [".."]) == Push(rooted, dir, "..")
  {
    SegmentsOfOne("..");
    assert [".."][..0] == [];
    assert Components([".."]) == [".."];
  }

  /** A name without `..` goes beneath the directory, and is accepted exactly when this is not the
      root or the current one: there the test refuses every such name. */
  lemma {:induction false} PlainNameAccepted(dest: string, p: Path, slash: bool)
    requires p != [] && AreComponents(p) && ".." !in p
    ensures var name := Joined(p) + (if slash then "/" else "");
      && (Accepted(dest, name) <==> CleanPath(dest) != [])
      && TargetPath(dest, name) == CleanPath(dest) + p
  {
    hide Accepted, Segments, Components, Joined;
    var name := Joined(p) + (if slash then "/" else "");
    CleanOfJoined(p, slash);
    ReducePlain(Rooted(dest), CleanPath(dest), p);
    if dest != "" {
      AcceptedMeans(dest, name);
    } else {
      CleanOfEmpty();
      if Accepted(dest, name) {
        AcceptedNowhere(name);
      }
    }
  }

  lemma {:induction false} CleanOfJoined(p: Path, slash: bool)
    requires p != [] && AreComponents(p) && ".." !in p
    ensures CleanPath(Joined(p) + (if slash then "/" else "")) == p
  {
    hide Segments, Components, Reduce, Joined;
    var name := Joined(p) + (if slash then "/" else "");
    JoinedBegins(p);
    ComponentsOfJoined(p, slash);
    ReducePlain(false, [], p);
    assert name[0] == Joined(p)[0];
    assert [] + p == p;
  }

  lemma {:induction false} ComponentsOfJoined(p: Path, slash: bool)
    requires p != [] && AreComponents(p)
    ensures Components(Segments(Joined(p) + (if slash then "/" else ""))) == p
  {
    SegmentsOfJoined(p);
    ComponentsAreKept(p);
    hide AreComponents, Joined;
    if slash {
      assert Segments("") == [""];
      hide Segments;
      assert Joined(p) + "/" == Joined(p) + "/" + "";
      SegmentsAppend(Joined(p), "");
      ComponentsAppend(p, [""]);
      assert [""][..0] == [];
      assert Components([""]) == Components([]) == [];
    } else {
      assert Joined(p) + "" == Joined(p);
    }
  }

  lemma {:induction false} ReducePlain(rooted: bool, out: Path, p: Path)
    requires ".." !in p
    ensures Reduce(rooted, out, p) == out + p
  {
    if p != [] {
      ReducePlain(rooted, out, p[..|p| - 1]);
      assert p == p[..|p| - 1] + [p[|p| - 1]];
      assert p[|p| - 1] in p;
    } else {
      assert out + p == out;
    }
  }
}
