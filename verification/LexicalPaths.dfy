/**
 * Paths as text and as lists of names: the cleaning of paths and link targets that the artifact copy relies on,
 * against what a text means.
 */
module LexicalPaths {
  type Path = seq<string>

  /** The pieces between slashes. */
  function Split(text: string): (r: seq<string>)
    ensures |r| >= 1
  {
    if text == "" then [""]
    else
      var rest := Split(text[1..]);
      if text[0] == '/' then [""] + rest else [[text[0]] + rest[0]] + rest[1..]
  }

  predicate Normal(name: string) { name != "" && name != "." && name != ".." }

  predicate Clean(p: Path) { forall name <- p :: Normal(name) }

  /** filepath.Clean of a rooted path: `base` cleaned already, `more` applied piece by piece. */
  function Resolve(base: Path, more: seq<string>): (r: Path)
    requires Clean(base)
    ensures Clean(r)
    decreases |more|
  {
    if more == [] then base
    else if more[0] == "" || more[0] == "." then Resolve(base, more[1..])
    else if more[0] == ".." then Resolve(if base == [] then [] else base[..|base| - 1], more[1..])
    else Resolve(base + [more[0]], more[1..])
  }

  predicate IsAbs(text: string) { text != "" && text[0] == '/' }

  function Common(a: Path, b: Path): (k: nat)
    ensures k <= |a| && k <= |b| && a[..k] == b[..k]
    ensures k < |a| && k < |b| ==> a[k] != b[k]
  {
    if a == [] || b == [] || a[0] != b[0] then 0 else 1 + Common(a[1..], b[1..])
  }

  /** filepath.Rel of two rooted clean paths. */
  function Rel(root: Path, target: Path): Path {
    var k := Common(root, target);
    seq(|root| - k, _ => "..") + target[k..]
  }

  /** isWithinDir. */
  predicate IsWithinDir(root: Path, target: Path) {
    var rel := Rel(root, target);
    !(rel != [] && rel[0] == "..")
  }

  /** The textual test decides exactly whether the target extends the root. */
  lemma WithinIffPrefix(root: Path, target: Path)
    requires Clean(root) && Clean(target)
    ensures IsWithinDir(root, target) <==> root <= target
  {
    var k := Common(root, target);
    if k < |root| {
      assert Rel(root, target)[0] == "..";
    } else {
      assert root[..k] == root && target[..k] <= target;
      assert Rel(root, target) == target[k..];
      if k < |target| { assert target[k] in target; }
    }
  }

  /** Where a link at `p` leads: an absolute text by itself, any other from the link's directory. */
  function LexicalTarget(p: Path, text: string): Path
    requires Clean(p) && p != []
  {
    assert Clean(p[..|p| - 1]);
    Resolve(if IsAbs(text) then [] else p[..|p| - 1], Split(text))
  }

  // ------------------------------------------------------------------- what a text means

  predicate SlashFree(pieces: seq<string>) { forall x <- pieces :: '/' !in x }

  function Join(pieces: seq<string>): string
    requires pieces != []
  {
    if |pieces| == 1 then pieces[0] else pieces[0] + "/" + Join(pieces[1..])
  }

  lemma {:induction false} JoinSplit(text: string)
    ensures SlashFree(Split(text)) && Join(Split(text)) == text
  {
    if text == "" {
    } else {
      JoinSplit(text[1..]);
      var rest, all := Split(text[1..]), Split(text);
      assert text == [text[0]] + text[1..];
      if text[0] == '/' {
        assert all[1..] == rest && all[0] == "";
      } else {
        assert all[0] == [text[0]] + rest[0] && all[1..] == rest[1..];
      }
    }
  }

  /** A text has no other pieces than these. */
  lemma {:induction false} SplitJoin(pieces: seq<string>)
    requires pieces != [] && SlashFree(pieces)
    ensures Split(Join(pieces)) == pieces
  {
    if |pieces| == 1 {
      SplitPiece(pieces[0]);
    } else {
      SplitJoin(pieces[1..]);
      SplitFirst(pieces[0], Join(pieces[1..]));
    }
  }

  lemma {:induction false} SplitPiece(x: string)
    requires '/' !in x
    ensures Split(x) == [x]
  {
    if x == "" {
    } else {
      SplitPiece(x[1..]);
      assert x == [x[0]] + x[1..] && x[0] in x;
    }
  }

  lemma {:induction false} SplitFirst(x: string, rest: string)
    requires '/' !in x
    ensures Split(x + "/" + rest) == [x] + Split(rest)
  {
    var text := x + "/" + rest;
    if x == "" {
      assert text[1..] == rest;
    } else {
      SplitFirst(x[1..], rest);
      assert text[1..] == x[1..] + "/" + rest && text[0] == x[0];
      assert x == [x[0]] + x[1..] && x[0] in x;
      assert ([x[1..]] + Split(rest))[1..] == Split(rest);
    }
  }

  /** A path with the last `ups` names taken away; the root is its own parent. */
  function Up(base: Path, ups: nat): Path { if ups >= |base| then [] else base[..|base| - ups] }

  /**
   * What pieces come to, read from the end: each ".." cancels the next name before it, and those that find none climb
   * above the start. The result says how far they climb and which names follow.
   */
  function Net(pieces: seq<string>, ups: nat): (nat, Path) {
    if pieces == [] then (ups, [])
    else
      var front, last := pieces[..|pieces| - 1], pieces[|pieces| - 1];
      if last == "" || last == "." then Net(front, ups)
      else if last == ".." then Net(front, ups + 1)
      else if ups > 0 then Net(front, ups - 1)
      else
        var (climb, names) := Net(front, 0);
        (climb, names + [last])
  }

  /** Where a text leads from a directory: a leading slash starts at the root. */
  function Meaning(dir: Path, text: string): Path {
    var (climb, names) := Net(Split(text), 0);
    Up(if text[..if text == "" then 0 else 1] == "/" then [] else dir, climb) + names
  }

  lemma {:induction false} ResolveLast(base: Path, front: seq<string>, last: string)
    requires Clean(base)
    ensures var r := Resolve(base, front);
      Resolve(base, front + [last]) ==
        if last == "" || last == "." then r else if last == ".." then Up(r, 1) else r + [last]
    decreases |front|
  {
    var all := front + [last];
    if front == [] {
      assert all[1..] == [] && all[0] == last;
    } else {
      assert all[0] == front[0] && all[1..] == front[1..] + [last];
      if front[0] == "" || front[0] == "." {
        ResolveLast(base, front[1..], last);
      } else if front[0] == ".." {
        ResolveLast(if base == [] then [] else base[..|base| - 1], front[1..], last);
      } else {
        ResolveLast(base + [front[0]], front[1..], last);
      }
    }
  }

  /** Cleaning from the front and reading from the end agree. */
  lemma {:induction false} ResolveIsNet(base: Path, pieces: seq<string>, ups: nat)
    requires Clean(base)
    ensures var (climb, names) := Net(pieces, ups);
      Up(Resolve(base, pieces), ups) == Up(base, climb) + names
    decreases |pieces|
  {
    if pieces == [] {
    } else {
      var front, last := pieces[..|pieces| - 1], pieces[|pieces| - 1];
      assert pieces == front + [last];
      ResolveLast(base, front, last);
      if last == "" || last == "." {
        ResolveIsNet(base, front, ups);
      } else if last == ".." {
        ResolveIsNet(base, front, ups + 1);
      } else if ups > 0 {
        ResolveIsNet(base, front, ups - 1);
      } else {
        ResolveIsNet(base, front, 0);
      }
    }
  }

  lemma TargetIsMeaning(p: Path, text: string)
    requires Clean(p) && p != []
    ensures LexicalTarget(p, text) == Meaning(p[..|p| - 1], text)
  {
    var base := if IsAbs(text) then [] else p[..|p| - 1];
    ResolveIsNet(base, Split(text), 0);
    assert Up(Resolve(base, Split(text)), 0) == Resolve(base, Split(text));
    assert text != "" ==> (text[..1] == "/" <==> text[0] == '/');
  }

  /** The test on the cleaned target decides exactly whether the text leads into the root. */
  lemma LinkStaysIff(root: Path, p: Path, text: string)
    requires Clean(root) && Clean(p) && p != []
    ensures IsWithinDir(root, LexicalTarget(p, text)) <==> root <= Meaning(p[..|p| - 1], text)
  {
    TargetIsMeaning(p, text);
    WithinIffPrefix(root, LexicalTarget(p, text));
  }

  // -------------------------------------------------------------------- two kinds of links

  ghost predicate PlainNames(names: Path) { Clean(names) && SlashFree(names) }

  lemma {:induction false} NetOfNames(front: seq<string>, names: Path)
    requires Clean(names)
    ensures Net(front + names, 0) == (Net(front, 0).0, Net(front, 0).1 + names)
  {
    if names == [] {
      assert front + names == front && Net(front, 0).1 + names == Net(front, 0).1;
    } else {
      var n := |names| - 1;
      NetOfNames(front, names[..n]);
      assert (front + names)[..|front + names| - 1] == front + names[..n];
      assert names[n] in names && names == names[..n] + [names[n]];
      assert Net(front, 0).1 + names == Net(front, 0).1 + names[..n] + [names[n]];
    }
  }

  function Climb(ups: nat): seq<string> { seq(ups, _ => "..") }

  lemma {:induction false} NetOfClimb(ups: nat, more: nat)
    ensures Net(Climb(ups), more) == (ups + more, [])
  {
    if ups == 0 {
    } else {
      assert Climb(ups)[..ups - 1] == Climb(ups - 1);
      NetOfClimb(ups - 1, more + 1);
    }
  }

  /** A text of a slash and names is inside the root if and only if the root's own components lead it. */
  lemma AbsoluteStaysIff(root: Path, p: Path, names: Path)
    requires Clean(root) && Clean(p) && p != [] && names != [] && PlainNames(names)
    ensures IsWithinDir(root, LexicalTarget(p, "/" + Join(names))) <==> root <= names
  {
    var pieces, text := [""] + names, "/" + Join(names);
    assert pieces[1..] == names && Join(pieces) == text;
    SplitJoin(pieces);
    NetOfNames([""], names);
    assert Net([""], 0) == (0, []) by { assert [""][..0] == []; }
    assert [] + names == names;
    LinkStaysIff(root, p, text);
  }

  /**
   * A relative text that climbs and then names: it is inside the root if and only if it does not climb above it, or
   * the names lead back into what it has climbed out of.
   */
  lemma RelativeStaysIff(root: Path, below: Path, name: string, ups: nat, names: Path)
    requires Clean(root) && Clean(below) && Normal(name) && PlainNames(names) && ups + |names| > 0
    ensures IsWithinDir(root, LexicalTarget(root + below + [name], Join(Climb(ups) + names))) <==>
      ups <= |below| || root[if ups - |below| >= |root| then 0 else |root| - (ups - |below|)..] <= names
  {
    hide IsWithinDir, LexicalTarget, Meaning, Join;
    var p, dir, text := root + below + [name], root + below, Join(Climb(ups) + names);
    assert p[..|p| - 1] == dir;
    LinkStaysIff(root, p, text);
    MeaningOfClimb(dir, ups, names);
    ClimbStaysIff(root, below, ups, names);
  }

  lemma MeaningOfClimb(dir: Path, ups: nat, names: Path)
    requires PlainNames(names) && ups + |names| > 0
    ensures Meaning(dir, Join(Climb(ups) + names)) == Up(dir, ups) + names
  {
    hide Net, Split, Join, Up, SlashFree;
    var pieces := Climb(ups) + names;
    ClimbIsSlashFree(ups, names);
    assert pieces[0] != "" by { if ups == 0 { assert pieces[0] == names[0] && names[0] in names; } }
    SplitJoin(pieces);
    NetOfNames(Climb(ups), names);
    NetOfClimb(ups, 0);
    assert [] + names == names;
    FirstPiece(pieces);
  }

  lemma ClimbIsSlashFree(ups: nat, names: Path)
    requires PlainNames(names)
    ensures SlashFree(Climb(ups) + names)
  {
  }

  lemma ClimbStaysIff(root: Path, below: Path, ups: nat, names: Path)
    ensures root <= Up(root + below, ups) + names <==>
      ups <= |below| || root[if ups - |below| >= |root| then 0 else |root| - (ups - |below|)..] <= names
  {
    var dir := root + below;
    if ups <= |below| {
      assert Up(dir, ups) == root + below[..|below| - ups];
    } else {
      var left := if ups - |below| >= |root| then 0 else |root| - (ups - |below|);
      assert Up(dir, ups) == root[..left];
      assert root == root[..left] + root[left..];
      if root[left..] <= names {
        assert root[..left] + names == root + names[|root| - left..];
      }
      if root <= root[..left] + names {
        assert (root[..left] + names)[left..|root|] == names[..|root| - left];
      }
    }
  }

  lemma FirstPiece(pieces: seq<string>)
    requires pieces != [] && SlashFree(pieces) && pieces[0] != ""
    ensures Join(pieces) != "" && Join(pieces)[0] != '/'
  {
    assert pieces[0][0] in pieces[0];
  }

  /** From /d/l, "/x" leads out of /d. */
  lemma AbsoluteLinkExample()
    ensures !IsWithinDir(["d"], LexicalTarget(["d", "l"], "/x"))
  {
    assert "/" + Join(["x"]) == "/x";
    AbsoluteStaysIff(["d"], ["d", "l"], ["x"]);
    assert ["d"][0] != ["x"][0];
  }

  /** From /d/s/l, "../../x" leads out of /d, and "../x" does not. */
  lemma RelativeLinkExample()
    ensures !IsWithinDir(["d"], LexicalTarget(["d", "s", "l"], "../../x"))
    ensures IsWithinDir(["d"], LexicalTarget(["d", "s", "l"], "../x"))
  {
    var root, below := ["d"], ["s"];
    assert root + below + ["l"] == ["d", "s", "l"];
    var two, one := Climb(2) + ["x"], Climb(1) + ["x"];
    assert two == ["..", "..", "x"] && two[1..] == ["..", "x"] == one && one[1..] == ["x"];
    assert Join(one) == "../x" && Join(two) == "../../x";
    RelativeStaysIff(root, below, "l", 2, ["x"]);
    RelativeStaysIff(root, below, "l", 1, ["x"]);
    assert root[0..] == root && root[0] != ["x"][0];
  }
}
