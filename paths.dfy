/**
 * POSIX pure paths as the source's path library sees them: an anchor ("", "/" or
 * exactly "//") and a list of components, compared lexically component by component.
 */
module Paths {
  import opened Wrappers

  datatype Anchor = Relative | Root | DoubleRoot

  datatype PurePath = PurePath(anchor: Anchor, parts: seq<string>)

  /** A component as parsing leaves it: non-empty, not ".", no separator. */
  predicate IsComponent(c: string) {
    c != "" && c != "." && '/' !in c
  }

  predicate WellFormed(p: PurePath) {
    forall i :: 0 <= i < |p.parts| ==> IsComponent(p.parts[i])
  }

  /** Anchor of a path string: one leading slash, exactly two, or three and more (one). */
  function AnchorOf(s: string): Anchor {
    if s == [] || s[0] != '/' then Relative
    else if |s| >= 2 && s[1] == '/' && !(|s| >= 3 && s[2] == '/') then DoubleRoot
    else Root
  }

  function AnchorText(a: Anchor): string {
    match a
    case Relative => ""
    case Root => "/"
    case DoubleRoot => "//"
  }

  /** s.split("/") */
  function Split(s: string): (r: seq<string>)
    ensures |r| >= 1
    ensures forall i :: 0 <= i < |r| ==> '/' !in r[i]
  {
    if s == [] then [""]
    else
      var rest := Split(s[1..]);
      if s[0] == '/' then [""] + rest else [[s[0]] + rest[0]] + rest[1..]
  }

  /** The segments that parsing keeps: empty ones and "." are dropped. */
  function Components(segments: seq<string>): (r: seq<string>)
    requires forall i :: 0 <= i < |segments| ==> '/' !in segments[i]
    ensures forall i :: 0 <= i < |r| ==> IsComponent(r[i])
    ensures |r| <= |segments|
  {
    if segments == [] then []
    else if segments[0] == "" || segments[0] == "." then Components(segments[1..])
    else [segments[0]] + Components(segments[1..])
  }

  /** Path(s) */
  function Parse(s: string): (p: PurePath)
    ensures WellFormed(p)
  {
    PurePath(AnchorOf(s), Components(Split(s)))
  }

  /** "/".join(parts) */
  function Join(parts: seq<string>): string {
    if parts == [] then ""
    else if |parts| == 1 then parts[0]
    else parts[0] + "/" + Join(parts[1..])
  }

  /** str(p): the anchor, then the components joined by "/"; "." for the empty relative path. */
  function Render(p: PurePath): string {
    if p.anchor == Relative && p.parts == [] then "."
    else AnchorText(p.anchor) + Join(p.parts)
  }

  /** root == p or root in p.parents */
  predicate IsAncestorOrSelf(root: PurePath, p: PurePath) {
    root.anchor == p.anchor && root.parts <= p.parts
  }

  /** p.relative_to(root), with None for the ValueError raised outside root. */
  function RelativeTo(p: PurePath, root: PurePath): (r: Option<PurePath>)
    ensures r.Some? <==> IsAncestorOrSelf(root, p)
    ensures r.Some? ==> r.value.anchor == Relative && root.parts + r.value.parts == p.parts
  {
    if IsAncestorOrSelf(root, p) then Some(PurePath(Relative, p.parts[|root.parts|..])) else None
  }

  /** Root-relative form of a path string; a path outside the root comes back as it was. */
  function ToRelativePath(absolutePath: string, root: PurePath): (r: string)
    ensures !IsAncestorOrSelf(root, Parse(absolutePath)) ==> r == absolutePath
    ensures r != ""
      || (absolutePath == "" && !IsAncestorOrSelf(root, Parse(absolutePath)))
  {
    match RelativeTo(Parse(absolutePath), root)
    case Some(rel) => Render(rel)
    case None => absolutePath
  }

  lemma {:induction false} SplitWithoutSeparator(s: string)
    requires '/' !in s
    ensures Split(s) == [s]
  {
    if s != [] {
      SplitWithoutSeparator(s[1..]);
      assert [s[0]] + s[1..] == s;
    }
  }

  lemma {:induction false} SplitAfterComponent(a: string, b: string)
    requires '/' !in a
    ensures Split(a + "/" + b) == [a] + Split(b)
  {
    if a == [] {
      assert a + "/" + b == "/" + b;
      assert ("/" + b)[1..] == b;
    } else {
      assert (a + "/" + b)[1..] == a[1..] + "/" + b;
      SplitAfterComponent(a[1..], b);
      assert [a[0]] + a[1..] == a;
    }
  }

  lemma {:induction false} SplitJoin(parts: seq<string>)
    requires parts != []
    requires forall i :: 0 <= i < |parts| ==> '/' !in parts[i]
    ensures Split(Join(parts)) == parts
  {
    if |parts| == 1 {
      SplitWithoutSeparator(parts[0]);
    } else {
      SplitJoin(parts[1..]);
      SplitAfterComponent(parts[0], Join(parts[1..]));
    }
  }

  lemma {:induction false} ComponentsKeepsComponents(parts: seq<string>)
    requires forall i :: 0 <= i < |parts| ==> '/' !in parts[i]
    requires forall i :: 0 <= i < |parts| ==> IsComponent(parts[i])
    ensures Components(parts) == parts
  {
    if parts != [] {
      ComponentsKeepsComponents(parts[1..]);
    }
  }

  lemma {:induction false} JoinStartsWithComponent(parts: seq<string>)
    requires parts != []
    requires forall i :: 0 <= i < |parts| ==> IsComponent(parts[i])
    ensures Join(parts) != "" && Join(parts)[0] != '/'
  {
    assert parts[0] != "" && parts[0][0] != '/';
    if |parts| > 1 {
      assert Join(parts)[0] == parts[0][0];
    }
  }

  /** Rendering a parsed path and parsing it again gives the same path. */
  lemma {:induction false} ParseRender(p: PurePath)
    requires WellFormed(p)
    ensures Parse(Render(p)) == p
  {
    var s := Render(p);
    if p.parts == [] {
      match p.anchor
      case Relative =>
        SplitWithoutSeparator(".");
      case Root =>
        assert s == "" + "/" + "";
        SplitAfterComponent("", "");
        assert Split(s) == ["", ""];
        assert Components(["", ""]) == Components([""]) == [];
      case DoubleRoot =>
        assert s == "" + "/" + ("" + "/" + "");
        SplitAfterComponent("", "" + "/" + "");
        SplitAfterComponent("", "");
        assert Split(s) == ["", "", ""];
        assert Components(["", "", ""]) == Components(["", ""]) == Components([""]) == [];
    } else {
      var j := Join(p.parts);
      JoinStartsWithComponent(p.parts);
      SplitJoin(p.parts);
      ComponentsKeepsComponents(p.parts);
      match p.anchor
      case Relative =>
        assert s == j;
      case Root =>
        assert s == "" + "/" + j;
        SplitAfterComponent("", j);
        assert s[1] == j[0];
      case DoubleRoot =>
        var t := "" + "/" + j;
        assert s == "" + "/" + t;
        SplitAfterComponent("", t);
        SplitAfterComponent("", j);
        assert Split(s) == [""] + ([""] + p.parts);
        assert Components(Split(s)) == Components([""] + p.parts);
        assert s[2] == j[0];
    }
  }

  /** Two well-formed paths render alike only if they are the same path. */
  lemma RenderInjective(p: PurePath, q: PurePath)
    requires WellFormed(p) && WellFormed(q)
    ensures Render(p) == Render(q) <==> p == q
  {
    if Render(p) == Render(q) {
      ParseRender(p);
      ParseRender(q);
    }
  }

  /**
   * For a path under the root the result names the components below the root and
   * is not absolute.
   */
  lemma RelativeOfDescendant(absolutePath: string, root: PurePath)
    requires IsAncestorOrSelf(root, Parse(absolutePath))
    ensures var r := ToRelativePath(absolutePath, root);
      && Parse(r) == PurePath(Relative, Parse(absolutePath).parts[|root.parts|..])
      && r != "" && r[0] != '/'
      && root.parts + Parse(r).parts == Parse(absolutePath).parts
  {
    var rel := PurePath(Relative, Parse(absolutePath).parts[|root.parts|..]);
    ParseRender(rel);
    if rel.parts != [] {
      JoinStartsWithComponent(rel.parts);
    }
  }

  lemma {:induction false} JoinConcat(a: seq<string>, b: seq<string>)
    requires a != [] && b != []
    ensures Join(a + b) == Join(a) + "/" + Join(b)
  {
    if |a| == 1 {
      assert (a + b)[1..] == b;
    } else {
      assert (a + b)[1..] == a[1..] + b;
      JoinConcat(a[1..], b);
    }
  }

  lemma RenderExtend(root: PurePath, rest: seq<string>)
    requires root.anchor != Relative && root.parts != [] && rest != []
    ensures Render(root) + "/" + Join(rest) == Render(PurePath(root.anchor, root.parts + rest))
  {
    var a, j, k := AnchorText(root.anchor), Join(root.parts), Join(rest);
    JoinConcat(root.parts, rest);
    calc {
      Render(PurePath(root.anchor, root.parts + rest));
      a + Join(root.parts + rest);
      a + (j + "/" + k);
      { assert a + (j + "/" + k) == (a + j) + "/" + k; }
      (a + j) + "/" + k;
      Render(root) + "/" + k;
    }
  }

  /** Under an anchored, non-empty root, the root's text and one slash are removed. */
  lemma RelativeRemovesRootPrefix(root: PurePath, rest: seq<string>)
    requires WellFormed(root) && root.anchor != Relative && root.parts != []
    requires rest != [] && forall i :: 0 <= i < |rest| ==> IsComponent(rest[i])
    ensures ToRelativePath(Render(root) + "/" + Join(rest), root) == Join(rest)
  {
    var full := PurePath(root.anchor, root.parts + rest);
    var s := Render(root) + "/" + Join(rest);
    RenderExtend(root, rest);
    assert Parse(s) == full by {
      ParseRender(full);
    }
    assert RelativeTo(full, root) == Some(PurePath(Relative, rest)) by {
      assert full.parts[|root.parts|..] == rest;
    }
    assert Render(PurePath(Relative, rest)) == Join(rest);
  }

  /** The root itself becomes ".". */
  lemma RelativeOfRootItself(root: PurePath)
    requires WellFormed(root)
    ensures ToRelativePath(Render(root), root) == "."
  {
    ParseRender(root);
  }

  lemma RelativePathExampleInside()
    ensures ToRelativePath("/home/user/project/src/main.py", PurePath(Root, ["home", "user", "project"])) == "src/main.py"
  {
    var root := PurePath(Root, ["home", "user", "project"]);
    var rest := ["src", "main.py"];
    var full := Render(root) + "/" + Join(rest);
    assert Render(root) == "/home/user/project";
    assert Join(rest) == "src/main.py";
    assert full == "/home/user/project/src/main.py";
    RelativeRemovesRootPrefix(root, rest);
  }

  /** At the bare root "/", root + "/" + "src" is "//src": a double-slash anchor, so it is not under "/" and comes back unchanged. */
  lemma RelativeAtBareRootKeepsDoubleSlash()
    ensures Render(PurePath(Root, [])) + "/" + "src" == "//src"
    ensures ToRelativePath("//src", PurePath(Root, [])) == "//src"
  {
    var p := PurePath(DoubleRoot, ["src"]);
    assert Render(p) == "//src";
    ParseRender(p);
  }

  lemma RelativePathExampleOutside()
    ensures ToRelativePath("/other/path/file.py", PurePath(Root, ["home", "user", "project"])) == "/other/path/file.py"
  {
    var other := PurePath(Root, ["other", "path", "file.py"]);
    assert Render(other) == "/other/path/file.py";
    ParseRender(other);
  }
}
