/**
 * filepath.Clean and filepath.Join of Go's path/filepath on a Unix system
 * (separator `/`): the lexical processing of path elements, without any
 * access to the file system.
 */
module FilePath {
  import opened Strings

  /**
   * One element of Clean's scan: empty and `.` elements vanish; `..` removes
   * the element before it unless that is itself `..`; at the root of a rooted
   * path it vanishes, in a relative path it is kept; any other name is kept.
   */
  function Step(kept: seq<string>, elem: string, rooted: bool): seq<string>
  {
    if elem == "" || elem == "." then kept
    else if elem == ".." then
      if |kept| > 0 && kept[|kept| - 1] != ".." then kept[..|kept| - 1]
      else if rooted then kept
      else kept + [".."]
    else kept + [elem]
  }

  /** The elements Clean keeps of `elems`, scanned from the first. */
  function Kept(elems: seq<string>, rooted: bool): seq<string>
    decreases |elems|
  {
    if |elems| == 0 then [] else Step(Kept(elems[..|elems| - 1], rooted), elems[|elems| - 1], rooted)
  }

  /** Kept elements are real names, free of separators. */
  predicate CleanElements(kept: seq<string>)
  {
    forall i :: 0 <= i < |kept| ==> kept[i] != "" && kept[i] != "." && '/' !in kept[i]
  }

  lemma {:induction false} KeptAreClean(elems: seq<string>, rooted: bool)
    requires forall i :: 0 <= i < |elems| ==> '/' !in elems[i]
    ensures CleanElements(Kept(elems, rooted))
    decreases |elems|
  {
    if |elems| > 0 {
      KeptAreClean(elems[..|elems| - 1], rooted);
    }
  }

  lemma KeptAppend(elems: seq<string>, elem: string, rooted: bool)
    ensures Kept(elems + [elem], rooted) == Step(Kept(elems, rooted), elem, rooted)
  {
    assert (elems + [elem])[..|elems|] == elems;
  }

  /** Render kept elements: rooted paths start with `/`; nothing left is `.` (or `/`). */
  function Render(kept: seq<string>, rooted: bool): string
  {
    if rooted then "/" + Join(kept, '/')
    else if |kept| == 0 then "."
    else Join(kept, '/')
  }

  predicate Rooted(path: string)
  {
    |path| > 0 && path[0] == '/'
  }

  /**
   * filepath.Clean: the shortest lexically equivalent path. It is never
   * empty, and it is rooted exactly when the input is.
   */
  function Clean(path: string): (r: string)
    ensures |r| > 0
    ensures Rooted(r) <==> Rooted(path)
  {
    if path == "" then "."
    else
      var rooted := path[0] == '/';
      var elems := Split(path, '/');
      var kept := Kept(elems, rooted);
      KeptAreClean(elems, rooted);
      if !rooted && |kept| > 0 then
        JoinStartsWithFirst(kept);
        Render(kept, rooted)
      else
        Render(kept, rooted)
  }

  lemma JoinStartsWithFirst(kept: seq<string>)
    requires |kept| > 0 && CleanElements(kept)
    ensures |Join(kept, '/')| > 0 && Join(kept, '/')[0] == kept[0][0]
  {
    if |kept| > 1 {
      assert Join(kept, '/') == kept[0] + ['/'] + Join(kept[1..], '/');
    }
  }

  /**
   * filepath.Join of two elements: the non-empty elements joined with `/`
   * and cleaned, or "" when both are empty.
   */
  function Join2(dir: string, name: string): (r: string)
    ensures dir == "" && name == "" <==> r == ""
    ensures dir == "" && name != "" ==> r == Clean(name)
  {
    if dir != "" then Clean(dir + "/" + name)
    else if name != "" then Clean(name)
    else ""
  }

  /** A non-empty list of clean elements joins to a relative path other than `.`. */
  lemma JoinedCleanElements(kept: seq<string>)
    requires |kept| > 0 && CleanElements(kept)
    ensures |Join(kept, '/')| > 0 && Join(kept, '/')[0] != '/' && Join(kept, '/') != "."
  {
    JoinStartsWithFirst(kept);
    if |kept| > 1 {
      assert Join(kept, '/') == kept[0] + ['/'] + Join(kept[1..], '/');
      assert |Join(kept, '/')| >= 2;
    }
  }

  /** Clean of a non-empty path, unfolded. */
  lemma CleanUnfold(path: string)
    requires path != ""
    ensures Clean(path) == Render(Kept(Split(path, '/'), path[0] == '/'), path[0] == '/')
  {
  }

  /** The elements of `dir/name` for a plain name are those of `dir`, then the name. */
  lemma KeptWithPlainName(dir: string, name: string, rooted: bool)
    requires name != "" && name != "." && name != ".." && '/' !in name
    ensures Kept(Split(dir + "/" + name, '/'), rooted) == Kept(Split(dir, '/'), rooted) + [name]
  {
    assert dir + "/" + name == dir + ['/'] + name;
    SplitConcat(dir, name, '/');
    SplitWithoutSeparator(name, '/');
    KeptAppend(Split(dir, '/'), name, rooted);
  }

  /**
   * Joining a plain file name (no separator, not `.`, `..` or empty) onto a
   * directory puts it directly inside the cleaned directory.
   */
  lemma JoinPlainName(dir: string, name: string)
    requires dir != "" && name != "" && name != "." && name != ".." && '/' !in name
    ensures Join2(dir, name) == (if Clean(dir) == "/" then "/" + name
                                 else if Clean(dir) == "." then name
                                 else Clean(dir) + "/" + name)
  {
    var rooted := dir[0] == '/';
    var path := dir + "/" + name;
    assert path[0] == dir[0];
    var elems := Split(dir, '/');
    KeptWithPlainName(dir, name, rooted);
    CleanUnfold(dir);
    CleanUnfold(path);
    KeptAreClean(elems, rooted);
    RenderWithName(Kept(elems, rooted), name, rooted);
  }

  /** Rendering clean elements followed by one more plain name. */
  lemma RenderWithName(kept: seq<string>, name: string, rooted: bool)
    requires CleanElements(kept) && name != "" && '/' !in name
    ensures var dir := Render(kept, rooted);
            Render(kept + [name], rooted) == (if dir == "/" then "/" + name
                                              else if dir == "." then name
                                              else dir + "/" + name)
  {
    assert Join([name], '/') == name;
    if |kept| == 0 {
      assert kept + [name] == [name];
      assert "/" + "" == "/";
    } else {
      var j := Join(kept, '/');
      JoinConcat(kept, [name], '/');
      JoinedCleanElements(kept);
      assert "/" == ['/'];
      if rooted {
        assert |"/" + j| > 1 && ("/" + j)[0] == '/';
        AppendAssoc("/", j, "/" + name);
        AppendAssoc(j, "/", name);
      }
    }
  }

  /** Joining an empty name is cleaning the directory. */
  lemma JoinEmptyName(dir: string)
    requires dir != ""
    ensures Join2(dir, "") == Clean(dir)
  {
    var rooted := dir[0] == '/';
    var path := dir + "/" + "";
    assert path == dir + ['/'] + "";
    assert path[0] == dir[0];
    SplitConcat(dir, "", '/');
    SplitWithoutSeparator("", '/');
    KeptAppend(Split(dir, '/'), "", rooted);
    CleanUnfold(dir);
    CleanUnfold(path);
  }

  /**
   * A name of `..` climbs out of the directory it is joined to: joined onto
   * `/a/b`, it gives `/a`.
   */
  lemma JoinDotDotClimbs(a: string, b: string)
    requires a != "" && a != "." && a != ".." && '/' !in a
    requires b != "" && b != "." && b != ".." && '/' !in b
    ensures Join2("/" + a + "/" + b, "..") == "/" + a
  {
    var e, up := "", "..";
    var path := e + "/" + a + "/" + b + "/" + up;
    assert '/' !in up;
    assert path == "/" + a + "/" + b + "/" + up;
    SplitFour(e, a, b, up);
    assert path[0] == '/';
    CleanUnfold(path);
    KeptClimb(a, b, true);
    assert Join([a], '/') == a;
  }

  /** A separator-free last element splits off on its own. */
  lemma SplitLast(x: string, y: string)
    requires '/' !in y
    ensures Split(x + "/" + y, '/') == Split(x, '/') + [y]
  {
    assert x + "/" + y == x + ['/'] + y;
    SplitConcat(x, y, '/');
    SplitWithoutSeparator(y, '/');
  }

  /** Four separator-free elements joined with `/` split back into themselves. */
  lemma SplitFour(r: string, a: string, b: string, c: string)
    requires '/' !in r && '/' !in a && '/' !in b && '/' !in c
    ensures Split(r + "/" + a + "/" + b + "/" + c, '/') == [r, a, b, c]
  {
    var s1 := r + "/" + a;
    var s2 := s1 + "/" + b;
    SplitWithoutSeparator(r, '/');
    SplitLast(r, a);
    SplitLast(s1, b);
    SplitLast(s2, c);
    AppendSingles(r, a, b, c);
  }

  /** `/a/b/..` keeps `a` only: the empty element vanishes and `..` removes `b`. */
  lemma KeptClimb(a: string, b: string, rooted: bool)
    requires a != "" && a != "." && a != ".." && b != "" && b != "." && b != ".."
    ensures Kept(["", a, b, ".."], rooted) == [a]
  {
    var e := "";
    var up := "..";
    Snoc(e, a, b, up);
    KeptAppend([], e, rooted);
    KeptAppend([e], a, rooted);
    KeptAppend([e, a], b, rooted);
    KeptAppend([e, a, b], up, rooted);
    assert [a, b][..1] == [a];
  }
}
