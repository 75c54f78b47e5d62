/** Windows path manipulation as done by Python's `ntpath` (`os.path` on
    Windows), for paths without drive letters or UNC prefixes. */
module WinPath {

  /** Both slashes separate path components on Windows. */
  predicate IsSep(c: char)
  {
    c == '\\' || c == '/'
  }

  predicate NoSep(s: string)
  {
    forall i :: 0 <= i < |s| ==> !IsSep(s[i])
  }

  /** A component that joins without resetting the path and without doubling
      or dropping separators: non-empty, no separator at either end. */
  predicate Component(s: string)
  {
    |s| > 0 && !IsSep(s[0]) && !IsSep(s[|s| - 1])
  }

  /** `ntpath.join(a, b)`: an absolute `b` replaces `a`; otherwise a
      backslash is inserted unless `a` is empty or already ends in a separator. */
  function Join(a: string, b: string): (r: string)
  {
    if |b| > 0 && IsSep(b[0]) then b
    else if |a| == 0 || IsSep(a[|a| - 1]) then a + b
    else a + "\\" + b
  }

  /** `ntpath.join(a, b, c)`, which joins left to right. */
  function Join3(a: string, b: string, c: string): (r: string)
  {
    Join(Join(a, b), c)
  }

  /** Joining two components spells out the backslash between them. */
  lemma JoinComponents(a: string, b: string)
    requires Component(a) && Component(b)
    ensures Join(a, b) == a + "\\" + b
    ensures Component(Join(a, b))
  {
  }

  /** Joining is associative when the middle part is a relative, non-empty
      path: `join(a, join(b, c)) == join(join(a, b), c)`. */
  lemma JoinAssociative(a: string, b: string, c: string)
    requires |b| > 0 && !IsSep(b[0])
    ensures Join(a, Join(b, c)) == Join(Join(a, b), c)
  {
    if !(|c| > 0 && IsSep(c[0])) {
      JoinEndsLike(a, b);
      if IsSep(b[|b| - 1]) {
        assert Join(b, c) == b + c;
        JoinRelativeTail(a, b, c);
      } else {
        assert Join(b, c) == b + "\\" + c;
        JoinRelativeTail(a, b, "\\" + c);
      }
    }
  }

  /** A join ends the way its non-empty second part does. */
  lemma JoinEndsLike(a: string, b: string)
    requires |b| > 0
    ensures |Join(a, b)| > 0 && Join(a, b)[|Join(a, b)| - 1] == b[|b| - 1]
  {
  }

  /** Joining `b` followed by more text onto `a` is joining `b` and then
      appending that text, when `b` is relative and non-empty. */
  lemma JoinRelativeTail(a: string, b: string, t: string)
    requires |b| > 0 && !IsSep(b[0])
    ensures Join(a, b + t) == Join(a, b) + t
  {
    assert (b + t)[0] == b[0];
  }

  /** Start of the last component: one past the last separator, or 0. */
  function TailStart(p: string): (i: nat)
    ensures i <= |p|
    ensures NoSep(p[i..])
    ensures i > 0 ==> IsSep(p[i - 1])
  {
    if |p| == 0 then 0
    else if IsSep(p[|p| - 1]) then |p|
    else
      var i := TailStart(p[..|p| - 1]);
      assert p[i..] == p[..|p| - 1][i..] + [p[|p| - 1]];
      i
  }

  /** `s.rstrip('\\/')`. */
  function StripTrailingSeps(s: string): (r: string)
    ensures |r| <= |s| && r == s[..|r|]
    ensures |r| == 0 || !IsSep(r[|r| - 1])
  {
    if |s| > 0 && IsSep(s[|s| - 1]) then StripTrailingSeps(s[..|s| - 1]) else s
  }

  /** `ntpath.dirname(p)`: everything before the last component, without
      trailing separators unless it consists only of separators. */
  function Dirname(p: string): (r: string)
    ensures |r| <= |p| && r == p[..|r|]
  {
    var head := p[..TailStart(p)];
    var stripped := StripTrailingSeps(head);
    if |stripped| == 0 then head else stripped
  }

  /** A name joined onto a directory is found again by `dirname`. */
  lemma DirnameOfJoin(dir: string, name: string)
    requires Component(dir) && NoSep(name)
    ensures Dirname(Join(dir, name)) == dir
  {
    var p := Join(dir, name);
    assert p == dir + "\\" + name;
    var i := |dir| + 1;
    assert p[i..] == name;
    assert IsSep(p[i - 1]);
    TailStartIsLastSep(p, i);
    var head := p[..i];
    assert head == dir + "\\";
    assert head[..|head| - 1] == dir;
    assert StripTrailingSeps(head) == StripTrailingSeps(dir) == dir;
  }

  /** The tail starts right after a separator followed only by non-separators. */
  lemma {:induction false} TailStartIsLastSep(p: string, i: nat)
    requires 0 < i <= |p| && IsSep(p[i - 1]) && NoSep(p[i..])
    ensures TailStart(p) == i
    decreases |p|
  {
    if i < |p| {
      var q := p[..|p| - 1];
      assert q[i..] == p[i..|p| - 1];
      assert NoSep(q[i..]) by {
        forall j | 0 <= j < |q[i..]| ensures !IsSep(q[i..][j]) {
          assert q[i..][j] == p[i..][j];
        }
      }
      assert !IsSep(p[|p| - 1]) by {
        assert p[|p| - 1] == p[i..][|p| - 1 - i];
      }
      TailStartIsLastSep(q, i);
    }
  }
}
