/** POSIX path handling as `os.path.join`, `os.path.basename` and directory
    containment (what `shutil.rmtree` removes) behave. */
module Paths {
  import opened Text

  /** `os.path.join(a, b)`: an absolute `b` replaces `a`; otherwise a single
      `/` is put between them unless `a` is empty or already ends with one. */
  function PathJoin(a: string, b: string): string
  {
    if StartsWith(b, "/") then b
    else if a == "" || EndsWith(a, "/") then a + b
    else a + "/" + b
  }

  /** `os.path.join(d, "")`: the prefix every path inside `d` starts with. */
  function DirPrefix(d: string): string
  {
    PathJoin(d, "")
  }

  /** `p` lies inside directory `d` (so removing the tree at `d` removes it). */
  predicate Within(d: string, p: string)
  {
    StartsWith(p, DirPrefix(d))
  }

  /** A relative component is appended to the directory's prefix. */
  lemma JoinRelative(a: string, b: string)
    requires !StartsWith(b, "/")
    ensures PathJoin(a, b) == DirPrefix(a) + b
  {
    assert !StartsWith("", "/");
  }

  /** Joining a relative name onto a directory gives a path inside it that
      ends with that name. */
  lemma JoinInside(a: string, b: string)
    requires !StartsWith(b, "/")
    ensures Within(a, PathJoin(a, b))
    ensures EndsWith(PathJoin(a, b), b)
  {
    JoinRelative(a, b);
    var p := DirPrefix(a) + b;
    assert p[..|DirPrefix(a)|] == DirPrefix(a);
    assert p[|p| - |b|..] == b;
  }

  /** Joining is injective in its second argument among relative names. */
  lemma JoinInjective(a: string, b: string, c: string)
    requires !StartsWith(b, "/") && !StartsWith(c, "/")
    requires PathJoin(a, b) == PathJoin(a, c)
    ensures b == c
  {
    JoinRelative(a, b);
    JoinRelative(a, c);
    var k := |DirPrefix(a)|;
    assert b == (DirPrefix(a) + b)[k..];
    assert c == (DirPrefix(a) + c)[k..];
  }

  /** Whatever `b` is, the joined path ends with it. */
  lemma JoinEndsWith(a: string, b: string)
    ensures EndsWith(PathJoin(a, b), b)
  {
    var p := PathJoin(a, b);
    if !StartsWith(b, "/") {
      JoinInside(a, b);
    } else {
      assert p[|p| - |b|..] == b;
    }
  }

  /** Containment is transitive: what lies inside a sub-directory lies inside
      every directory containing it. */
  lemma WithinTransitive(d: string, e: string, p: string)
    requires Within(d, e) && Within(e, p)
    ensures Within(d, p)
  {
    var pd, pe := DirPrefix(d), DirPrefix(e);
    assert |pe| >= |e|;
    assert e == pe[..|e|] || pe == e;
    assert pe[..|pd|] == pd;
    assert p[..|pd|] == pe[..|pd|];
  }

  function LastSlash(p: string): (k: int)
    ensures -1 <= k < |p|
    ensures k >= 0 ==> p[k] == '/'
    ensures forall i :: k < i < |p| ==> p[i] != '/'
    decreases |p|
  {
    if p == [] then -1
    else if p[|p| - 1] == '/' then |p| - 1
    else LastSlash(p[..|p| - 1])
  }

  /** `os.path.basename(p)`: everything after the last `/`. */
  function Basename(p: string): string
  {
    p[LastSlash(p) + 1..]
  }

  /** A base name never holds a `/`. */
  lemma BasenameHasNoSlash(p: string)
    ensures '/' !in Basename(p)
  {
    var r := Basename(p);
    forall i | 0 <= i < |r| ensures r[i] != '/' {
      assert r[i] == p[LastSlash(p) + 1 + i];
    }
  }

  lemma {:induction false} LastSlashAppend(x: string, name: string)
    requires '/' !in name
    ensures LastSlash(x + name) == LastSlash(x)
    decreases |name|
  {
    if name == [] {
      assert x + name == x;
    } else {
      var init := name[..|name| - 1];
      assert name[|name| - 1] in name;
      assert forall c :: c in init ==> c in name;
      LastSlashAppend(x, init);
      assert (x + name)[..|x + name| - 1] == x + init;
    }
  }

  /** The base name of a joined path is the name joined on, when it holds no `/`. */
  lemma BasenameOfJoin(d: string, name: string)
    requires '/' !in name
    ensures Basename(PathJoin(d, name)) == name
  {
    var x := DirPrefix(d);
    assert !StartsWith(name, "/") by {
      if |name| > 0 {
        assert name[0] in name;
      }
    }
    JoinRelative(d, name);
    assert x == "" || x[|x| - 1] == '/';
    LastSlashAppend(x, name);
    assert (x + name)[|x|..] == name;
  }

  /** A non-empty string ends with `/` exactly when its suffix does. */
  lemma EndsWithSlashAppend(x: string, b: string)
    requires b != ""
    ensures EndsWith(x + b, "/") <==> EndsWith(b, "/")
  {
    var s := x + b;
    assert s[|s| - 1..] == [s[|s| - 1]];
    assert b[|b| - 1..] == [b[|b| - 1]];
    assert s[|s| - 1] == b[|b| - 1];
  }

  /** Two relative strings one after the other are relative. */
  lemma RelativeConcat(x: string, y: string)
    requires !StartsWith(x, "/") && !StartsWith(y, "/")
    ensures !StartsWith(x + y, "/")
  {
    if x == "" {
      assert x + y == y;
    } else if |x + y| >= 1 {
      assert (x + y)[..1] == x[..1];
    }
  }

  /** A directory prefix is empty or ends with `/`, and taking it again changes nothing. */
  lemma DirPrefixIdempotent(d: string)
    ensures DirPrefix(d) == "" || EndsWith(DirPrefix(d), "/")
    ensures DirPrefix(DirPrefix(d)) == DirPrefix(d)
  {
    assert !StartsWith("", "/");
    var p := DirPrefix(d);
    if d != "" && !EndsWith(d, "/") {
      assert p == d + "/";
      assert p[|p| - 1..] == "/";
    }
  }

  /** The directory prefix of a relative string is relative. */
  lemma DirPrefixRelative(b: string)
    requires !StartsWith(b, "/")
    ensures !StartsWith(DirPrefix(b), "/")
  {
    assert !StartsWith("", "/");
    if b != "" && !EndsWith(b, "/") {
      assert DirPrefix(b) == b + "/";
      assert (b + "/")[..1] == b[..1];
    }
  }

  /** The directory prefix of a joined path is the two prefixes one after the other. */
  lemma DirPrefixOfJoin(a: string, b: string)
    requires !StartsWith(b, "/")
    ensures DirPrefix(PathJoin(a, b)) == DirPrefix(a) + DirPrefix(b)
  {
    JoinRelative(a, b);
    assert !StartsWith("", "/");
    if b == "" {
      assert DirPrefix(b) == "";
      assert PathJoin(a, b) == DirPrefix(a);
      DirPrefixIdempotent(a);
      assert DirPrefix(a) + "" == DirPrefix(a);
    } else {
      EndsWithSlashAppend(DirPrefix(a), b);
      var ab := DirPrefix(a) + b;
      assert DirPrefix(ab) == if EndsWith(ab, "/") then ab else ab + "/";
      assert DirPrefix(b) == if EndsWith(b, "/") then b else b + "/";
    }
  }

  /** Joining relative components is associative: `join(a, join(b, c))` is
      `join(join(a, b), c)`, so `os.path.join` with several components is the
      same path whichever way it is grouped. */
  lemma JoinAssociative(a: string, b: string, c: string)
    requires !StartsWith(b, "/") && !StartsWith(c, "/")
    ensures !StartsWith(PathJoin(b, c), "/")
    ensures PathJoin(a, PathJoin(b, c)) == PathJoin(PathJoin(a, b), c)
  {
    var bc := DirPrefix(b) + c;
    JoinRelative(b, c);
    DirPrefixRelative(b);
    RelativeConcat(DirPrefix(b), c);
    calc {
      PathJoin(a, PathJoin(b, c));
      PathJoin(a, bc);
      { JoinRelative(a, bc); }
      DirPrefix(a) + bc;
      DirPrefix(a) + DirPrefix(b) + c;
      { DirPrefixOfJoin(a, b); }
      DirPrefix(PathJoin(a, b)) + c;
      { JoinRelative(PathJoin(a, b), c); }
      PathJoin(PathJoin(a, b), c);
    }
  }
}
