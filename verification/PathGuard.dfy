/** Lexical paths and the guard that keeps them under a base directory. */
module PathGuard {
  import opened Outcomes

  // ---- paths as strings and as components ----

  function Split(s: string): (r: seq<string>)
    ensures r != []
  {
    if s == "" then [""]
    else
      var r := Split(s[1..]);
      if s[0] == '/' then [""] + r else [[s[0]] + r[0]] + r[1..]
  }

  function Join(cs: seq<string>): string {
    if cs == [] then "" else if |cs| == 1 then cs[0] else cs[0] + "/" + Join(cs[1..])
  }

  /** A component of a path in normal form, `..` included. */
  predicate IsComponent(c: string) {
    c != "" && c != "." && '/' !in c
  }

  /** A directory name: a component other than `..`. */
  predicate IsName(c: string) {
    IsComponent(c) && c != ".."
  }

  predicate Names(cs: seq<string>) {
    forall c | c in cs :: IsName(c)
  }

  /** Normal form: components only, names only in an absolute path, and `..` only at the front of a relative one. */
  predicate Normal(cs: seq<string>, rooted: bool) {
    && (forall c | c in cs :: IsComponent(c))
    && (rooted ==> ".." !in cs)
    && (forall i | 0 <= i < |cs| - 1 :: cs[i + 1] == ".." ==> cs[i] == "..")
  }

  /** One component applied to a path in normal form. */
  function Push(stack: seq<string>, c: string, rooted: bool): seq<string> {
    if c == "" || c == "." then stack
    else if c != ".." then stack + [c]
    else if stack != [] && stack[|stack| - 1] != ".." then stack[..|stack| - 1]
    else if rooted then stack
    else stack + [".."]
  }

  function Normalize(stack: seq<string>, cs: seq<string>, rooted: bool): seq<string> {
    if cs == [] then stack
    else Push(Normalize(stack, cs[..|cs| - 1], rooted), cs[|cs| - 1], rooted)
  }

  predicate IsAbs(p: string) {
    p != "" && p[0] == '/'
  }

  /** The normalised components of a path. */
  function Components(p: string): seq<string> {
    Normalize([], Split(p), IsAbs(p))
  }

  function Render(cs: seq<string>, rooted: bool): string {
    if rooted then "/" + Join(cs) else if cs == [] then "." else Join(cs)
  }

  /** Lexical cleaning: separators collapsed, `.` dropped, `..` resolved against the name before it. */
  function Clean(p: string): string {
    Render(Components(p), IsAbs(p))
  }

  function JoinPath(a: string, b: string): string {
    if a == "" && b == "" then ""
    else if a == "" then Clean(b)
    else if b == "" then Clean(a)
    else Clean(a + "/" + b)
  }

  predicate HasPrefix(s: string, prefix: string) {
    |prefix| <= |s| && s[..|prefix|] == prefix
  }

  /** The absolute path for `p` under `base`, or why there is none. */
  function Resolve(base: string, p: string): Result<string> {
    if p == "" then Err("path is required")
    else
      var clean := Clean(p);
      if IsAbs(clean) then Err("absolute paths are not allowed")
      else
        var abs := Clean(JoinPath(base, clean));
        if !HasPrefix(abs, base + "/") && abs != base then Err("path escapes base directory") else Ok(abs)
  }

  // ---- splitting and joining ----

  lemma {:induction false} SplitConcat(a: string, b: string)
    ensures Split(a + "/" + b) == Split(a) + Split(b)
  {
    if a == "" {
      assert (a + "/" + b)[1..] == b;
    } else {
      assert (a + "/" + b)[1..] == a[1..] + "/" + b;
      SplitConcat(a[1..], b);
    }
  }

  lemma {:induction false} SplitWhole(c: string)
    requires '/' !in c
    ensures Split(c) == [c]
  {
    if c != "" {
      assert forall x | x in c[1..] :: x in c;
      SplitWhole(c[1..]);
      assert [c[0]] + c[1..] == c;
    }
  }

  lemma {:induction false} SplitJoin(cs: seq<string>)
    requires cs != [] && forall c | c in cs :: '/' !in c
    ensures Split(Join(cs)) == cs
  {
    SplitWhole(cs[0]);
    if |cs| > 1 {
      SplitConcat(cs[0], Join(cs[1..]));
      SplitJoin(cs[1..]);
    }
  }

  lemma {:induction false} SplitParts(s: string)
    ensures forall c | c in Split(s) :: '/' !in c
  {
    if s != "" {
      SplitParts(s[1..]);
      var r := Split(s[1..]);
      assert r[0] in r;
      assert forall c | c in r[1..] :: c in r;
    }
  }

  lemma {:induction false} JoinConcat(a: seq<string>, b: seq<string>)
    requires a != [] && b != []
    ensures Join(a + b) == Join(a) + "/" + Join(b)
  {
    if |a| == 1 {
      assert (a + b)[1..] == b;
    } else {
      assert (a + b)[1..] == a[1..] + b;
      JoinConcat(a[1..], b);
    }
  }

  // ---- normalising ----

  lemma PushNormal(stack: seq<string>, c: string, rooted: bool)
    requires Normal(stack, rooted) && '/' !in c
    ensures Normal(Push(stack, c, rooted), rooted)
  {
    var r := Push(stack, c, rooted);
    assert forall x | x in r :: x in stack || x == c;
  }

  lemma {:induction false} NormalizeNormal(stack: seq<string>, cs: seq<string>, rooted: bool)
    requires Normal(stack, rooted) && forall c | c in cs :: '/' !in c
    ensures Normal(Normalize(stack, cs, rooted), rooted)
  {
    if cs != [] {
      assert forall c | c in cs[..|cs| - 1] :: c in cs;
      NormalizeNormal(stack, cs[..|cs| - 1], rooted);
      PushNormal(Normalize(stack, cs[..|cs| - 1], rooted), cs[|cs| - 1], rooted);
    }
  }

  lemma {:induction false} NormalizeConcat(stack: seq<string>, a: seq<string>, b: seq<string>, rooted: bool)
    ensures Normalize(stack, a + b, rooted) == Normalize(Normalize(stack, a, rooted), b, rooted)
  {
    if b == [] {
      assert a + b == a;
    } else {
      assert (a + b)[..|a + b| - 1] == a + b[..|b| - 1];
      NormalizeConcat(stack, a, b[..|b| - 1], rooted);
    }
  }

  /** Normal components are their own normal form. */
  lemma {:induction false} NormalizeStable(cs: seq<string>, rooted: bool)
    requires Normal(cs, rooted)
    ensures Normalize([], cs, rooted) == cs
  {
    if cs != [] {
      var rest, c := cs[..|cs| - 1], cs[|cs| - 1];
      assert forall x | x in rest :: x in cs;
      assert c in cs;
      NormalizeStable(rest, rooted);
      if c == ".." && rest != [] {
        assert cs[|cs| - 2 + 1] == "..";
        assert rest[|rest| - 1] == "..";
      }
      assert Push(rest, c, rooted) == rest + [c] == cs;
    }
  }

  lemma PushInContext(base: seq<string>, r: seq<string>, c: string)
    requires Names(base) && Normal(r, false)
    ensures Normalize(base, Push(r, c, false), true) == Push(Normalize(base, r, true), c, true)
  {
    if c == ".." && r != [] && r[|r| - 1] != ".." {
      var last := r[|r| - 1];
      assert last in r;
      assert Normalize(base, r, true) == Normalize(base, r[..|r| - 1], true) + [last];
    } else {
      assert (r + [c])[..|r|] == r;
    }
  }

  /** Normalising a relative path first and then applying it to an absolute one changes nothing. */
  lemma {:induction false} NormalizeInContext(base: seq<string>, cs: seq<string>)
    requires Names(base) && forall c | c in cs :: '/' !in c
    ensures Normalize(base, Normalize([], cs, false), true) == Normalize(base, cs, true)
  {
    if cs != [] {
      var rest, c := cs[..|cs| - 1], cs[|cs| - 1];
      assert forall x | x in rest :: x in cs;
      NormalizeInContext(base, rest);
      NormalizeNormal([], rest, false);
      PushInContext(base, Normalize([], rest, false), c);
      hide Push;
    }
  }

  /** Cleaning is idempotent. */
  lemma CleanIdempotent(p: string)
    ensures Clean(Clean(p)) == Clean(p)
  {
    ComponentsNormal(p);
    RenderComponents(Components(p), IsAbs(p));
  }

  lemma ComponentsNormal(p: string)
    ensures Normal(Components(p), IsAbs(p))
  {
    SplitParts(p);
    NormalizeNormal([], Split(p), IsAbs(p));
  }

  /** A rendered normal form reads back as itself. */
  lemma RenderComponents(cs: seq<string>, rooted: bool)
    requires Normal(cs, rooted)
    ensures IsAbs(Render(cs, rooted)) == rooted
    ensures Components(Render(cs, rooted)) == cs
    ensures Split(Render(cs, rooted))
         == if rooted then [""] + (if cs == [] then [""] else cs) else if cs == [] then ["."] else cs
  {
    if cs != [] {
      assert cs[0] in cs;
      JoinStart(cs);
      SplitJoin(cs);
    }
    NormalizeStable(cs, rooted);
    if rooted {
      assert ("/" + Join(cs))[1..] == Join(cs);
      if cs == [] {
        assert [""][..0] == [];
        NormalizeConcat([], [""], [""], true);
      } else {
        NormalizeConcat([], [""], cs, true);
      }
      assert [""][..0] == [];
    } else if cs == [] {
      assert ["."][..0] == [];
    }
  }

  lemma JoinStart(cs: seq<string>)
    requires cs != [] && IsComponent(cs[0])
    ensures Join(cs) != "" && Join(cs)[0] == cs[0][0] && Join(cs)[0] != '/'
  {
    assert cs[0][0] in cs[0];
  }

  // ---- the guard ----

  /** The absolute path of a list of names. */
  function BasePath(base: seq<string>): string {
    "/" + Join(base)
  }

  lemma JoinedComponents(base: seq<string>, p: string)
    requires Names(base) && p != "" && !IsAbs(p)
    ensures JoinPath(BasePath(base), Clean(p)) == BasePath(Normalize(base, Split(p), true))
    ensures Normal(Normalize(base, Split(p), true), true)
  {
    assert Normal(base, true);
    ComponentsNormal(p);
    var rel := Components(p);
    RenderComponents(rel, false);
    RenderComponents(base, true);
    var joined := BasePath(base) + "/" + Clean(p);
    SplitConcat(BasePath(base), Clean(p));
    NormalizeConcat([], Split(BasePath(base)), Split(Clean(p)), true);
    assert Normalize([], Split(BasePath(base)), true) == base;
    SplitParts(p);
    NormalizeNormal(base, Split(p), true);
    NormalizeInContext(base, Split(p));
    assert Normalize(base, Split(Clean(p)), true) == Normalize(base, rel, true) by {
      if rel == [] {
        assert ["."][..0] == [];
      }
    }
  }

  lemma PrefixComponents(base: seq<string>, cs: seq<string>, rest: string)
    requires Names(base) && base != [] && Names(cs)
    requires BasePath(cs) == BasePath(base) + "/" + rest
    ensures base <= cs
  {
    hide Split, Join, Normalize;
    RenderComponents(base, true);
    RenderComponents(cs, true);
    SplitConcat(BasePath(base), rest);
    assert [""] + (if cs == [] then [""] else cs) == ([""] + base) + Split(rest);
    assert cs != [];
    assert [""] + cs == [""] + (base + Split(rest));
    assert cs == ([""] + cs)[1..] == base + Split(rest);
  }

  lemma PrefixOfComponents(base: seq<string>, cs: seq<string>)
    requires base != [] && base <= cs && base != cs
    ensures HasPrefix(BasePath(cs), BasePath(base) + "/")
  {
    hide Join;
    assert cs == base + cs[|base|..];
    JoinConcat(base, cs[|base|..]);
    assert BasePath(cs) == (BasePath(base) + "/") + Join(cs[|base|..]);
  }

  lemma SamePath(base: seq<string>, cs: seq<string>)
    requires Names(base) && Names(cs) && BasePath(base) == BasePath(cs)
    ensures base == cs
  {
    hide Split, Join, Normalize;
    RenderComponents(base, true);
    RenderComponents(cs, true);
  }

  /** The string test, base itself or base with a separator in front, is the prefix relation on components. */
  lemma PrefixTestIff(base: seq<string>, cs: seq<string>)
    requires Names(base) && base != [] && Names(cs)
    ensures HasPrefix(BasePath(cs), BasePath(base) + "/") || BasePath(cs) == BasePath(base) <==> base <= cs
  {
    hide Names, BasePath;
    var bp, cp := BasePath(base), BasePath(cs);
    if base <= cs && base != cs {
      PrefixOfComponents(base, cs);
    }
    if HasPrefix(cp, bp + "/") {
      var rest := cp[|bp| + 1..];
      assert cp == (bp + "/") + rest;
      PrefixComponents(base, cs, rest);
    }
    if cp == bp {
      SamePath(base, cs);
    }
  }

  /** The guard accepts a path exactly when it is not empty, is relative, and the normalised components of base and
      path together begin with those of the base; it returns that path.  The base is any clean absolute path other
      than the root. */
  lemma ResolveIff(base: seq<string>, p: string)
    requires Names(base) && base != []
    ensures Resolve(BasePath(base), p).Ok? <==> p != "" && !IsAbs(p) && base <= Normalize(base, Split(p), true)
    ensures Resolve(BasePath(base), p).Ok? ==>
              Resolve(BasePath(base), p).value == BasePath(Normalize(base, Split(p), true))
  {
    if p != "" {
      ComponentsNormal(p);
      RenderComponents(Components(p), IsAbs(p));
      if !IsAbs(p) {
        JoinedComponents(base, p);
        var cs := Normalize(base, Split(p), true);
        RenderComponents(cs, true);
        PrefixTestIff(base, cs);
      }
    }
  }

  lemma RootPrefixIff(cs: seq<string>)
    requires Names(cs)
    ensures HasPrefix(BasePath(cs), "//") || BasePath(cs) == "/" <==> cs == []
  {
    if cs != [] {
      assert cs[0] in cs;
      JoinStart(cs);
      assert BasePath(cs)[1] == Join(cs)[0];
    }
  }

  /** With the root as base the guard rejects every path but those that come to the root itself: the prefix tested for
      is then two separators. */
  lemma ResolveUnderRootIff(p: string)
    ensures Resolve("/", p).Ok? <==> p != "" && !IsAbs(p) && Normalize([], Split(p), true) == []
  {
    if p != "" {
      ComponentsNormal(p);
      RenderComponents(Components(p), IsAbs(p));
      if !IsAbs(p) {
        JoinedComponents([], p);
        assert BasePath([]) == "/";
        var cs := Normalize([], Split(p), true);
        RenderComponents(cs, true);
        RootPrefixIff(cs);
        hide Split, Join, Normalize, HasPrefix;
        assert "/" + "/" == "//";
      }
    }
  }
}
