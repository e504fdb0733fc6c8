/** What cleaning and guarding a path come to, told from its components: how far they climb above their start, where
    they end, and which of their names are left. */
module PathDepth {
  import opened Outcomes
  import opened PathGuard

  predicate IsDot(c: string) {
    c == "" || c == "."
  }

  /** The depth at the end, zero at the start: a name leads down, `..` leads up. */
  function Height(cs: seq<string>): int {
    if cs == [] then 0
    else
      var c := cs[|cs| - 1];
      Height(cs[..|cs| - 1]) + if IsDot(c) then 0 else if c == ".." then -1 else 1
  }

  /** The depth of the highest place on the way, the start included. */
  function Highest(cs: seq<string>): (r: int)
    ensures r <= 0 && r <= Height(cs)
  {
    if cs == [] then 0
    else
      var r := Highest(cs[..|cs| - 1]);
      if Height(cs) < r then Height(cs) else r
  }

  /** The names that are left, read from the end: every `..` takes away the nearest name before it that has not been
      taken away.  `ups` of them are still to be applied. */
  function Left(cs: seq<string>, ups: nat): seq<string> {
    if cs == [] then []
    else
      var rest, c := cs[..|cs| - 1], cs[|cs| - 1];
      if IsDot(c) then Left(rest, ups)
      else if c == ".." then Left(rest, ups + 1)
      else if ups > 0 then Left(rest, ups - 1)
      else Left(rest, 0) + [c]
  }

  function Survivors(cs: seq<string>): seq<string> {
    Left(cs, 0)
  }

  /** All but the last `n`, as far as there are any. */
  function Without(s: seq<string>, n: nat): seq<string> {
    if n < |s| then s[..|s| - n] else []
  }

  function Larger(a: int, b: int): int {
    if a < b then b else a
  }

  // ---- splitting ----

  /** Splitting loses nothing. */
  lemma {:induction false} JoinSplit(s: string)
    ensures Join(Split(s)) == s
  {
    if s != "" {
      JoinSplit(s[1..]);
      var r := Split(s[1..]);
      if s[0] == '/' {
        assert ([""] + r)[1..] == r;
      } else {
        var t := [[s[0]] + r[0]] + r[1..];
        assert t[1..] == r[1..];
        assert s == [s[0]] + s[1..];
        assert Join(r) == if |r| == 1 then r[0] else r[0] + "/" + Join(r[1..]);
      }
    }
  }

  // ---- one component after another ----

  lemma NamesStay(base: seq<string>, cs: seq<string>)
    requires PathGuard.Names(base)
    ensures ".." !in Normalize(base, cs, true)
  {
    if cs != [] {
      NamesStay(base, cs[..|cs| - 1]);
    }
  }

  /** How many names of the base go when `ups` more steps up follow. */
  function Climbed(cs: seq<string>, ups: nat): nat {
    Larger(-Highest(cs), ups - Height(cs))
  }

  /** The steps up that are still to be applied before component `c`, when `ups` are after it. */
  function Owed(c: string, ups: nat): nat {
    if IsDot(c) then ups else if c == ".." then ups + 1 else if ups > 0 then ups - 1 else 0
  }

  lemma PushedLeft(n: seq<string>, c: string, ups: nat)
    requires ".." !in n
    ensures Without(Push(n, c, true), ups)
         == Without(n, Owed(c, ups)) + if !IsDot(c) && c != ".." && ups == 0 then [c] else []
  {
  }

  lemma LeftStep(cs: seq<string>, ups: nat)
    requires cs != []
    ensures var rest, c := cs[..|cs| - 1], cs[|cs| - 1];
            && Left(cs, ups) == Left(rest, Owed(c, ups)) + (if !IsDot(c) && c != ".." && ups == 0 then [c] else [])
            && Climbed(cs, ups) == Climbed(rest, Owed(c, ups))
  {
  }

  lemma {:induction false} NormalizeLeft(base: seq<string>, cs: seq<string>, ups: nat)
    requires PathGuard.Names(base)
    ensures Without(Normalize(base, cs, true), ups) == Without(base, Climbed(cs, ups)) + Left(cs, ups)
    decreases |cs|
  {
    hide Push, Left, Climbed, Without, Owed, IsDot, PathGuard.Names;
    if cs != [] {
      var rest, c := cs[..|cs| - 1], cs[|cs| - 1];
      NamesStay(base, rest);
      PushedLeft(Normalize(base, rest, true), c, ups);
      LeftStep(cs, ups);
      NormalizeLeft(base, rest, Owed(c, ups));
    } else {
      NothingClimbed(ups);
    }
  }

  lemma NothingClimbed(ups: nat)
    ensures Climbed([], ups) == ups && Left([], ups) == []
  {
  }

  lemma {:induction false} LeftOver(cs: seq<string>, ups: nat)
    ensures |Left(cs, ups)| == Height(cs) - ups + Climbed(cs, ups)
  {
    if cs != [] {
      var rest, c := cs[..|cs| - 1], cs[|cs| - 1];
      LeftOver(rest, if IsDot(c) then ups else if c == ".." then ups + 1 else if ups > 0 then ups - 1 else 0);
    }
  }

  /** An absolute path of names with any components after it: as many names go from its end as the components climb
      above their start, and those of their names that are left follow.  There are as many of these as the depth at
      the end is below the highest place. */
  lemma NormalizeByDepth(base: seq<string>, cs: seq<string>)
    requires PathGuard.Names(base)
    ensures Normalize(base, cs, true) == Without(base, -Highest(cs)) + Survivors(cs)
    ensures |Survivors(cs)| == Height(cs) - Highest(cs)
  {
    NormalizeLeft(base, cs, 0);
    LeftOver(cs, 0);
    var n := Normalize(base, cs, true);
    assert Without(n, 0) == n by {
      if n != [] {
        assert n[..|n|] == n;
      }
    }
  }

  // ---- the laws of normalising ----

  /** `..` takes away the name in front of it, wherever the two stand. */
  lemma UpTakesName(stack: seq<string>, a: seq<string>, n: string, b: seq<string>, rooted: bool)
    requires IsName(n)
    ensures Normalize(stack, a + [n, ".."] + b, rooted) == Normalize(stack, a + b, rooted)
  {
    var s := Normalize(stack, a, rooted);
    NormalizeConcat(stack, a + [n, ".."], b, rooted);
    NormalizeConcat(stack, a, [n, ".."], rooted);
    NormalizeConcat(stack, a, b, rooted);
    assert [n, ".."][..1] == [n] && [n][..0] == [];
    assert Normalize(s, [n], rooted) == s + [n];
    assert Normalize(s, [n, ".."], rooted) == s;
  }

  /** An empty component or `.` counts for nothing, wherever it stands. */
  lemma DotsAreSkipped(stack: seq<string>, a: seq<string>, dot: string, b: seq<string>, rooted: bool)
    requires dot == "" || dot == "."
    ensures Normalize(stack, a + [dot] + b, rooted) == Normalize(stack, a + b, rooted)
  {
    NormalizeConcat(stack, a + [dot], b, rooted);
    NormalizeConcat(stack, a, [dot], rooted);
    NormalizeConcat(stack, a, b, rooted);
    assert [dot][..0] == [];
  }

  function Ups(n: nat): seq<string> {
    seq(n, _ => "..")
  }

  lemma {:induction false} OneMoreUp(cs: seq<string>, ups: nat)
    ensures Left(cs, ups + 1) == Without(Left(cs, ups), 1)
    decreases |cs|
  {
    if cs != [] {
      var rest, c := cs[..|cs| - 1], cs[|cs| - 1];
      OneMoreUp(rest, if IsDot(c) then ups else if c == ".." then ups + 1 else if ups > 0 then ups - 1 else 0);
      if !IsDot(c) && c != ".." && ups == 0 {
        assert Without(Left(rest, 0) + [c], 1) == Left(rest, 0);
      }
    }
  }

  lemma {:induction false} LeftAreNames(cs: seq<string>, ups: nat)
    ensures ".." !in Left(cs, ups)
  {
    if cs != [] {
      var rest, c := cs[..|cs| - 1], cs[|cs| - 1];
      LeftAreNames(rest, if IsDot(c) then ups else if c == ".." then ups + 1 else if ups > 0 then ups - 1 else 0);
    }
  }

  lemma PushedOnRelative(n: nat, left: seq<string>, c: string)
    requires ".." !in left
    ensures Push(Ups(n) + left, c, false)
         == if IsDot(c) then Ups(n) + left
            else if c != ".." then Ups(n) + (left + [c])
            else if left != [] then Ups(n) + left[..|left| - 1]
            else Ups(n + 1)
  {
    var s := Ups(n) + left;
    if left != [] {
      assert s[|s| - 1] == left[|left| - 1] && left[|left| - 1] in left;
    } else if n > 0 {
      assert s[|s| - 1] == "..";
    }
  }

  /** What one more component does to the names left and to the highest place. */
  lemma DepthStep(cs: seq<string>)
    requires cs != []
    ensures var rest, c := cs[..|cs| - 1], cs[|cs| - 1];
            var left := Survivors(rest);
            && Survivors(cs) == (if IsDot(c) then left
                                 else if c != ".." then left + [c]
                                 else if left != [] then left[..|left| - 1] else [])
            && Highest(cs) == if c == ".." && left == [] then Highest(rest) - 1 else Highest(rest)
  {
    var rest := cs[..|cs| - 1];
    LeftOver(rest, 0);
    OneMoreUp(rest, 0);
  }

  /** A relative path comes to as many steps up as it climbs above its start, and the names that are left. */
  lemma {:induction false} RelativeByDepth(cs: seq<string>)
    ensures Normalize([], cs, false) == Ups(-Highest(cs)) + Survivors(cs)
  {
    hide Push, Ups, Survivors, Highest;
    if cs != [] {
      var rest, c := cs[..|cs| - 1], cs[|cs| - 1];
      RelativeByDepth(rest);
      NoneLeft(rest);
      DepthStep(cs);
      PushedOnRelative(-Highest(rest), Survivors(rest), c);
      assert Ups(-Highest(cs)) + [] == Ups(-Highest(cs));
    } else {
      NothingByDepth();
    }
  }

  lemma NothingByDepth()
    ensures Ups(-Highest([])) + Survivors([]) == []
  {
  }

  lemma NoneLeft(cs: seq<string>)
    ensures ".." !in Survivors(cs)
  {
    LeftAreNames(cs, 0);
  }

  // ---- the laws of the guard ----

  /** How many names of the base a path takes away. */
  function TakenAway(base: seq<string>, cs: seq<string>): (r: nat)
    ensures r <= |base|
  {
    if -Highest(cs) < |base| then -Highest(cs) else |base|
  }

  /** The guard accepts a path exactly when it is not empty, is relative, and its names that are left begin with the
      names of the base it takes away; it returns the base without these, and the names that are left. */
  lemma AcceptedIff(base: seq<string>, p: string)
    requires PathGuard.Names(base) && base != []
    ensures var r, left := Resolve(BasePath(base), p), Survivors(Split(p));
            var kept := |base| - TakenAway(base, Split(p));
            && (r.Ok? <==> p != "" && !IsAbs(p) && base[kept..] <= left)
            && (r.Ok? ==> r.value == BasePath(base[..kept] + left))
  {
    hide Resolve, Normalize, Survivors, Highest, IsAbs, BasePath;
    ResolveIff(base, p);
    NormalizeByDepth(base, Split(p));
    var left, kept := Survivors(Split(p)), |base| - TakenAway(base, Split(p));
    assert Without(base, -Highest(Split(p))) == base[..kept];
    PrefixPastCut(base, kept, left);
  }

  lemma PrefixPastCut(base: seq<string>, kept: nat, left: seq<string>)
    requires kept <= |base|
    ensures base <= base[..kept] + left <==> base[kept..] <= left
  {
    var whole := base[..kept] + left;
    assert whole[kept..] == left;
    if base <= whole {
      assert base[kept..] == whole[kept..|base|] == left[..|base| - kept];
    }
    if base[kept..] <= left {
      assert whole[..|base|] == base[..kept] + base[kept..] == base;
    }
  }

  /** A relative path that never climbs above its start is accepted, as the base with the names that are left. */
  lemma StayingBelowIsAccepted(base: seq<string>, p: string)
    requires PathGuard.Names(base) && base != [] && p != "" && !IsAbs(p) && Highest(Split(p)) == 0
    ensures Resolve(BasePath(base), p) == Ok(BasePath(base + Survivors(Split(p))))
  {
    hide Resolve, Survivors, BasePath, IsAbs;
    AcceptedIff(base, p);
    assert base[..|base|] == base && base[|base|..] == [];
  }

  /** A path that ends above its start is refused, unless it climbs past the root. */
  lemma EndingAboveIsRefused(base: seq<string>, p: string)
    requires PathGuard.Names(base) && base != []
    requires Height(Split(p)) < 0 && -Highest(Split(p)) <= |base|
    ensures Resolve(BasePath(base), p).Err?
  {
    hide Resolve, Normalize, IsAbs, BasePath;
    AcceptedIff(base, p);
    NormalizeByDepth(base, Split(p));
    hide Survivors, Highest, Height;
    var kept := |base| - TakenAway(base, Split(p));
    assert |base[kept..]| == -Highest(Split(p)) > |Survivors(Split(p))|;
  }

  lemma {:induction false} UpsByDepth(n: nat)
    ensures Height(Ups(n)) + n == 0 && Highest(Ups(n)) + n == 0 && Survivors(Ups(n)) == []
  {
    if n > 0 {
      assert Ups(n)[..n - 1] == Ups(n - 1);
      UpsByDepth(n - 1);
      OneMoreUp(Ups(n - 1), 0);
    }
  }

  lemma {:induction false} NamesByDepth(cs: seq<string>, names: seq<string>)
    requires PathGuard.Names(names)
    ensures Height(cs + names) == Height(cs) + |names| && Highest(cs + names) == Highest(cs)
    ensures Survivors(cs + names) == Survivors(cs) + names
  {
    if names == [] {
      assert cs + names == cs;
    } else {
      var all := cs + names;
      assert names[|names| - 1] in names && all[..|all| - 1] == cs + names[..|names| - 1];
      NamesByDepth(cs, names[..|names| - 1]);
    }
  }

  /** The parent of the base is refused, and of its other entries only the base itself is accepted. */
  lemma SiblingsAreRefused(base: seq<string>, n: string)
    requires PathGuard.Names(base) && base != [] && IsName(n)
    ensures Resolve(BasePath(base), "..").Err?
    ensures Resolve(BasePath(base), "../" + n).Ok? <==> n == base[|base| - 1]
  {
    hide Resolve, BasePath, Height, Highest, Survivors, Split, Ups;
    SplitWhole("..");
    SplitWhole(n);
    SplitConcat("..", n);
    assert "../" + n == ".." + "/" + n;
    OneUp();
    NamesByDepth([".."], [n]);
    EndingAboveIsRefused(base, "..");
    AcceptedIff(base, "../" + n);
    assert [] + [n] == [n];
    assert base[|base| - 1..] == [base[|base| - 1]];
  }

  lemma OneUp()
    ensures Height([".."]) == -1 && Highest([".."]) == -1 && Survivors([".."]) == []
  {
    UpsByDepth(1);
    assert Ups(1) == [".."];
  }

  /** The root is its own parent, so a path that climbs past it and comes back down to the base is accepted, although
      by its components it ends above its start. */
  lemma PastTheRootIsAccepted(base: seq<string>)
    requires PathGuard.Names(base) && base != []
    ensures var cs := Ups(|base| + 1) + base;
            && Height(cs) == -1
            && Resolve(BasePath(base), Join(cs)) == Ok(BasePath(base))
  {
    hide Resolve, BasePath;
    var cs := Ups(|base| + 1) + base;
    UpsByDepth(|base| + 1);
    NamesByDepth(Ups(|base| + 1), base);
    assert cs[0] == ".." && forall c | c in cs :: '/' !in c;
    SplitJoin(cs);
    JoinStart(cs);
    AcceptedIff(base, Join(cs));
    hide Height, Highest, Survivors, Join, Split;
    assert [] + base == base && base[0..] == base && base[..0] + base == base;
  }

  /** With the root as base exactly the relative paths of which no name is left are accepted. */
  lemma UnderRootIff(p: string)
    ensures Resolve("/", p).Ok? <==> p != "" && !IsAbs(p) && Survivors(Split(p)) == []
  {
    hide Resolve, Survivors, Normalize, IsAbs;
    ResolveUnderRootIff(p);
    NormalizeByDepth([], Split(p));
  }
}
