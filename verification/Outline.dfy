/** The capped outline of a directory tree. */
module Outline {
  import opened Outcomes
  import opened Text
  import opened Sorting
  import P = PathGuard

  /** A directory entry; a directory whose entries cannot be read has none. */
  datatype Node =
    | File(name: string)
    | Dir(name: string, entries: Option<seq<Node>>)

  datatype Line =
    | EntryLine(depth: nat, name: string, isDir: bool)
    | CutLine(depth: nat)

  /** How a walk over a directory returns: normally, with the signal to skip the directory, or with an error. */
  datatype Outcome = Finished | Skipped | Broken

  datatype Walk = Walk(lines: seq<Line>, added: nat, outcome: Outcome)

  predicate SkipName(name: string) {
    ToLower(name) in [".git", "node_modules", ".idea", ".vscode", "vendor", ".cache", ".github"]
  }

  function ByName(): (Node, Node) -> bool {
    (a: Node, b: Node) => Before(a.name, b.name)
  }

  function Entry(e: Node, depth: nat): Line {
    EntryLine(depth, e.name, e.Dir?)
  }

  // ---- the walk ----

  function WalkDir(dir: Option<seq<Node>>, depth: nat, maxDepth: nat, cap: nat, lines: seq<Line>, added: nat): Walk
    decreases maxDepth + 1 - depth, 1, 0
  {
    if depth > maxDepth then Walk(lines, added, Skipped)
    else if dir.None? then Walk(lines, added, Broken)
    else WalkEntries(Sort(ByName(), dir.value), depth, maxDepth, cap, lines, added)
  }

  /** The loop over sorted entries.  A subdirectory's skip signal is swallowed here, so the loop goes on after it. */
  function WalkEntries(es: seq<Node>, depth: nat, maxDepth: nat, cap: nat, lines: seq<Line>, added: nat): Walk
    requires depth <= maxDepth
    decreases maxDepth + 1 - depth, 0, |es|
  {
    if es == [] then Walk(lines, added, Finished)
    else if SkipName(es[0].name) then WalkEntries(es[1..], depth, maxDepth, cap, lines, added)
    else if added + 1 >= cap then Walk(lines + [Entry(es[0], depth), CutLine(depth)], added + 1, Skipped)
    else
      var w := WalkNode(es[0], depth, maxDepth, cap, lines + [Entry(es[0], depth)], added + 1);
      if w.outcome == Broken then w else WalkEntries(es[1..], depth, maxDepth, cap, w.lines, w.added)
  }

  /** The descent into an entry that has just been listed. */
  function WalkNode(e: Node, depth: nat, maxDepth: nat, cap: nat, lines: seq<Line>, added: nat): Walk
    requires depth <= maxDepth
    decreases maxDepth + 1 - depth, 0, 0
  {
    if e.Dir? then WalkDir(e.entries, depth + 1, maxDepth, cap, lines, added) else Walk(lines, added, Finished)
  }

  // ---- the plain listing ----

  /** The sorted, filtered preorder down to the depth limit, with no cap. */
  function ListDir(dir: Option<seq<Node>>, depth: nat, maxDepth: nat): seq<Line>
    decreases maxDepth + 1 - depth, 1, 0
  {
    if depth > maxDepth || dir.None? then [] else ListEntries(Sort(ByName(), dir.value), depth, maxDepth)
  }

  function ListEntries(es: seq<Node>, depth: nat, maxDepth: nat): seq<Line>
    requires depth <= maxDepth
    decreases maxDepth + 1 - depth, 0, |es|
  {
    if es == [] then []
    else if SkipName(es[0].name) then ListEntries(es[1..], depth, maxDepth)
    else
      [Entry(es[0], depth)] + ListNode(es[0], depth, maxDepth) + ListEntries(es[1..], depth, maxDepth)
  }

  function ListNode(e: Node, depth: nat, maxDepth: nat): seq<Line>
    requires depth <= maxDepth
    decreases maxDepth + 1 - depth, 0, 0
  {
    if e.Dir? then ListDir(e.entries, depth + 1, maxDepth) else []
  }

  // ---- counting lines ----

  function Entries(lines: seq<Line>): seq<Line> {
    if lines == [] then []
    else Entries(lines[..|lines| - 1]) + if lines[|lines| - 1].EntryLine? then [lines[|lines| - 1]] else []
  }

  function Cuts(lines: seq<Line>): nat {
    if lines == [] then 0
    else Cuts(lines[..|lines| - 1]) + if lines[|lines| - 1].CutLine? then 1 else 0
  }

  lemma {:induction false} EntriesConcat(a: seq<Line>, b: seq<Line>)
    ensures Entries(a + b) == Entries(a) + Entries(b)
    ensures Cuts(a + b) == Cuts(a) + Cuts(b)
  {
    if b == [] {
      assert a + b == a;
    } else {
      assert (a + b)[..|a + b| - 1] == a + b[..|b| - 1];
      EntriesConcat(a, b[..|b| - 1]);
    }
  }

  // ---- what the outline is, from the listing ----

  function Min(a: int, b: int): int {
    if a < b then a else b
  }

  /** The lines that lie less deep than all lines before them, the first of them less deep than `d`. */
  function Rises(ls: seq<Line>, d: nat): seq<Line> {
    if ls == [] then []
    else if ls[0].depth < d then [ls[0]] + Rises(ls[1..], ls[0].depth)
    else Rises(ls[1..], d)
  }

  /** Each line followed by a cut as deep. */
  function WithCuts(ls: seq<Line>): seq<Line> {
    if ls == [] then [] else [ls[0], CutLine(ls[0].depth)] + WithCuts(ls[1..])
  }

  /** A listing cut at `room` lines: those lines, a cut, and then every later line that rises above all lines since,
      each with a cut of its own. */
  function Capped(all: seq<Line>, room: nat): seq<Line>
    requires 0 < room
  {
    if |all| < room then all
    else
      var d := all[room - 1].depth;
      all[..room] + [CutLine(d)] + WithCuts(Rises(all[room..], d))
  }

  lemma CappedInFull(all: seq<Line>, cap: nat)
    requires 0 < cap && |all| < cap
    ensures Capped(all, cap) == all
  {
  }

  lemma {:induction false} RisesConcat(xs: seq<Line>, ys: seq<Line>, d: nat, low: nat)
    requires low < d && forall l | l in xs :: low < l.depth
    requires (ys == [] || ys[0].depth == low) && forall l | l in ys :: low <= l.depth
    ensures Rises(xs + ys, d) == Rises(xs, d) + if ys == [] then [] else [ys[0]]
  {
    if xs == [] {
      assert xs + ys == ys;
      if ys != [] {
        assert forall l | l in ys[1..] :: l in ys;
        NoRise(ys[1..], low);
      }
    } else {
      assert (xs + ys)[1..] == xs[1..] + ys;
      assert xs[0] in xs && forall l | l in xs[1..] :: l in xs;
      RisesConcat(xs[1..], ys, if xs[0].depth < d then xs[0].depth else d, low);
    }
  }

  lemma {:induction false} NoRise(ls: seq<Line>, d: nat)
    requires forall l | l in ls :: d <= l.depth
    ensures Rises(ls, d) == []
  {
    if ls != [] {
      assert ls[0] in ls && forall l | l in ls[1..] :: l in ls;
      NoRise(ls[1..], d);
    }
  }

  lemma {:induction false} WithCutsConcat(xs: seq<Line>, ys: seq<Line>)
    ensures WithCuts(xs + ys) == WithCuts(xs) + WithCuts(ys)
  {
    if xs == [] {
      assert xs + ys == ys;
    } else {
      assert (xs + ys)[1..] == xs[1..] + ys;
      WithCutsConcat(xs[1..], ys);
    }
  }

  // ---- what a listing shows ----

  /** The entries whose names are not left out, whatever the case of their letters. */
  predicate Shown(e: Node) {
    ToLower(e.name) !in [".git", "node_modules", ".idea", ".vscode", "vendor", ".cache", ".github"]
  }

  lemma {:induction false} EntriesShow(es: seq<Node>, depth: nat, maxDepth: nat, name: string, isDir: bool)
    requires depth <= maxDepth
    ensures EntryLine(depth, name, isDir) in ListEntries(es, depth, maxDepth)
       <==> exists e | e in es :: e.name == name && e.Dir? == isDir && Shown(e)
  {
    if es != [] {
      hide Sloped, ToLower;
      var first, line := es[0], EntryLine(depth, name, isDir);
      EntriesShow(es[1..], depth, maxDepth, name, isDir);
      NodeSloped(first, depth, maxDepth);
      SlopedIsDeep(ListNode(first, depth, maxDepth), depth + 1, maxDepth);
      assert line !in ListNode(first, depth, maxDepth);
      assert forall e :: e in es <==> e == first || e in es[1..];
    }
  }

  lemma SlopedIsDeep(ls: seq<Line>, depth: nat, maxDepth: nat)
    requires Sloped(ls, depth, maxDepth)
    ensures forall l | l in ls :: l.EntryLine? && depth <= l.depth <= maxDepth
  {
  }

  /** The lines of the given depth are entries in the order of their names. */
  ghost predicate LevelInOrder(ls: seq<Line>, depth: nat) {
    forall i, j | 0 <= i < j < |ls| && ls[i].depth == depth && ls[j].depth == depth ::
      ls[i].EntryLine? && ls[j].EntryLine? && Before(ls[i].name, ls[j].name)
  }

  lemma LevelAfterEntry(first: Line, sub: seq<Line>, rest: seq<Line>, depth: nat)
    requires first.EntryLine? && (forall l | l in sub :: l.depth != depth) && LevelInOrder(rest, depth)
    requires forall l | l in rest && l.depth == depth :: l.EntryLine? && Before(first.name, l.name)
    ensures LevelInOrder([first] + sub + rest, depth)
  {
    var ls := [first] + sub + rest;
    forall i, j | 0 <= i < j < |ls| && ls[i].depth == depth && ls[j].depth == depth
      ensures ls[i].EntryLine? && ls[j].EntryLine? && Before(ls[i].name, ls[j].name)
    {
      assert forall k | 1 <= k <= |sub| :: ls[k] == sub[k - 1];
      assert forall k | |sub| < k < |ls| :: ls[k] == rest[k - 1 - |sub|];
    }
  }

  lemma {:induction false} EntriesInOrder(es: seq<Node>, depth: nat, maxDepth: nat)
    requires depth <= maxDepth && Sorted(ByName(), es)
    ensures LevelInOrder(ListEntries(es, depth, maxDepth), depth)
  {
    hide LevelInOrder, Sloped, SkipName;
    if es != [] {
      var first, sub, rest := es[0], ListNode(es[0], depth, maxDepth), ListEntries(es[1..], depth, maxDepth);
      EntriesInOrder(es[1..], depth, maxDepth);
      NodeSloped(first, depth, maxDepth);
      SlopedIsDeep(sub, depth + 1, maxDepth);
      EntriesSloped(es[1..], depth, maxDepth);
      SlopedIsDeep(rest, depth, maxDepth);
      forall l | l in rest && l.depth == depth ensures Before(first.name, l.name) {
        EntriesShow(es[1..], depth, maxDepth, l.name, l.isDir);
        var e :| e in es[1..] && e.name == l.name;
        assert ByName()(first, e);
      }
      LevelAfterEntry(Entry(first, depth), sub, rest, depth);
    } else {
      NoLevel(depth);
    }
  }

  lemma NoLevel(depth: nat)
    ensures LevelInOrder([], depth)
  {
  }

  /** At its own depth the listing of a directory shows exactly the entries that are not left out by name, whatever the
      case of their letters, in the order of their names, each with a mark for directories. */
  lemma ListingShowsEntries(es: seq<Node>, depth: nat, maxDepth: nat)
    requires depth <= maxDepth && forall i, j | 0 <= i < j < |es| :: es[i].name != es[j].name
    ensures var ls := ListDir(Some(es), depth, maxDepth);
            && (forall name, isDir :: EntryLine(depth, name, isDir) in ls
                                 <==> exists e | e in es :: e.name == name && e.Dir? == isDir && Shown(e))
            && LevelInOrder(ls, depth)
  {
    hide Shown, Sloped, LevelInOrder;
    var sorted := Sort(ByName(), es);
    SortMembers(ByName(), es);
    forall name, isDir
      ensures EntryLine(depth, name, isDir) in ListDir(Some(es), depth, maxDepth)
         <==> exists e | e in es :: e.name == name && e.Dir? == isDir && Shown(e)
    {
      EntriesShow(sorted, depth, maxDepth, name, isDir);
    }
    var dom := set e | e in es;
    NamesOrder(dom);
    SortSorted(ByName(), dom, es);
    EntriesInOrder(sorted, depth, maxDepth);
  }

  // ---- the depths of a listing ----

  /** A listing of entries from `depth` on: it starts there, goes no less deep, and deepens by one at a time. */
  ghost predicate Sloped(ls: seq<Line>, depth: nat, maxDepth: nat) {
    && (ls != [] ==> ls[0].depth == depth)
    && (forall l | l in ls :: l.EntryLine? && depth <= l.depth <= maxDepth)
    && (forall i | 0 <= i < |ls| :: ls[i].depth <= depth + i)
  }

  lemma {:induction false} EntriesSloped(es: seq<Node>, depth: nat, maxDepth: nat)
    requires depth <= maxDepth
    ensures Sloped(ListEntries(es, depth, maxDepth), depth, maxDepth)
    decreases maxDepth + 1 - depth, 0, |es|
  {
    if es != [] {
      hide Sloped, SkipName;
      EntriesSloped(es[1..], depth, maxDepth);
      NodeSloped(es[0], depth, maxDepth);
      SlopedAfterEntry(es[0], depth, maxDepth, ListNode(es[0], depth, maxDepth), ListEntries(es[1..], depth, maxDepth));
    }
  }

  lemma {:induction false} NodeSloped(e: Node, depth: nat, maxDepth: nat)
    requires depth <= maxDepth
    ensures Sloped(ListNode(e, depth, maxDepth), depth + 1, maxDepth)
    decreases maxDepth + 1 - depth, 0, 0
  {
    if e.Dir? {
      DirSloped(e.entries, depth + 1, maxDepth);
    }
  }

  lemma {:induction false} DirSloped(dir: Option<seq<Node>>, depth: nat, maxDepth: nat)
    ensures Sloped(ListDir(dir, depth, maxDepth), depth, maxDepth)
    decreases maxDepth + 1 - depth, 1, 0
  {
    if depth <= maxDepth && dir.Some? {
      hide Sloped;
      EntriesSloped(Sort(ByName(), dir.value), depth, maxDepth);
    }
  }

  lemma SlopedAfterEntry(e: Node, depth: nat, maxDepth: nat, sub: seq<Line>, rest: seq<Line>)
    requires depth <= maxDepth && Sloped(sub, depth + 1, maxDepth) && Sloped(rest, depth, maxDepth)
    ensures Sloped([Entry(e, depth)] + sub + rest, depth, maxDepth)
  {
    var all := [Entry(e, depth)] + sub + rest;
    forall l | l in all ensures l.EntryLine? && depth <= l.depth <= maxDepth {
      assert l == Entry(e, depth) || l in sub || l in rest;
    }
  }

  // ---- the walk makes the outline of the listing ----

  /** What a walk from below the cap has done, with `room` entries to go and the listing `all` ahead. */
  ghost predicate Listed(lines: seq<Line>, added: nat, room: nat, all: seq<Line>, w: Walk) {
    && 0 < room && w.outcome != Broken
    && w.lines == lines + Capped(all, room)
    && (if |all| < room then w.added == added + |all| else added + room <= w.added)
  }

  /** At or over the cap the loop lists one more entry, if there is one, with a cut. */
  lemma {:induction false} OverCap(es: seq<Node>, depth: nat, maxDepth: nat, cap: nat, lines: seq<Line>, added: nat)
    requires depth <= maxDepth && cap <= added
    ensures var w, rest := WalkEntries(es, depth, maxDepth, cap, lines, added), ListEntries(es, depth, maxDepth);
            if rest == [] then w == Walk(lines, added, Finished)
            else w == Walk(lines + [rest[0], CutLine(depth)], added + 1, Skipped)
    decreases |es|
  {
    if es != [] && SkipName(es[0].name) {
      OverCap(es[1..], depth, maxDepth, cap, lines, added);
    }
  }

  lemma NothingListed(lines: seq<Line>, added: nat, room: nat, outcome: Outcome)
    requires 0 < room && outcome != Broken
    ensures Listed(lines, added, room, [], Walk(lines, added, outcome))
  {
    assert lines + [] == lines;
  }

  lemma OneListed(lines: seq<Line>, added: nat, e: Node, depth: nat, maxDepth: nat, sub: seq<Line>, rest: seq<Line>)
    requires Sloped(sub, depth + 1, maxDepth) && Sloped(rest, depth, maxDepth)
    ensures Listed(lines, added, 1, [Entry(e, depth)] + sub + rest,
                   Walk(lines + [Entry(e, depth), CutLine(depth)], added + 1, Skipped))
  {
    hide Rises;
    var more := sub + rest;
    var all := [Entry(e, depth)] + sub + rest;
    forall l | l in more ensures depth <= l.depth {
      assert l in sub || l in rest;
    }
    assert all[..1] == [Entry(e, depth)] && all[1..] == more;
    NoRise(more, depth);
    assert Capped(all, 1) == [Entry(e, depth), CutLine(depth)];
  }

  lemma ListedShort(lines: seq<Line>, added: nat, room: nat, all: seq<Line>, w: Walk)
    requires Listed(lines, added, room, all, w) && |all| < room
    ensures w.lines == lines + all && w.added == added + |all|
  {
  }

  lemma ListedLong(lines: seq<Line>, added: nat, room: nat, all: seq<Line>, w: Walk)
    requires Listed(lines, added, room, all, w) && room <= |all|
    ensures added + room <= w.added
  {
  }

  lemma ListedInFull(lines: seq<Line>, added: nat, room: nat, e: Node, depth: nat, sub: seq<Line>, rest: seq<Line>,
                     w: Walk)
    requires |sub| + 1 < room
    requires Listed(lines + [Entry(e, depth)] + sub, added + 1 + |sub|, room - 1 - |sub|, rest, w)
    ensures Listed(lines, added, room, [Entry(e, depth)] + sub + rest, w)
  {
    var all, r := [Entry(e, depth)] + sub + rest, room - 1 - |sub|;
    assert lines + [Entry(e, depth)] + sub + Capped(rest, r) == lines + ([Entry(e, depth)] + sub + Capped(rest, r));
    if |all| >= room {
      assert all[..room] == [Entry(e, depth)] + sub + rest[..r] && all[room..] == rest[r..];
      assert all[room - 1] == rest[r - 1];
    }
  }

  /** The cap is reached below an entry: of what follows the entry only the first line rises. */
  lemma CappedBelow(e: Node, depth: nat, sub: seq<Line>, rest: seq<Line>, room: nat)
    requires 1 < room <= |sub| + 1
    requires (forall l | l in sub :: depth < l.depth) && forall l | l in rest :: depth <= l.depth
    requires rest == [] || rest[0].depth == depth
    ensures Capped([Entry(e, depth)] + sub + rest, room)
         == [Entry(e, depth)] + Capped(sub, room - 1) + if rest == [] then [] else [rest[0], CutLine(depth)]
  {
    hide Rises, WithCuts, Entry;
    var all := [Entry(e, depth)] + sub + rest;
    var later, d := sub[room - 1..], sub[room - 2].depth;
    assert all[..room] == [Entry(e, depth)] + sub[..room - 1];
    assert all[room..] == later + rest;
    assert all[room - 1] == sub[room - 2] && sub[room - 2] in sub;
    assert forall l | l in later :: l in sub;
    RisesConcat(later, rest, d, depth);
    var more := if rest == [] then [] else [rest[0]];
    WithCutsConcat(Rises(later, d), more);
    OneWithCut(more);
    assert all[..room] + [CutLine(d)] + (WithCuts(Rises(later, d)) + WithCuts(more))
        == [Entry(e, depth)] + (sub[..room - 1] + [CutLine(d)] + WithCuts(Rises(later, d))) + WithCuts(more);
  }

  lemma OneWithCut(ls: seq<Line>)
    requires |ls| <= 1
    ensures WithCuts(ls) == if ls == [] then [] else [ls[0], CutLine(ls[0].depth)]
  {
    if ls != [] {
      assert ls[1..] == [];
    }
  }

  lemma ListedBelow(lines: seq<Line>, added: nat, room: nat, e: Node, depth: nat, maxDepth: nat, sub: seq<Line>,
                    rest: seq<Line>, w1: Walk, w: Walk)
    requires 1 < room <= |sub| + 1 && Sloped(sub, depth + 1, maxDepth) && Sloped(rest, depth, maxDepth)
    requires Listed(lines + [Entry(e, depth)], added + 1, room - 1, sub, w1)
    requires if rest == [] then w == Walk(w1.lines, w1.added, Finished)
             else w == Walk(w1.lines + [rest[0], CutLine(depth)], w1.added + 1, Skipped)
    ensures Listed(lines, added, room, [Entry(e, depth)] + sub + rest, w)
  {
    hide Capped;
    CappedBelow(e, depth, sub, rest, room);
    var more := if rest == [] then [] else [rest[0], CutLine(depth)];
    assert w.lines == lines + ([Entry(e, depth)] + Capped(sub, room - 1) + more);
  }

  lemma {:induction false} WalkDirLists(dir: Option<seq<Node>>, depth: nat, maxDepth: nat, cap: nat, lines: seq<Line>,
                                        added: nat)
    requires added < cap
    ensures var w := WalkDir(dir, depth, maxDepth, cap, lines, added);
            w.outcome != Broken ==> Listed(lines, added, cap - added, ListDir(dir, depth, maxDepth), w)
    decreases maxDepth + 1 - depth, 1, 0
  {
    hide Listed;
    if depth <= maxDepth && dir.Some? {
      WalkEntriesList(Sort(ByName(), dir.value), depth, maxDepth, cap, lines, added);
    } else {
      NothingListed(lines, added, cap - added, Skipped);
    }
  }

  lemma {:induction false} WalkNodeLists(e: Node, depth: nat, maxDepth: nat, cap: nat, lines: seq<Line>, added: nat)
    requires depth <= maxDepth && added < cap
    ensures var w := WalkNode(e, depth, maxDepth, cap, lines, added);
            w.outcome != Broken ==> Listed(lines, added, cap - added, ListNode(e, depth, maxDepth), w)
    decreases maxDepth + 1 - depth, 0, 0
  {
    hide Listed;
    if e.Dir? {
      WalkDirLists(e.entries, depth + 1, maxDepth, cap, lines, added);
    } else {
      NothingListed(lines, added, cap - added, Finished);
    }
  }

  lemma {:induction false} WalkEntriesList(es: seq<Node>, depth: nat, maxDepth: nat, cap: nat, lines: seq<Line>,
                                           added: nat)
    requires depth <= maxDepth && added < cap
    ensures var w := WalkEntries(es, depth, maxDepth, cap, lines, added);
            w.outcome != Broken ==> Listed(lines, added, cap - added, ListEntries(es, depth, maxDepth), w)
    decreases maxDepth + 1 - depth, 0, |es|
  {
    hide WalkNode, ListNode, SkipName, Entry, Capped, Sloped;
    if es == [] {
      NothingListed(lines, added, cap - added, Finished);
    } else if SkipName(es[0].name) {
      WalkEntriesList(es[1..], depth, maxDepth, cap, lines, added);
    } else {
      WalkEntryLists(es, depth, maxDepth, cap, lines, added);
    }
  }

  /** The first entry of a loop, and of the listing. */
  lemma FirstEntry(es: seq<Node>, depth: nat, maxDepth: nat, cap: nat, lines: seq<Line>, added: nat)
    requires es != [] && !SkipName(es[0].name) && depth <= maxDepth
    ensures ListEntries(es, depth, maxDepth)
         == [Entry(es[0], depth)] + ListNode(es[0], depth, maxDepth) + ListEntries(es[1..], depth, maxDepth)
    ensures var lines1 := lines + [Entry(es[0], depth)];
            var w1 := WalkNode(es[0], depth, maxDepth, cap, lines1, added + 1);
            WalkEntries(es, depth, maxDepth, cap, lines, added)
            == if added + 1 >= cap then Walk(lines + [Entry(es[0], depth), CutLine(depth)], added + 1, Skipped)
               else if w1.outcome == Broken then w1
               else WalkEntries(es[1..], depth, maxDepth, cap, w1.lines, w1.added)
  {
    hide WalkNode, ListNode, SkipName, Entry;
  }

  lemma {:induction false} WalkEntryLists(es: seq<Node>, depth: nat, maxDepth: nat, cap: nat, lines: seq<Line>,
                                          added: nat)
    requires es != [] && !SkipName(es[0].name) && depth <= maxDepth && added < cap
    ensures var w := WalkEntries(es, depth, maxDepth, cap, lines, added);
            w.outcome != Broken ==> Listed(lines, added, cap - added, ListEntries(es, depth, maxDepth), w)
    decreases maxDepth + 1 - depth, 0, |es|, 0
  {
    hide WalkNode, ListNode, SkipName, Entry, Listed, Sloped, Capped, WalkEntries, ListEntries;
    FirstEntry(es, depth, maxDepth, cap, lines, added);
    var w := WalkEntries(es, depth, maxDepth, cap, lines, added);
    var sub, rest := ListNode(es[0], depth, maxDepth), ListEntries(es[1..], depth, maxDepth);
    NodeSloped(es[0], depth, maxDepth);
    EntriesSloped(es[1..], depth, maxDepth);
    var lines1 := lines + [Entry(es[0], depth)];
    if added + 1 >= cap {
      OneListed(lines, added, es[0], depth, maxDepth, sub, rest);
    } else {
      var w1 := WalkNode(es[0], depth, maxDepth, cap, lines1, added + 1);
      WalkNodeLists(es[0], depth, maxDepth, cap, lines1, added + 1);
      if w1.outcome != Broken && |sub| + 1 < cap - added {
        ListedShort(lines1, added + 1, cap - added - 1, sub, w1);
        WalkEntriesList(es[1..], depth, maxDepth, cap, w1.lines, w1.added);
        if w.outcome != Broken {
          ListedInFull(lines, added, cap - added, es[0], depth, sub, rest, w);
        }
      } else if w1.outcome != Broken {
        ListedLong(lines1, added + 1, cap - added - 1, sub, w1);
        OverCap(es[1..], depth, maxDepth, cap, w1.lines, w1.added);
        ListedBelow(lines, added, cap - added, es[0], depth, maxDepth, sub, rest, w1, w);
      }
    }
  }

  // ---- the laws ----

  lemma {:induction false} EntriesOnly(lines: seq<Line>)
    requires forall l | l in lines :: l.EntryLine?
    ensures Entries(lines) == lines && Cuts(lines) == 0
  {
    if lines != [] {
      assert forall l | l in lines[..|lines| - 1] :: l in lines;
      EntriesOnly(lines[..|lines| - 1]);
    }
  }

  lemma {:induction false} CutsCount(ls: seq<Line>)
    requires forall l | l in ls :: l.EntryLine?
    ensures Entries(WithCuts(ls)) == ls && Cuts(WithCuts(ls)) == |ls|
  {
    if ls != [] {
      assert ls[0] in ls && forall l | l in ls[1..] :: l in ls;
      CutsCount(ls[1..]);
      EntriesConcat([ls[0], CutLine(ls[0].depth)], WithCuts(ls[1..]));
      PairCounts(ls[0]);
    }
  }

  lemma PairCounts(l: Line)
    requires l.EntryLine?
    ensures var pair := [l, CutLine(l.depth)]; Entries(pair) == [l] && Cuts(pair) == 1
  {
    EntriesConcat([l], [CutLine(l.depth)]);
    CutAlone(l.depth);
    assert [l][..0] == [] && [l] + [CutLine(l.depth)] == [l, CutLine(l.depth)];
  }

  /** There are at most as many rises as the depth allows, they are lines of the listing, and there is one exactly when
      some line lies less deep. */
  lemma {:induction false} RisesBounded(ls: seq<Line>, d: nat)
    requires 0 < d && forall l | l in ls :: 0 < l.depth
    ensures |Rises(ls, d)| <= d - 1 && forall l | l in Rises(ls, d) :: l in ls
    ensures Rises(ls, d) != [] <==> exists j | 0 <= j < |ls| :: ls[j].depth < d
  {
    if ls != [] {
      assert ls[0] in ls && forall l | l in ls[1..] :: l in ls;
      RisesBounded(ls[1..], if ls[0].depth < d then ls[0].depth else d);
      assert forall j | 1 <= j < |ls| :: ls[j] == ls[1..][j - 1];
      assert forall j | 0 <= j < |ls| - 1 :: ls[1..][j] == ls[j + 1];
    }
  }

  /** A walk from the root of the outline. */
  function Outlined(dir: Option<seq<Node>>, maxDepth: nat, cap: nat): Walk {
    WalkDir(dir, 1, maxDepth, cap, [], 0)
  }

  /** For every tree and all positive limits, the outline of a tree that can be read is exactly its plain listing,
      capped: the lines up to the cap, a cut, and the later entries that lie less deep than every entry between them and
      the last one below the cap, and than that one, each with a cut. */
  lemma OutlineIsCappedListing(dir: Option<seq<Node>>, maxDepth: nat, cap: nat)
    requires 0 < cap && Outlined(dir, maxDepth, cap).outcome != Broken
    ensures Outlined(dir, maxDepth, cap).lines == Capped(ListDir(dir, 1, maxDepth), cap)
  {
    WalkDirLists(dir, 1, maxDepth, cap, [], 0);
    assert [] + Capped(ListDir(dir, 1, maxDepth), cap) == Capped(ListDir(dir, 1, maxDepth), cap);
  }

  lemma CappedCounts(all: seq<Line>, maxDepth: nat, cap: nat)
    requires 0 < cap <= |all| && Sloped(all, 1, maxDepth)
    ensures var d, lines := all[cap - 1].depth, Capped(all, cap);
            && 0 < d <= Min(cap, maxDepth)
            && Entries(lines) == all[..cap] + Rises(all[cap..], d)
            && Cuts(lines) == 1 + |Rises(all[cap..], d)| <= d
            && (Rises(all[cap..], d) != [] <==> exists j | cap <= j < |all| :: all[j].depth < d)
  {
    hide Entries, Cuts, Rises, WithCuts;
    var d, later := all[cap - 1].depth, all[cap..];
    assert all[cap - 1] in all && (forall l | l in later :: l in all) && forall l | l in all[..cap] :: l in all;
    RisesBounded(later, d);
    assert forall j | 0 <= j < |later| :: later[j] == all[cap + j];
    assert forall j | cap <= j < |all| :: all[j] == later[j - cap];
    CutCounts(all[..cap], Rises(later, d), d);
  }

  lemma CutCounts(front: seq<Line>, rises: seq<Line>, d: nat)
    requires (forall l | l in front :: l.EntryLine?) && forall l | l in rises :: l.EntryLine?
    ensures var lines := front + [CutLine(d)] + WithCuts(rises);
            Entries(lines) == front + rises && Cuts(lines) == 1 + |rises|
  {
    hide Entries, Cuts, WithCuts;
    EntriesOnly(front);
    CutsCount(rises);
    CutAlone(d);
    EntriesConcat(front + [CutLine(d)], WithCuts(rises));
    EntriesConcat(front, [CutLine(d)]);
  }

  lemma CutAlone(d: nat)
    ensures Entries([CutLine(d)]) == [] && Cuts([CutLine(d)]) == 1
  {
    assert [CutLine(d)][..0] == [];
  }

  /** So an outline that does not break begins with the plain listing, cut at the cap; it shows a truncation exactly
      when the listing reaches the cap; it exceeds the cap exactly when a later entry lies less deep than the last one
      below the cap; and it lists at most `cap + min(cap, maxDepth) - 1` entries with at most `min(cap, maxDepth)`
      truncation lines. */
  lemma OutlineRefinesListing(dir: Option<seq<Node>>, maxDepth: nat, cap: nat)
    requires 0 < maxDepth && 0 < cap
    requires Outlined(dir, maxDepth, cap).outcome != Broken
    ensures var lines, all := Outlined(dir, maxDepth, cap).lines, ListDir(dir, 1, maxDepth);
            && Min(cap, |all|) <= |Entries(lines)|
            && Entries(lines)[..Min(cap, |all|)] == all[..Min(cap, |all|)]
            && (|all| < cap ==> lines == all)
            && (Cuts(lines) > 0 <==> |all| >= cap)
            && (|Entries(lines)| > cap <==>
                |all| >= cap && exists j | cap <= j < |all| :: all[j].depth < all[cap - 1].depth)
            && |Entries(lines)| <= cap + Min(cap, maxDepth) - 1
            && Cuts(lines) <= Min(cap, maxDepth)
  {
    hide Outlined, ListDir, Capped, Rises;
    OutlineIsCappedListing(dir, maxDepth, cap);
    DirSloped(dir, 1, maxDepth);
    var all := ListDir(dir, 1, maxDepth);
    if |all| < cap {
      EntriesOnly(all);
      CappedInFull(all, cap);
    } else {
      CappedCounts(all, maxDepth, cap);
    }
  }

  // ---- the bound is reached ----

  function PlainName(i: nat): string {
    seq(i + 1, _ => 'a')
  }

  /** `steps - 1` directories inside each other, each with a file beside it, and `files` files in the innermost. */
  function Ladder(steps: nat, files: nat): seq<Node>
    requires 0 < steps
  {
    if steps == 1 then seq(files, i requires 0 <= i => File(PlainName(i)))
    else [Dir("a", Some(Ladder(steps - 1, files))), File("b")]
  }

  lemma PlainNameKept(name: string)
    requires name != "" && (name[0] == 'a' || name[0] == 'b')
    ensures !SkipName(name)
  {
    assert ToLower(name)[0] == name[0];
  }

  /** Over plain files alone the walk lists up to the cap and cuts once. */
  lemma {:induction false} FilesReachCap(es: seq<Node>, depth: nat, maxDepth: nat, cap: nat, lines: seq<Line>,
                                         added: nat)
    requires depth <= maxDepth && added < cap && cap - added <= |es|
    requires forall e | e in es :: e.File? && !SkipName(e.name)
    ensures var w := WalkEntries(es, depth, maxDepth, cap, lines, added);
            && w.outcome == Skipped && w.added == cap
            && |Entries(w.lines)| == |Entries(lines)| + cap - added
            && Cuts(w.lines) == Cuts(lines) + 1
    decreases |es|
  {
    hide SkipName;
    assert es[0] in es;
    var e := Entry(es[0], depth);
    CountOne(lines, e);
    CountOne(lines + [e], CutLine(depth));
    assert lines + [e, CutLine(depth)] == lines + [e] + [CutLine(depth)];
    if added + 1 < cap {
      assert forall x | x in es[1..] :: x in es;
      FilesReachCap(es[1..], depth, maxDepth, cap, lines + [e], added + 1);
    }
  }

  lemma CountOne(lines: seq<Line>, l: Line)
    ensures |Entries(lines + [l])| == |Entries(lines)| + if l.EntryLine? then 1 else 0
    ensures Cuts(lines + [l]) == Cuts(lines) + if l.CutLine? then 1 else 0
  {
    assert (lines + [l])[..|lines|] == lines;
  }

  lemma LadderFiles(files: nat)
    ensures forall e | e in Sort(ByName(), Ladder(1, files)) :: e.File? && !SkipName(e.name)
    ensures |Sort(ByName(), Ladder(1, files))| == files
  {
    SortMembers(ByName(), Ladder(1, files));
    forall e | e in Ladder(1, files) ensures e.File? && !SkipName(e.name) {
      PlainNameKept(e.name);
    }
  }

  lemma LadderRung(inner: Option<seq<Node>>)
    ensures Sort(ByName(), [Dir("a", inner), File("b")]) == [Dir("a", inner), File("b")]
    ensures !SkipName("a") && !SkipName("b")
  {
    PlainNameKept("a");
    PlainNameKept("b");
    assert Before("a", "b");
    assert [Dir("a", inner), File("b")][1..] == [File("b")];
    assert [File("b")][1..] == [];
  }

  lemma WalkOfReadable(es: seq<Node>, depth: nat, maxDepth: nat, cap: nat, lines: seq<Line>, added: nat)
    requires depth <= maxDepth
    ensures WalkDir(Some(es), depth, maxDepth, cap, lines, added)
         == WalkEntries(Sort(ByName(), es), depth, maxDepth, cap, lines, added)
  {
  }

  /** The walk over a directory and a file beside it, the cap being reached inside the directory. */
  lemma RungWalk(inner: Option<seq<Node>>, depth: nat, maxDepth: nat, cap: nat, lines: seq<Line>, added: nat)
    requires depth <= maxDepth && added + 1 < cap
    requires var w := WalkDir(inner, depth + 1, maxDepth, cap, lines + [EntryLine(depth, "a", true)], added + 1);
             w.outcome != Broken && w.added >= cap
    ensures var w := WalkDir(inner, depth + 1, maxDepth, cap, lines + [EntryLine(depth, "a", true)], added + 1);
            WalkEntries([Dir("a", inner), File("b")], depth, maxDepth, cap, lines, added)
            == Walk(w.lines + [EntryLine(depth, "b", false), CutLine(depth)], w.added + 1, Skipped)
  {
    hide SkipName, WalkDir, Sort;
    LadderRung(inner);
    var es := [Dir("a", inner), File("b")];
    assert es[1..] == [File("b")];
  }

  lemma CountRung(lines: seq<Line>, depth: nat)
    ensures var ls := lines + [EntryLine(depth, "b", false), CutLine(depth)];
            |Entries(ls)| == |Entries(lines)| + 1 && Cuts(ls) == Cuts(lines) + 1
  {
    hide Entries, Cuts;
    var b := EntryLine(depth, "b", false);
    CountOne(lines, b);
    CountOne(lines + [b], CutLine(depth));
    assert lines + [b, CutLine(depth)] == lines + [b] + [CutLine(depth)];
  }

  lemma {:induction false} LadderWalk(steps: nat, files: nat, depth: nat, maxDepth: nat, cap: nat, lines: seq<Line>,
                                      added: nat)
    requires 0 < steps && 0 < files && depth + steps - 1 <= maxDepth
    requires cap == added + steps - 1 + files
    ensures var w := WalkDir(Some(Ladder(steps, files)), depth, maxDepth, cap, lines, added);
            && w.outcome == Skipped && w.added == cap + steps - 1
            && |Entries(w.lines)| == |Entries(lines)| + (steps - 1) + files + (steps - 1)
            && Cuts(w.lines) == Cuts(lines) + steps
    decreases steps
  {
    hide SkipName, Sort, WalkDir, WalkEntries, Entries, Cuts;
    WalkOfReadable(Ladder(steps, files), depth, maxDepth, cap, lines, added);
    if steps == 1 {
      LadderFiles(files);
      FilesReachCap(Sort(ByName(), Ladder(1, files)), depth, maxDepth, cap, lines, added);
    } else {
      var inner := Some(Ladder(steps - 1, files));
      var e := EntryLine(depth, "a", true);
      CountOne(lines, e);
      LadderWalk(steps - 1, files, depth + 1, maxDepth, cap, lines + [e], added + 1);
      LadderRung(inner);
      RungWalk(inner, depth, maxDepth, cap, lines, added);
      CountRung(WalkDir(inner, depth + 1, maxDepth, cap, lines + [e], added + 1).lines, depth);
    }
  }

  /** For all positive limits there is a tree whose outline has as many entries and truncation lines as the bound
      allows. */
  lemma BoundIsReached(maxDepth: nat, cap: nat)
    requires 0 < maxDepth && 0 < cap
    ensures exists tree :: var w := Outlined(Some(tree), maxDepth, cap);
              && w.outcome != Broken
              && |Entries(w.lines)| == cap + Min(cap, maxDepth) - 1
              && Cuts(w.lines) == Min(cap, maxDepth)
  {
    var steps := Min(cap, maxDepth);
    LadderWalk(steps, cap - steps + 1, 1, maxDepth, cap, [], 0);
    var w := Outlined(Some(Ladder(steps, cap - steps + 1)), maxDepth, cap);
    assert w.outcome != Broken && |Entries(w.lines)| == cap + steps - 1 && Cuts(w.lines) == steps;
  }

  // ---- the order the directory is read in ----

  lemma NamesOrder(entries: set<Node>)
    requires forall a, b | a in entries && b in entries && a.name == b.name :: a == b
    ensures Orders(ByName(), entries)
  {
    var less := ByName();
    forall a, b | a in entries && b in entries
      ensures less(a, b) ==> !less(b, a)
      ensures a != b ==> less(a, b) || less(b, a)
    {
      BeforeTrichotomy(a.name, b.name);
    }
    forall a, b, c | a in entries && b in entries && c in entries && less(a, b) && less(b, c) ensures less(a, c) {
      BeforeTransitive(a.name, b.name, c.name);
    }
  }

  function Names(es: seq<Node>): seq<string> {
    seq(|es|, i requires 0 <= i < |es| => es[i].name)
  }

  /** The same tree down to `levels` levels, the entries of every directory named apart and read in any order. */
  ghost predicate SameTree(a: Option<seq<Node>>, b: Option<seq<Node>>, levels: nat)
    decreases levels, 1
  {
    || levels == 0
    || (a.None? && b.None?)
    || (&& a.Some? && b.Some?
        && Distinct(Names(a.value)) && Distinct(Names(b.value))
        && (forall n :: n in Names(a.value) <==> n in Names(b.value))
        && forall x, y | x in a.value && y in b.value && x.name == y.name :: SameNode(x, y, levels))
  }

  ghost predicate SameNode(x: Node, y: Node, levels: nat)
    requires 0 < levels
    decreases levels, 0
  {
    x.name == y.name && (x.Dir? <==> y.Dir?) && (x.Dir? ==> SameTree(x.entries, y.entries, levels - 1))
  }

  lemma NamesOfSort(es: seq<Node>)
    requires Distinct(Names(es))
    ensures Sorted(Before, Names(Sort(ByName(), es)))
    ensures forall e :: e in Sort(ByName(), es) <==> e in es
    ensures forall n :: n in Names(Sort(ByName(), es)) <==> n in Names(es)
  {
    var dom := set e | e in es;
    var sorted := Sort(ByName(), es);
    forall i, j | 0 <= i < j < |es| ensures es[i].name != es[j].name {
      assert Names(es)[i] != Names(es)[j];
    }
    NamesOrder(dom);
    SortSorted(ByName(), dom, es);
    SortMembers(ByName(), es);
    NamesOfMembers(es, sorted);
    NamesOfMembers(sorted, es);
  }

  lemma NamesOfMembers(xs: seq<Node>, ys: seq<Node>)
    requires forall x | x in xs :: x in ys
    ensures forall n | n in Names(xs) :: n in Names(ys)
  {
    forall n | n in Names(xs) ensures n in Names(ys) {
      var i :| 0 <= i < |xs| && Names(xs)[i] == n;
      assert xs[i] in xs;
      var j :| 0 <= j < |ys| && ys[j] == xs[i];
      assert Names(ys)[j] == n;
    }
  }

  lemma BeforeOrders(dom: set<string>)
    ensures Orders(Before, dom)
  {
    forall a, b | a in dom && b in dom
      ensures Before(a, b) ==> !Before(b, a)
      ensures a != b ==> Before(a, b) || Before(b, a)
    {
      BeforeTrichotomy(a, b);
    }
    forall a, b, c | a in dom && b in dom && c in dom && Before(a, b) && Before(b, c) ensures Before(a, c) {
      BeforeTransitive(a, b, c);
    }
  }

  lemma SameSortedNames(a: seq<string>, b: seq<string>)
    requires Sorted(Before, a) && Sorted(Before, b) && forall n :: n in a <==> n in b
    ensures a == b
  {
    var dom := set n | n in a;
    BeforeOrders(dom);
    assert forall i | 0 <= i < |a| :: a[i] in a;
    assert forall i | 0 <= i < |b| :: b[i] in b;
    SortedUnique(Before, dom, a, b);
  }

  /** Sorted, the entries of the two directories are the same one by one. */
  lemma SortedAlike(a: seq<Node>, b: seq<Node>, levels: nat)
    requires 0 < levels && SameTree(Some(a), Some(b), levels)
    ensures |Sort(ByName(), a)| == |Sort(ByName(), b)|
    ensures forall i | 0 <= i < |Sort(ByName(), a)| :: SameNode(Sort(ByName(), a)[i], Sort(ByName(), b)[i], levels)
  {
    hide SameNode, Sort, Sorted, Distinct;
    var xs, ys := Sort(ByName(), a), Sort(ByName(), b);
    NamesOfSort(a);
    NamesOfSort(b);
    SameSortedNames(Names(xs), Names(ys));
    assert |Names(xs)| == |Names(ys)|;
    forall i | 0 <= i < |xs| ensures SameNode(xs[i], ys[i], levels) {
      assert xs[i] in xs && ys[i] in ys && Names(xs)[i] == Names(ys)[i];
    }
  }

  /** The outline does not depend on the order in which the entries of any directory are read. */
  lemma {:induction false} OutlineIgnoresReadOrder(a: Option<seq<Node>>, b: Option<seq<Node>>, depth: nat,
                                                   maxDepth: nat,
                                                   cap: nat, lines: seq<Line>, added: nat)
    requires depth <= maxDepth ==> SameTree(a, b, maxDepth + 1 - depth)
    ensures WalkDir(a, depth, maxDepth, cap, lines, added) == WalkDir(b, depth, maxDepth, cap, lines, added)
    decreases maxDepth + 1 - depth, 1, 0
  {
    hide SameNode, Sort;
    if depth <= maxDepth && a.Some? {
      SortedAlike(a.value, b.value, maxDepth + 1 - depth);
      EntriesIgnoreReadOrder(Sort(ByName(), a.value), Sort(ByName(), b.value), depth, maxDepth, cap, lines, added);
    }
  }

  lemma {:induction false} EntriesIgnoreReadOrder(xs: seq<Node>, ys: seq<Node>, depth: nat, maxDepth: nat,
                                                  cap: nat, lines: seq<Line>, added: nat)
    requires depth <= maxDepth && |xs| == |ys|
    requires forall i | 0 <= i < |xs| :: SameNode(xs[i], ys[i], maxDepth + 1 - depth)
    ensures WalkEntries(xs, depth, maxDepth, cap, lines, added) == WalkEntries(ys, depth, maxDepth, cap, lines, added)
    decreases maxDepth + 1 - depth, 0, |xs|
  {
    hide SameTree, WalkDir;
    if xs != [] {
      assert SameNode(xs[0], ys[0], maxDepth + 1 - depth);
      var lines1 := lines + [Entry(xs[0], depth)];
      if xs[0].Dir? {
        OutlineIgnoresReadOrder(xs[0].entries, ys[0].entries, depth + 1, maxDepth, cap, lines1, added + 1);
      }
      var w := WalkNode(xs[0], depth, maxDepth, cap, lines1, added + 1);
      EntriesIgnoreReadOrder(xs[1..], ys[1..], depth, maxDepth, cap, lines, added);
      EntriesIgnoreReadOrder(xs[1..], ys[1..], depth, maxDepth, cap, w.lines, w.added);
    }
  }

  // ---- the program ----

  function Indent(depth: nat): string {
    seq(if depth == 0 then 0 else 2 * (depth - 1), _ => ' ')
  }

  function RenderLine(l: Line, cap: nat): string {
    match l
    case EntryLine(depth, name, isDir) => Indent(depth) + "- " + name + if isDir then "/" else ""
    case CutLine(depth) => Indent(depth) + "... truncated after " + Decimal(cap) + " entries"
  }

  function RenderLines(ls: seq<Line>, cap: nat): seq<string> {
    seq(|ls|, i requires 0 <= i < |ls| => RenderLine(ls[i], cap))
  }

  function JoinLines(ls: seq<string>): string {
    if ls == [] then "" else if |ls| == 1 then ls[0] else ls[0] + "\n" + JoinLines(ls[1..])
  }

  lemma IndentSteps(depth: nat)
    requires depth > 0
    ensures Indent(1) == "" && Indent(depth + 1) == "  " + Indent(depth)
  {
  }

  /** A line at the first level is a dash and the name, a directory's with a slash. */
  lemma FirstLevelReads(name: string, cap: nat)
    ensures RenderLine(EntryLine(1, name, false), cap) == "- " + name
    ensures RenderLine(EntryLine(1, name, true), cap) == "- " + name + "/"
    ensures RenderLine(CutLine(1), cap) == "... truncated after " + Decimal(cap) + " entries"
  {
    hide Decimal, Indent;
    IndentSteps(1);
    assert "" + "- " == "- " && "- " + name + "" == "- " + name;
    assert "" + "... truncated after " == "... truncated after ";
  }

  lemma Shifted(indent: string, x: string, y: string, z: string)
    ensures ("  " + indent) + x + y + z == "  " + (indent + x + y + z)
  {
  }

  /** Each level further down puts two spaces in front. */
  lemma LevelsShift(depth: nat, name: string, isDir: bool, cap: nat)
    requires depth > 0
    ensures RenderLine(EntryLine(depth + 1, name, isDir), cap)
         == "  " + RenderLine(EntryLine(depth, name, isDir), cap)
    ensures RenderLine(CutLine(depth + 1), cap) == "  " + RenderLine(CutLine(depth), cap)
  {
    hide Decimal, Indent;
    IndentSteps(depth);
    Shifted(Indent(depth), "- ", name, if isDir then "/" else "");
    Shifted(Indent(depth), "... truncated after ", Decimal(cap), " entries");
  }

  /** Every line but the first is put on after a line break. */
  lemma {:induction false} LinesJoin(ls: seq<string>, l: string)
    ensures JoinLines([]) == "" && JoinLines([l]) == l
    ensures ls != [] ==> JoinLines(ls + [l]) == JoinLines(ls) + "\n" + l
  {
    if |ls| > 1 {
      assert (ls + [l])[1..] == ls[1..] + [l];
      LinesJoin(ls[1..], l);
    } else if |ls| == 1 {
      assert (ls + [l])[1..] == [l];
    }
  }

  /** The variables the recursive closure shares. */
  class Outliner {
    const maxDepth: nat
    const cap: nat
    var lines: seq<string>
    var added: nat
    ghost var listed: seq<Line>
    ghost const title: string

    ghost predicate Valid()
      reads this
    {
      lines == [title] + RenderLines(listed, cap)
    }

    constructor (title: string, maxDepth: nat, cap: nat)
      ensures this.maxDepth == maxDepth && this.cap == cap && this.title == title
      ensures Valid() && listed == [] && added == 0
    {
      this.title, this.maxDepth, this.cap := title, maxDepth, cap;
      lines, added, listed := [title], 0, [];
    }

    method Append(l: Line)
      requires Valid()
      modifies this`lines, this`listed
      ensures Valid() && listed == old(listed) + [l]
    {
      lines := lines + [RenderLine(l, cap)];
      listed := listed + [l];
    }

    method WalkInto(dir: Option<seq<Node>>, depth: nat) returns (outcome: Outcome)
      requires Valid()
      modifies this
      ensures Valid()
      ensures Walk(listed, added, outcome) == WalkDir(dir, depth, maxDepth, cap, old(listed), old(added))
      decreases maxDepth + 1 - depth
    {
      hide Sort, SkipName, RenderLine, RenderLines;
      if depth > maxDepth {
        return Skipped;
      }
      if dir.None? {
        return Broken;
      }
      var es := Sort(ByName(), dir.value);
      var i := 0;
      while i < |es|
        invariant 0 <= i <= |es| && Valid()
        invariant WalkEntries(es[i..], depth, maxDepth, cap, listed, added)
               == WalkDir(dir, depth, maxDepth, cap, old(listed), old(added))
      {
        var e := es[i];
        assert es[i..][0] == e && es[i..][1..] == es[i + 1..];
        i := i + 1;
        if SkipName(e.name) {
          continue;
        }
        Append(Entry(e, depth));
        added := added + 1;
        if added >= cap {
          ghost var l := listed;
          Append(CutLine(depth));
          assert listed == l[..|l| - 1] + [Entry(e, depth), CutLine(depth)];
          return Skipped;
        }
        if e.Dir? {
          var inner := WalkInto(e.entries, depth + 1);
          if inner == Broken {
            return Broken;
          }
        }
      }
      return Finished;
    }
  }

  /** The outline of a directory as text: the cleaned path, then the walk's lines.  `node` is what the lookup of the
      path under the guard found. */
  method DescribeStructure(allowRead: bool, root: string, node: Result<Node>, maxDepth: int, maxEntries: int)
      returns (r: Result<string>)
    ensures !allowRead || node.Err? || node.value.File? ==> r.Err?
    ensures allowRead && node.Ok? && node.value.Dir? ==>
              var depth: nat := if maxDepth <= 0 then 3 else maxDepth;
              var cap: nat := if maxEntries <= 0 then 200 else maxEntries;
              var w := Outlined(node.value.entries, depth, cap);
              if w.outcome == Broken then r.Err?
              else r == Ok(JoinLines([P.Clean(root) + "/"] + RenderLines(w.lines, cap)))
  {
    if !allowRead {
      return Err("read is disabled by configuration");
    }
    var depth: nat := if maxDepth <= 0 then 3 else maxDepth;
    var cap: nat := if maxEntries <= 0 then 200 else maxEntries;
    if node.Err? {
      return Err(node.error);
    }
    if node.value.File? {
      return Err(root + " is not a directory");
    }
    var o := new Outliner(P.Clean(root) + "/", depth, cap);
    var outcome := o.WalkInto(node.value.entries, 1);
    if outcome == Broken {
      return Err("directory cannot be read");
    }
    return Ok(JoinLines(o.lines));
  }
}
