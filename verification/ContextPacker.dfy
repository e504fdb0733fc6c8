/** Loading context files under a byte budget. */
module ContextPacker {
  import opened Outcomes
  import opened AgentState

  /** What the filesystem tool answers for a path: an error from the lookup, a directory with the outcome of its
      outline, or a file with the outcome of reading it. */
  datatype Entry =
    | Unavailable(error: string)
    | Directory(outline: Result<string>)
    | File(content: Result<string>)

  type FileView = string -> Entry

  const FILE_CAP := 32 * 1024

  const MARKER := "\n[truncated]"

  /** At most this many bytes of one file are taken. */
  function PerFileCap(budget: nat): nat {
    if 0 < budget < FILE_CAP then budget else FILE_CAP
  }

  // ---- the specification ----

  datatype Packed = Packed(files: seq<ContextFile>, total: nat)

  function Size(files: seq<ContextFile>): nat {
    if files == [] then 0 else Size(files[..|files| - 1]) + |files[|files| - 1].content|
  }

  predicate Spent(budget: nat, total: nat) {
    budget > 0 && total >= budget
  }

  /** The bytes one more file may take, under a cap on each file. */
  function Room(budget: nat, total: nat, cap: nat): nat
    requires !Spent(budget, total)
  {
    if budget > 0 && budget - total < cap then budget - total else cap
  }

  /** A limit of zero is none. */
  function Cut(content: string, limit: nat): string {
    if 0 < limit < |content| then content[..limit] + MARKER else content
  }

  function Append(p: Packed, f: ContextFile, budget: nat, cap: nat): Packed
    requires !Spent(budget, p.total)
  {
    var content := Cut(f.content, Room(budget, p.total, cap));
    Packed(p.files + [f.(content := content)], p.total + |content|)
  }

  function TrimSlash(p: string): string {
    if p != "" && p[|p| - 1] == '/' then p[..|p| - 1] else p
  }

  /** The file a path contributes, in full. */
  function Load(fs: FileView, path: string): Result<ContextFile> {
    match fs(path)
    case Unavailable(e) => Err("read context " + path + ": " + e)
    case Directory(Err(e)) => Err("describe context " + path + ": " + e)
    case Directory(Ok(text)) => Ok(ContextFile(TrimSlash(path) + " (structure)", text))
    case File(Err(e)) => Err("read context " + path + ": " + e)
    case File(Ok(text)) => Ok(ContextFile(path, text))
  }

  /** The first occurrences, in order. */
  function Dedup(paths: seq<string>): seq<string> {
    if paths == [] then []
    else
      var d := Dedup(paths[..|paths| - 1]);
      if paths[|paths| - 1] in d then d else d + [paths[|paths| - 1]]
  }

  /** Packs paths without repetition until one cannot be loaded or the budget is spent. */
  function Pack(fs: FileView, p: Packed, paths: seq<string>, budget: nat): Result<Packed>
    decreases |paths|
  {
    if paths == [] || Spent(budget, p.total) then Ok(p)
    else match Load(fs, paths[0])
      case Err(e) => Err(e)
      case Ok(f) => Pack(fs, Append(p, f, budget, PerFileCap(budget)), paths[1..], budget)
  }

  function PackAll(fs: FileView, candidates: seq<string>, budget: nat): Result<Packed> {
    Pack(fs, Packed([], 0), Dedup(candidates), budget)
  }

  // ---- the program ----

  /** The accumulators that are passed by reference. */
  class Accumulator {
    var files: seq<ContextFile>
    var total: nat

    constructor ()
      ensures files == [] && total == 0
    {
      files, total := [], 0;
    }

    /** Adds one file, cut to what is left; reports whether the budget is spent. */
    method AppendWithBudget(f: ContextFile, budget: nat, perFileCap: nat) returns (exhausted: bool)
      modifies this
      ensures if Spent(budget, old(total)) then exhausted && files == old(files) && total == old(total)
              else Packed(files, total) == Append(Packed(old(files), old(total)), f, budget, perFileCap)
                   && exhausted == Spent(budget, total)
    {
      var limit := perFileCap;
      if budget > 0 {
        var remaining := budget - total;
        if remaining <= 0 {
          return true;
        }
        if remaining < limit {
          limit := remaining;
        }
      }
      var content := f.content;
      if limit > 0 && |content| > limit {
        content := content[..limit] + MARKER;
      }
      files := files + [f.(content := content)];
      total := total + |content|;
      return budget > 0 && total >= budget;
    }
  }

  method BuildContextFiles(fs: FileView, candidates: seq<string>, budget: nat) returns (r: Result<seq<ContextFile>>)
    ensures match PackAll(fs, candidates, budget)
            case Ok(p) => r == Ok(p.files)
            case Err(e) => r == Err(e)
  {
    hide Load, Append, Cut;
    var acc := new Accumulator();
    var seen: set<string> := {};
    var perFileCap := FILE_CAP;
    if budget > 0 && budget < perFileCap {
      perFileCap := budget;
    }
    var i := 0;
    ghost var done: seq<string> := [];
    ghost var all := PackAll(fs, candidates, budget);
    while i < |candidates|
      invariant 0 <= i <= |candidates|
      invariant done == Dedup(candidates[..i]) && forall p :: p in seen <==> p in done
      invariant done <= Dedup(candidates)
      invariant Pack(fs, Packed(acc.files, acc.total), Dedup(candidates)[|done|..], budget) == all
      invariant fresh(acc)
    {
      var p := candidates[i];
      i := i + 1;
      assert candidates[..i][..i - 1] == candidates[..i - 1];
      DedupPrefix(candidates, i);
      if p in seen {
        continue;
      }
      seen := seen + {p};
      ghost var rest := Dedup(candidates)[|done|..];
      done := done + [p];
      assert done == Dedup(candidates[..i]);
      assert rest[0] == p && rest[1..] == Dedup(candidates)[|done|..];
      if budget > 0 && acc.total >= budget {
        break;
      }
      var loaded := Load(fs, p);
      if loaded.Err? {
        return Err(loaded.error);
      }
      var exhausted := acc.AppendWithBudget(loaded.value, budget, perFileCap);
      if exhausted {
        break;
      }
    }
    if i == |candidates| {
      assert candidates[..i] == candidates;
    }
    return Ok(acc.files);
  }

  lemma {:induction false} DedupPrefix(paths: seq<string>, i: nat)
    requires i <= |paths|
    ensures Dedup(paths[..i]) <= Dedup(paths)
    decreases |paths| - i
  {
    if i < |paths| {
      DedupPrefix(paths, i + 1);
      assert paths[..i + 1][..i] == paths[..i];
    } else {
      assert paths[..i] == paths;
    }
  }

  // ---- the laws ----

  /** The deduplication keeps exactly the paths given, each once. */
  lemma {:induction false} DedupKeepsEachOnce(paths: seq<string>)
    ensures forall p :: p in Dedup(paths) <==> p in paths
    ensures forall i, j | 0 <= i < j < |Dedup(paths)| :: Dedup(paths)[i] != Dedup(paths)[j]
  {
    if paths != [] {
      var rest, last := paths[..|paths| - 1], paths[|paths| - 1];
      DedupKeepsEachOnce(rest);
      assert paths == rest + [last];
    }
  }

  // What a path contributes is told from the view of the file system.

  /** Nothing can be had of the path: it is not there, or its outline or its content is an error. */
  predicate Fails(v: Entry) {
    v.Unavailable? || (v.Directory? && v.outline.Err?) || (v.File? && v.content.Err?)
  }

  function TextOf(v: Entry): string
    requires !Fails(v)
  {
    if v.File? then v.content.value else v.outline.value
  }

  /** A file goes by its path, a directory by its path without a slash at the end and a note. */
  predicate GoesBy(v: Entry, path: string, name: string) {
    if v.File? then name == path
    else if path != "" && path[|path| - 1] == '/' then name == path[..|path| - 1] + " (structure)"
    else name == path + " (structure)"
  }

  /** The whole text, or its first `limit` bytes and the marker. */
  predicate ShownWithin(text: string, limit: nat, shown: string) {
    if |text| <= limit then shown == text else shown == text[..limit] + "\n[truncated]"
  }

  /** The most bytes of one file that are taken when `before` bytes are: what is left of the budget, if there is one,
      and no more than 32768. */
  function LimitAfter(before: nat, budget: nat): nat
    requires budget > 0 ==> before < budget
  {
    if 0 < budget < before + 32768 then budget - before else 32768
  }

  ghost predicate FileFor(fs: FileView, path: string, before: nat, f: ContextFile, budget: nat) {
    && (budget > 0 ==> before < budget)
    && !Fails(fs(path))
    && GoesBy(fs(path), path, f.path)
    && ShownWithin(TextOf(fs(path)), LimitAfter(before, budget), f.content)
  }

  /** The files correspond one by one to the first paths. */
  ghost predicate Faithful(fs: FileView, paths: seq<string>, p: Packed, budget: nat) {
    && |p.files| <= |paths|
    && p.total == Size(p.files)
    && forall i | 0 <= i < |p.files| :: FileFor(fs, paths[i], Size(p.files[..i]), p.files[i], budget)
  }

  ghost predicate Failure(fs: FileView, path: string, error: string) {
    match fs(path)
    case Unavailable(e) => error == "read context " + path + ": " + e
    case Directory(r) => r.Err? && error == "describe context " + path + ": " + r.error
    case File(r) => r.Err? && error == "read context " + path + ": " + r.error
  }

  lemma LoadTells(fs: FileView, path: string)
    ensures match Load(fs, path)
            case Err(e) => Fails(fs(path)) && Failure(fs, path, e)
            case Ok(f) => !Fails(fs(path)) && GoesBy(fs(path), path, f.path) && f.content == TextOf(fs(path))
  {
  }

  lemma CutShows(text: string, before: nat, budget: nat)
    requires !Spent(budget, before)
    ensures ShownWithin(text, LimitAfter(before, budget), Cut(text, Room(budget, before, PerFileCap(budget))))
    ensures Cut(text, Room(budget, before, PerFileCap(budget))) != text ==> |text| > LimitAfter(before, budget)
  {
  }

  lemma {:induction false} PackKeepsFaithful(fs: FileView, paths: seq<string>, p: Packed, budget: nat)
    requires Faithful(fs, paths, p, budget)
    ensures match Pack(fs, p, paths[|p.files|..], budget)
            case Ok(q) =>
              && Faithful(fs, paths, q, budget)
              && (|q.files| == |paths| || (budget > 0 && q.total >= budget))
            case Err(e) =>
              exists i | |p.files| <= i < |paths| :: Failure(fs, paths[i], e)
    decreases |paths| - |p.files|
  {
    hide Load, Cut, ShownWithin, LimitAfter, Fails, GoesBy, Failure, Room, PerFileCap;
    var rest := paths[|p.files|..];
    if rest != [] && !Spent(budget, p.total) {
      LoadTells(fs, rest[0]);
      match Load(fs, rest[0])
      case Err(e) => assert Failure(fs, paths[|p.files|], e);
      case Ok(f) =>
        var q := Append(p, f, budget, PerFileCap(budget));
        CutShows(f.content, p.total, budget);
        assert q.files[..|p.files|] == p.files;
        forall i | 0 <= i < |q.files| ensures FileFor(fs, paths[i], Size(q.files[..i]), q.files[i], budget) {
          assert q.files[..i] == p.files[..i];
          assert i < |p.files| ==> FileFor(fs, paths[i], Size(p.files[..i]), p.files[i], budget);
        }
        assert rest[1..] == paths[|q.files|..];
        PackKeepsFaithful(fs, paths, q, budget);
    }
  }

  /** A successful packing holds, in order, a prefix of the deduplicated candidates; it stops short of them all only
      when the budget is spent.  Each entry has the name of its path and the text the file system gives for it, whole
      or cut at the limit with the marker.  A failed packing failed on a candidate, with that candidate's error. */
  lemma PackedInOrder(fs: FileView, candidates: seq<string>, budget: nat)
    ensures match PackAll(fs, candidates, budget)
            case Ok(p) =>
              && Faithful(fs, Dedup(candidates), p, budget)
              && (|p.files| == |Dedup(candidates)| || (budget > 0 && p.total >= budget))
            case Err(e) =>
              exists i | 0 <= i < |Dedup(candidates)| :: Failure(fs, Dedup(candidates)[i], e)
  {
    hide FileFor;
    assert Dedup(candidates)[0..] == Dedup(candidates);
    PackKeepsFaithful(fs, Dedup(candidates), Packed([], 0), budget);
  }

  /** Under a positive budget every proper prefix of the result is below the budget, every file is within its cap
      plus the marker, and the whole exceeds the budget by at most the marker. */
  lemma PackedWithinBudget(fs: FileView, candidates: seq<string>, budget: nat)
    requires PackAll(fs, candidates, budget).Ok?
    ensures var p := PackAll(fs, candidates, budget).value;
            && p.total == Size(p.files)
            && (forall i | 0 <= i < |p.files| :: |p.files[i].content| <= PerFileCap(budget) + |MARKER|)
            && (budget > 0 ==> forall i | 0 <= i < |p.files| :: Size(p.files[..i]) < budget)
            && (budget > 0 ==> p.total <= budget + |MARKER|)
  {
    PackedInOrder(fs, candidates, budget);
    var p := PackAll(fs, candidates, budget).value;
    var paths := Dedup(candidates);
    forall i | 0 <= i < |p.files|
      ensures |p.files[i].content| <= PerFileCap(budget) + |MARKER| && (budget > 0 ==> Size(p.files[..i]) < budget)
    {
      assert FileFor(fs, paths[i], Size(p.files[..i]), p.files[i], budget);
    }
    if p.files != [] {
      assert FileFor(fs, paths[|p.files| - 1], Size(p.files[..|p.files| - 1]), p.files[|p.files| - 1], budget);
    }
  }

  /** The file at `path` is longer than the limit that applies after `before` bytes, and the limit with the marker is
      longer than what is left of the budget. */
  predicate Overshoots(fs: FileView, path: string, before: nat, budget: nat)
    requires before < budget
  {
    var limit := LimitAfter(before, budget);
    !Fails(fs(path)) && |TextOf(fs(path))| > limit && limit + 12 > budget - before
  }

  /** The bytes the first `n` paths take, each of which takes as much as it would take alone. */
  function Taken(fs: FileView, paths: seq<string>, n: nat, budget: nat): nat
    requires n <= |paths|
  {
    if n == 0 then 0
    else
      var v, cap := fs(paths[n - 1]), LimitAfter(0, budget);
      Taken(fs, paths, n - 1, budget) + if Fails(v) then 0 else if |TextOf(v)| <= cap then |TextOf(v)| else cap + 12
  }

  /** The path is looked at: what comes before it leaves some of the budget, if there is one. */
  predicate LookedAt(fs: FileView, paths: seq<string>, n: nat, budget: nat) {
    n < |paths| && (budget > 0 ==> Taken(fs, paths, n, budget) < budget)
  }

  lemma {:induction false} TakenGrows(fs: FileView, paths: seq<string>, m: nat, n: nat, budget: nat)
    requires m <= n <= |paths|
    ensures Taken(fs, paths, m, budget) <= Taken(fs, paths, n, budget)
  {
    if m < n {
      TakenGrows(fs, paths, m, n - 1, budget);
    }
  }

  /** One more file, taken from a path that can be had: as long as told, and past the budget when it overshoots. */
  lemma TakenOne(fs: FileView, paths: seq<string>, n: nat, f: ContextFile, p: Packed, budget: nat)
    requires n < |paths| && !Fails(fs(paths[n])) && f.content == TextOf(fs(paths[n]))
    requires p.total == Taken(fs, paths, n, budget) && (budget > 0 ==> p.total < budget)
    ensures var q := Append(p, f, budget, PerFileCap(budget));
            && (budget == 0 || q.total < budget || Taken(fs, paths, n + 1, budget) < budget ==>
                  q.total == Taken(fs, paths, n + 1, budget))
            && (budget > 0 ==> (q.total > budget <==> Overshoots(fs, paths[n], p.total, budget)))
  {
  }

  /** Packing on from `p`, which holds the first paths: exactly, or with the budget spent. */
  lemma {:induction false} PackByInput(fs: FileView, paths: seq<string>, p: Packed, n: nat, budget: nat)
    requires n <= |paths|
    requires p.total == Taken(fs, paths, n, budget)
             || (0 < budget <= p.total && budget <= Taken(fs, paths, n, budget))
    ensures var r := Pack(fs, p, paths[n..], budget);
            && (r.Err? <==> exists m: nat | n <= m && LookedAt(fs, paths, m, budget) :: Fails(fs(paths[m])))
            && (r.Ok? && budget > 0 ==>
                  (r.value.total > budget <==>
                   p.total > budget || exists m: nat | n <= m && LookedAt(fs, paths, m, budget) ::
                     Overshoots(fs, paths[m], Taken(fs, paths, m, budget), budget)))
    decreases |paths| - n
  {
    hide Load, Append, Overshoots, Taken, Fails;
    if 0 < budget <= p.total {
      forall m: nat | n <= m < |paths| ensures !LookedAt(fs, paths, m, budget) {
        TakenGrows(fs, paths, n, m, budget);
      }
    } else if n < |paths| {
      assert LookedAt(fs, paths, n, budget);
      LoadTells(fs, paths[n]);
      if Load(fs, paths[n]).Ok? {
        var f := Load(fs, paths[n]).value;
        var q := Append(p, f, budget, PerFileCap(budget));
        assert paths[n..][1..] == paths[n + 1..];
        TakenOne(fs, paths, n, f, p, budget);
        PackByInput(fs, paths, q, n + 1, budget);
      }
    }
  }

  /** Told from the file system and the candidates alone: packing fails exactly when some path that is looked at cannot
      be had.  When it succeeds under a positive budget, it exceeds the documented cap on the total exactly when some
      path looked at holds more than the limit that applies to it, and that limit with the marker is more than what is
      left of the budget. */
  lemma OverBudgetIff(fs: FileView, candidates: seq<string>, budget: nat)
    ensures var r, paths := PackAll(fs, candidates, budget), Dedup(candidates);
            && (r.Err? <==> exists n: nat | LookedAt(fs, paths, n, budget) :: Fails(fs(paths[n])))
            && (r.Ok? && budget > 0 ==>
                  (r.value.total > budget <==>
                   exists n: nat | LookedAt(fs, paths, n, budget) ::
                     Overshoots(fs, paths[n], Taken(fs, paths, n, budget), budget)))
  {
    hide Pack, Overshoots, Fails;
    PackByInput(fs, Dedup(candidates), Packed([], 0), 0, budget);
    assert Dedup(candidates)[0..] == Dedup(candidates);
  }

  /** One file longer than a small budget already exceeds it by the whole marker. */
  lemma ExcessIsReached(fs: FileView, path: string, text: string, budget: nat)
    requires 0 < budget <= 32768 && fs(path) == File(Ok(text)) && |text| > budget
    ensures PackAll(fs, [path], budget)
         == Ok(Packed([ContextFile(path, text[..budget] + "\n[truncated]")], budget + 12))
  {
    assert Dedup([path]) == [path] by {
      assert [path][..0] == [];
    }
    var p := Packed([ContextFile(path, text[..budget] + MARKER)], budget + 12);
    assert Append(Packed([], 0), ContextFile(path, text), budget, PerFileCap(budget)) == p;
    assert Pack(fs, p, [path][1..], budget) == Ok(p);
  }
}
