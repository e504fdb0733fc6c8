/** Patch backups: every real apply first stores its patch and appends an entry to a stack with parent links. */
module PatchBackups {
  import opened Outcomes
  import opened Text

  datatype PatchEntry = PatchEntry(id: string, parentId: string, fileName: string, createdAt: nat)

  /** The stored stack: no file, a stack, or a file that cannot be read or parsed. */
  datatype StackFile = Absent | Stored(entries: seq<PatchEntry>) | Unreadable(error: string)

  /** The git binary on a working tree: applying a patch and applying it in reverse, each of which may fail. */
  datatype Git<!T> = Git(apply: (T, string) -> Option<T>, reverse: (T, string) -> Option<T>)

  /** What goes wrong while a backup is made: nothing; the directory; the patch file, which is then missing or holds
      something else; the stack file, which then holds anything. */
  datatype Fault =
    | NoFault
    | MkdirFails
    | PatchWriteFails(left: Option<string>)
    | SaveFails(stored: StackFile)

  /** The tool's cached stack, the backup directory and the working tree. */
  datatype State<T> = State(stack: Option<seq<PatchEntry>>, files: map<string, string>, stackFile: StackFile, tree: T)

  /** One real apply: the patch, the clock when its id is made and when the entry is stamped, and the fault. */
  datatype Op = Op(patch: string, now: nat, stamp: nat, fault: Fault)

  function IdAt(now: nat): string {
    "backup-" + Decimal(now)
  }

  function FileOf(id: string): string {
    id + ".patch"
  }

  // ---- the operations on values ----

  /** The stack as the tool would see it, loading it if it is not cached. */
  function Load<T>(s: State<T>): Result<seq<PatchEntry>> {
    if s.stack.Some? then Ok(s.stack.value)
    else match s.stackFile
      case Absent => Ok([])
      case Stored(entries) => Ok(entries)
      case Unreadable(e) => Err(e)
  }

  function Parent(entries: seq<PatchEntry>): string {
    if entries == [] then "" else entries[|entries| - 1].id
  }

  function CreateBackup<T>(s: State<T>, op: Op): (State<T>, Option<string>) {
    if op.fault.MkdirFails? then (s, Some("mkdir"))
    else match Load(s)
      case Err(e) => (s, Some(e))
      case Ok(entries) =>
        var s1 := s.(stack := Some(entries));
        var id := IdAt(op.now);
        match op.fault
        case PatchWriteFails(None) => (s1.(files := s.files - {FileOf(id)}), Some("write"))
        case PatchWriteFails(Some(left)) => (s1.(files := s.files[FileOf(id) := left]), Some("write"))
        case _ =>
          var entries' := entries + [PatchEntry(id, Parent(entries), FileOf(id), op.stamp)];
          var s2 := s1.(stack := Some(entries'), files := s.files[FileOf(id) := op.patch]);
          match op.fault
          case SaveFails(left) => (s2.(stackFile := left), Some("save"))
          case _ => (s2.(stackFile := Stored(entries')), None)
  }

  /** A real apply: the backup first, then git. */
  function Apply<T>(g: Git<T>, s: State<T>, op: Op): (State<T>, bool) {
    var (s1, error) := CreateBackup(s, op);
    if error.Some? then (s1, false)
    else match g.apply(s1.tree, op.patch)
      case None => (s1, false)
      case Some(t) => (s1.(tree := t), true)
  }

  /** The file name looked up for a backup id or file name, the latest entry's for the empty name. */
  function Lookup(entries: seq<PatchEntry>, name: string): Option<string> {
    if entries == [] then None
    else if name == "" then Some(entries[|entries| - 1].fileName)
    else if entries[0].id == name || entries[0].fileName == name then Some(entries[0].fileName)
    else Lookup(entries[1..], name)
  }

  function ReadBackup<T>(s: State<T>, name: string): (State<T>, Result<string>) {
    match Load(s)
    case Err(e) => (s, Err(e))
    case Ok(entries) =>
      var s1 := s.(stack := Some(entries));
      match Lookup(entries, name)
      case None => (s1, Err("backup not found"))
      case Some(file) => if file in s.files then (s1, Ok(s.files[file])) else (s1, Err("backup cannot be read"))
  }

  function Restore<T>(g: Git<T>, s: State<T>, name: string): (State<T>, bool) {
    var (s1, text) := ReadBackup(s, name);
    if text.Err? then (s1, false)
    else match g.reverse(s1.tree, text.value)
      case None => (s1, false)
      case Some(t) => (s1.(tree := t), true)
  }

  // ---- the program ----

  /** The backup directory and the working tree. */
  class Repository<T> {
    var files: map<string, string>
    var stackFile: StackFile
    var tree: T

    constructor (files: map<string, string>, stackFile: StackFile, tree: T)
      ensures this.files == files && this.stackFile == stackFile && this.tree == tree
    {
      this.files, this.stackFile, this.tree := files, stackFile, tree;
    }
  }

  class GitTool<T> {
    const allowExec: bool
    const dryRunOnly: bool
    const git: Git<T>
    const repo: Repository<T>
    var stack: Option<seq<PatchEntry>>

    constructor (allowExec: bool, dryRunOnly: bool, git: Git<T>, repo: Repository<T>)
      ensures this.allowExec == allowExec && this.dryRunOnly == dryRunOnly && this.git == git && this.repo == repo
      ensures stack == None
    {
      this.allowExec, this.dryRunOnly, this.git, this.repo := allowExec, dryRunOnly, git, repo;
      stack := None;
    }

    function View(): State<T>
      reads this, repo
    {
      State(stack, repo.files, repo.stackFile, repo.tree)
    }

    method LoadOrInitStack() returns (r: Result<seq<PatchEntry>>)
      modifies this
      ensures r == Load(old(View()))
      ensures View() == if r.Ok? then old(View()).(stack := Some(r.value)) else old(View())
    {
      if stack.Some? {
        return Ok(stack.value);
      }
      match repo.stackFile {
        case Unreadable(e) => return Err(e);
        case Absent => stack := Some([]);
        case Stored(entries) => stack := Some(entries);
      }
      return Ok(stack.value);
    }

    method MakeBackup(op: Op) returns (error: Option<string>)
      modifies this, repo
      ensures (View(), error) == CreateBackup(old(View()), op)
    {
      if op.fault.MkdirFails? {
        return Some("mkdir");
      }
      var loaded := LoadOrInitStack();
      if loaded.Err? {
        return Some(loaded.error);
      }
      var entries := loaded.value;
      var parent := "";
      if |entries| > 0 {
        parent := entries[|entries| - 1].id;
      }
      var id := IdAt(op.now);
      var fileName := FileOf(id);
      if op.fault.PatchWriteFails? {
        repo.files := match op.fault.left
                      case None => repo.files - {fileName}
                      case Some(left) => repo.files[fileName := left];
        return Some("write");
      }
      repo.files := repo.files[fileName := op.patch];
      stack := Some(entries + [PatchEntry(id, parent, fileName, op.stamp)]);
      if op.fault.SaveFails? {
        repo.stackFile := op.fault.stored;
        return Some("save");
      }
      repo.stackFile := Stored(stack.value);
      return None;
    }

    /** Applies a patch, or with `dryRun` only asks git whether it would apply. */
    method ApplyPatch(op: Op, dryRun: bool) returns (ok: bool)
      modifies this, repo
      ensures !allowExec || (dryRunOnly && !dryRun) ==> !ok && View() == old(View())
      ensures allowExec && dryRun ==> ok == git.apply(repo.tree, op.patch).Some? && View() == old(View())
      ensures allowExec && !dryRunOnly && !dryRun ==> (View(), ok) == Apply(git, old(View()), op)
    {
      if !allowExec || (dryRunOnly && !dryRun) {
        return false;
      }
      if !dryRun {
        var error := MakeBackup(op);
        if error.Some? {
          return false;
        }
      }
      var applied := git.apply(repo.tree, op.patch);
      if applied.Some? && !dryRun {
        repo.tree := applied.value;
      }
      return applied.Some?;
    }

    method FindBackup(name: string) returns (r: Result<string>)
      modifies this
      ensures (View(), r) == ReadBackup(old(View()), name)
    {
      var loaded := LoadOrInitStack();
      if loaded.Err? {
        return Err(loaded.error);
      }
      var entries := loaded.value;
      var target := None;
      if name != "" {
        var i := 0;
        while i < |entries|
          invariant 0 <= i <= |entries|
          invariant target == None && Lookup(entries, name) == Lookup(entries[i..], name)
        {
          if entries[i].id == name || entries[i].fileName == name {
            target := Some(entries[i].fileName);
            break;
          }
          assert entries[i..][1..] == entries[i + 1..];
          i := i + 1;
        }
      } else if |entries| > 0 {
        target := Some(entries[|entries| - 1].fileName);
      }
      if target.None? {
        return Err("backup not found");
      }
      if target.value !in repo.files {
        return Err("backup cannot be read");
      }
      return Ok(repo.files[target.value]);
    }

    method RestoreBackup(name: string) returns (ok: bool)
      modifies this, repo
      ensures !allowExec || dryRunOnly ==> !ok && View() == old(View())
      ensures allowExec && !dryRunOnly ==> (View(), ok) == Restore(git, old(View()), name)
    {
      if !allowExec || dryRunOnly {
        return false;
      }
      var text := FindBackup(name);
      if text.Err? {
        return false;
      }
      var reversed := git.reverse(repo.tree, text.value);
      if reversed.Some? {
        repo.tree := reversed.value;
      }
      return reversed.Some?;
    }
  }

  // ---- ids and file names ----

  lemma IdsApart(m: nat, n: nat)
    ensures IdAt(m) == IdAt(n) ==> m == n
    ensures FileOf(IdAt(m)) == FileOf(IdAt(n)) ==> m == n
    ensures IdAt(m) != FileOf(IdAt(n)) && IdAt(m) != "" && FileOf(IdAt(m)) != ""
  {
    var a, b := IdAt(m), IdAt(n);
    assert a[7..] == Decimal(m) && b[7..] == Decimal(n);
    if a == b {
      DecimalInjective(m, n);
    }
    if FileOf(a) == FileOf(b) {
      assert FileOf(a)[..|FileOf(a)| - 6] == a && FileOf(b)[..|FileOf(b)| - 6] == b;
      DecimalInjective(m, n);
    }
    assert a[|a| - 1] == Decimal(m)[|Decimal(m)| - 1] && Decimal(m)[|Decimal(m)| - 1] in Decimal(m);
    assert FileOf(b)[|FileOf(b)| - 1] == 'h';
  }

  // ---- what every apply keeps ----

  /** One recorded backup: the clock its id was made from, and the patch text. */
  datatype Record = Record(now: nat, patch: string)

  ghost predicate LinkedAt(entries: seq<PatchEntry>, records: seq<Record>, i: nat)
    requires i < |entries| == |records|
  {
    && entries[i].id == IdAt(records[i].now)
    && entries[i].fileName == FileOf(entries[i].id)
    && entries[i].parentId == Parent(entries[..i])
  }

  /** The stack is a linear chain of the records in order: each entry's parent is the entry before it. */
  ghost predicate Linked(entries: seq<PatchEntry>, records: seq<Record>) {
    |entries| == |records| && forall i | 0 <= i < |entries| :: LinkedAt(entries, records, i)
  }

  /** The backup file of each entry holds the patch of its record. */
  ghost predicate Backed(entries: seq<PatchEntry>, files: map<string, string>, records: seq<Record>) {
    && |entries| == |records|
    && forall i | 0 <= i < |entries| :: entries[i].fileName in files && files[entries[i].fileName] == records[i].patch
  }

  ghost predicate Chain(entries: seq<PatchEntry>, files: map<string, string>, records: seq<Record>) {
    Linked(entries, records) && Backed(entries, files, records)
  }

  /** Clocks strictly increase along the records and lie below `limit`. */
  predicate Increasing(records: seq<Record>, limit: nat) {
    && (forall i, j | 0 <= i < j < |records| :: records[i].now < records[j].now)
    && (forall i | 0 <= i < |records| :: records[i].now < limit)
  }

  ghost predicate Intact<T>(s: State<T>, records: seq<Record>, limit: nat) {
    && Increasing(records, limit)
    && Load(s).Ok? && Chain(Load(s).value, s.files, records)
  }

  /** An apply is recorded unless its backup failed before the entry was pushed; a failing save, or git refusing the
      patch, comes too late. */
  predicate Recorded(op: Op) {
    op.fault.NoFault? || op.fault.SaveFails?
  }

  function RecordsOf(ops: seq<Op>): seq<Record> {
    if ops == [] then []
    else
      var op := ops[|ops| - 1];
      RecordsOf(ops[..|ops| - 1]) + if Recorded(op) then [Record(op.now, op.patch)] else []
  }

  function ApplyAll<T>(g: Git<T>, s: State<T>, ops: seq<Op>): State<T> {
    if ops == [] then s else Apply(g, ApplyAll(g, s, ops[..|ops| - 1]), ops[|ops| - 1]).0
  }

  /** The clock strictly increases over the operations, from `limit` on. */
  predicate ClockRuns(ops: seq<Op>, limit: nat) {
    && (forall i | 0 <= i < |ops| :: limit <= ops[i].now)
    && (forall i, j | 0 <= i < j < |ops| :: ops[i].now < ops[j].now)
  }

  lemma NamesInChain(entries: seq<PatchEntry>, records: seq<Record>)
    requires Linked(entries, records)
    ensures forall i | 0 <= i < |entries| ::
              entries[i].id == IdAt(records[i].now) && entries[i].fileName == FileOf(IdAt(records[i].now))
  {
    forall i | 0 <= i < |entries|
      ensures entries[i].id == IdAt(records[i].now) && entries[i].fileName == FileOf(IdAt(records[i].now))
    {
      assert LinkedAt(entries, records, i);
    }
  }

  lemma LinkedGrows(entries: seq<PatchEntry>, records: seq<Record>, r: Record, e: PatchEntry)
    requires Linked(entries, records)
    requires e.id == IdAt(r.now) && e.fileName == FileOf(e.id) && e.parentId == Parent(entries)
    ensures Linked(entries + [e], records + [r])
  {
    var all := entries + [e];
    forall i | 0 <= i < |all| ensures LinkedAt(all, records + [r], i) {
      assert all[..i] == entries[..i];
      if i < |entries| {
        assert LinkedAt(entries, records, i);
      } else {
        assert entries[..i] == entries;
      }
    }
  }

  /** A file under a name no entry has does not disturb the entries' files. */
  lemma BackedElsewhere(entries: seq<PatchEntry>, files: map<string, string>, records: seq<Record>, file: string,
                        text: string)
    requires Backed(entries, files, records) && forall i | 0 <= i < |entries| :: entries[i].fileName != file
    ensures Backed(entries, files[file := text], records) && Backed(entries, files - {file}, records)
  {
  }

  lemma BackedGrows(entries: seq<PatchEntry>, files: map<string, string>, records: seq<Record>, e: PatchEntry,
                    r: Record)
    requires Backed(entries, files, records) && e.fileName in files && files[e.fileName] == r.patch
    ensures Backed(entries + [e], files, records + [r])
  {
  }

  lemma FileIsNew(entries: seq<PatchEntry>, records: seq<Record>, limit: nat, now: nat)
    requires Linked(entries, records) && Increasing(records, limit) && limit <= now
    ensures forall i | 0 <= i < |entries| :: entries[i].fileName != FileOf(IdAt(now))
    ensures forall patch :: Increasing(records + [Record(now, patch)], now + 1)
  {
    NamesInChain(entries, records);
    forall i | 0 <= i < |entries| ensures entries[i].fileName != FileOf(IdAt(now)) {
      IdsApart(records[i].now, now);
    }
  }

  /** Whatever happens to the new file, the chain stays; with an entry pushed for it the chain is one longer. */
  lemma ChainGrows(entries: seq<PatchEntry>, files: map<string, string>, records: seq<Record>, limit: nat, r: Record,
                   stamp: nat, text: string)
    requires Chain(entries, files, records) && Increasing(records, limit) && limit <= r.now
    ensures var file := FileOf(IdAt(r.now));
            && Chain(entries, files[file := text], records)
            && Chain(entries, files - {file}, records)
            && Chain(entries + [PatchEntry(IdAt(r.now), Parent(entries), file, stamp)], files[file := r.patch],
                     records + [r])
            && Increasing(records + [r], r.now + 1)
  {
    var file := FileOf(IdAt(r.now));
    FileIsNew(entries, records, limit, r.now);
    LinkedGrows(entries, records, r, PatchEntry(IdAt(r.now), Parent(entries), file, stamp));
    BackedElsewhere(entries, files, records, file, text);
    BackedElsewhere(entries, files, records, file, r.patch);
    BackedGrows(entries, files[file := r.patch], records, PatchEntry(IdAt(r.now), Parent(entries), file, stamp), r);
    assert Increasing(records + [Record(r.now, r.patch)], r.now + 1);
    hide Linked, Backed, Increasing, IdAt, FileOf, Parent;
  }

  lemma ApplyKeepsIntact<T>(g: Git<T>, s: State<T>, op: Op, records: seq<Record>, limit: nat)
    requires Intact(s, records, limit) && limit <= op.now
    ensures Intact(Apply(g, s, op).0, if Recorded(op) then records + [Record(op.now, op.patch)] else records,
                   op.now + 1)
    ensures Recorded(op) ==> Apply(g, s, op).0.stack.Some?
  {
    var entries := Load(s).value;
    var text := match op.fault case PatchWriteFails(Some(left)) => left case _ => op.patch;
    ChainGrows(entries, s.files, records, limit, Record(op.now, op.patch), op.stamp, text);
    assert Increasing(records, op.now + 1);
    hide Chain, Increasing, IdAt, FileOf, Parent;
  }

  /** After any sequence of real applies, failed writes, failed saves and refused patches included, the stack is a
      linear parent chain of the recorded applies in order, each with its own patch text. */
  lemma {:induction false} AppliesKeepChain<T>(g: Git<T>, s: State<T>, ops: seq<Op>, records: seq<Record>, limit: nat)
    requires Intact(s, records, limit) && ClockRuns(ops, limit)
    ensures Intact(ApplyAll(g, s, ops), records + RecordsOf(ops), if ops == [] then limit else ops[|ops| - 1].now + 1)
  {
    hide Intact, Apply;
    if ops == [] {
      assert records + [] == records;
    } else {
      var rest, op := ops[..|ops| - 1], ops[|ops| - 1];
      AppliesKeepChain(g, s, rest, records, limit);
      var clock := if rest == [] then limit else rest[|rest| - 1].now + 1;
      assert clock <= op.now;
      ApplyKeepsIntact(g, ApplyAll(g, s, rest), op, records + RecordsOf(rest), clock);
      assert records + RecordsOf(ops) ==
        if Recorded(op) then records + RecordsOf(rest) + [Record(op.now, op.patch)] else records + RecordsOf(rest);
    }
  }

  // ---- lookup ----

  lemma {:induction false} LookupFinds(entries: seq<PatchEntry>, name: string, i: nat)
    requires i < |entries| && name != ""
    requires entries[i].id == name || entries[i].fileName == name
    requires forall j | 0 <= j < i :: entries[j].id != name && entries[j].fileName != name
    ensures Lookup(entries, name) == Some(entries[i].fileName)
  {
    if i > 0 {
      LookupFinds(entries[1..], name, i - 1);
    }
  }

  /** With a strictly increasing clock every recorded backup is found by its id and by its file name, with exactly
      its own patch text, and the empty name finds the latest. */
  lemma LookupIsExact<T>(s: State<T>, records: seq<Record>, limit: nat, i: nat)
    requires Intact(s, records, limit) && i < |records|
    ensures ReadBackup(s, IdAt(records[i].now)).1 == Ok(records[i].patch)
    ensures ReadBackup(s, FileOf(IdAt(records[i].now))).1 == Ok(records[i].patch)
    ensures ReadBackup(s, "").1 == Ok(records[|records| - 1].patch)
  {
    var entries := Load(s).value;
    var id := IdAt(records[i].now);
    NamesInChain(entries, records);
    forall j | 0 <= j < i
      ensures entries[j].id != id && entries[j].fileName != id
      ensures entries[j].id != FileOf(id) && entries[j].fileName != FileOf(id)
    {
      IdsApart(records[j].now, records[i].now);
      IdsApart(records[i].now, records[j].now);
    }
    IdsApart(records[i].now, records[i].now);
    LookupFinds(entries, id, i);
    LookupFinds(entries, FileOf(id), i);
  }

  /** A tool that starts afresh sees the stack, and reads the backups, of the tool whose last apply was saved. */
  lemma SavedStackReloads<T>(g: Git<T>, s: State<T>, op: Op)
    requires op.fault.NoFault? && Load(s).Ok?
    ensures var s' := Apply(g, s, op).0;
            && Load(s'.(stack := None)) == Load(s')
            && forall name :: ReadBackup(s'.(stack := None), name).1 == ReadBackup(s', name).1
  {
  }

  // ---- undoing ----

  /** Reverse apply undoes apply. */
  ghost predicate Inverts<T(!new)>(g: Git<T>) {
    forall t, p :: match g.apply(t, p) case Some(t') => g.reverse(t', p) == Some(t) case None => true
  }

  /** Every apply of the sequence succeeds. */
  ghost predicate AllApply<T>(g: Git<T>, s: State<T>, ops: seq<Op>) {
    forall i | 0 <= i < |ops| :: Apply(g, ApplyAll(g, s, ops[..i]), ops[i]).1
  }

  /** Restores backups by id, in the order given. */
  function RestoreAll<T>(g: Git<T>, s: State<T>, nows: seq<nat>): State<T>
    decreases |nows|
  {
    if nows == [] then s else RestoreAll(g, Restore(g, s, IdAt(nows[0])).0, nows[1..])
  }

  /** The clocks of the operations, last first. */
  function Backwards(ops: seq<Op>): seq<nat> {
    if ops == [] then [] else [ops[|ops| - 1].now] + Backwards(ops[..|ops| - 1])
  }

  lemma RestoreKeepsStack<T>(g: Git<T>, s: State<T>, name: string, records: seq<Record>, limit: nat)
    requires Intact(s, records, limit)
    ensures var s' := Restore(g, s, name).0;
            Intact(s', records, limit) && Load(s') == Load(s) && s'.files == s.files && s'.stackFile == s.stackFile
  {
  }

  /** Undoing one successful apply whose record the stack still has. */
  lemma UndoOne<T(!new)>(g: Git<T>, before: State<T>, op: Op, now: State<T>, records: seq<Record>, limit: nat)
    requires Inverts(g) && Apply(g, before, op).1
    requires Intact(now, records, limit) && Record(op.now, op.patch) in records
    requires now.tree == Apply(g, before, op).0.tree
    ensures Restore(g, now, IdAt(op.now)).0.tree == before.tree
  {
    var i: nat :| i < |records| && records[i] == Record(op.now, op.patch);
    LookupIsExact(now, records, limit, i);
    assert g.apply(before.tree, op.patch) == Some(now.tree);
    hide Intact, IdAt;
  }

  lemma AllApplyPrefix<T>(g: Git<T>, s: State<T>, ops: seq<Op>)
    requires AllApply(g, s, ops) && ops != []
    ensures AllApply(g, s, ops[..|ops| - 1])
    ensures Apply(g, ApplyAll(g, s, ops[..|ops| - 1]), ops[|ops| - 1]).1
  {
    hide Apply;
    var rest := ops[..|ops| - 1];
    forall i | 0 <= i < |rest| ensures Apply(g, ApplyAll(g, s, rest[..i]), rest[i]).1 {
      assert rest[..i] == ops[..i];
      assert Apply(g, ApplyAll(g, s, ops[..i]), ops[i]).1;
    }
    assert Apply(g, ApplyAll(g, s, ops[..|ops| - 1]), ops[|ops| - 1]).1;
  }

  lemma {:induction false} UndoFrom<T(!new)>(g: Git<T>, s: State<T>, ops: seq<Op>, now: State<T>,
                                             records: seq<Record>, limit: nat)
    requires Inverts(g) && AllApply(g, s, ops)
    requires Intact(now, records, limit)
    requires forall i | 0 <= i < |ops| :: Record(ops[i].now, ops[i].patch) in records
    requires now.tree == ApplyAll(g, s, ops).tree
    ensures RestoreAll(g, now, Backwards(ops)).tree == s.tree
  {
    hide Apply, Restore, Intact, AllApply, Inverts;
    if ops != [] {
      var rest, op := ops[..|ops| - 1], ops[|ops| - 1];
      AllApplyPrefix(g, s, ops);
      UndoOne(g, ApplyAll(g, s, rest), op, now, records, limit);
      RestoreKeepsStack(g, now, IdAt(op.now), records, limit);
      UndoFrom(g, s, rest, Restore(g, now, IdAt(op.now)).0, records, limit);
    }
  }

  lemma {:induction false} RecordsOfMembers(ops: seq<Op>, i: nat)
    requires i < |ops| && Recorded(ops[i])
    ensures Record(ops[i].now, ops[i].patch) in RecordsOf(ops)
  {
    if i < |ops| - 1 {
      RecordsOfMembers(ops[..|ops| - 1], i);
    }
  }

  lemma SucceededIsRecorded<T>(g: Git<T>, s: State<T>, op: Op)
    ensures Apply(g, s, op).1 ==> op.fault.NoFault?
  {
  }

  /** If every apply succeeded and reverse apply undoes apply, restoring the backups by id, last first, brings the
      working tree back to its start. */
  lemma RestoringAllUndoesAll<T(!new)>(g: Git<T>, s: State<T>, ops: seq<Op>, records: seq<Record>, limit: nat)
    requires Inverts(g) && Intact(s, records, limit) && ClockRuns(ops, limit) && AllApply(g, s, ops)
    ensures RestoreAll(g, ApplyAll(g, s, ops), Backwards(ops)).tree == s.tree
  {
    AppliesKeepChain(g, s, ops, records, limit);
    forall i | 0 <= i < |ops| ensures Record(ops[i].now, ops[i].patch) in records + RecordsOf(ops) {
      SucceededIsRecorded(g, ApplyAll(g, s, ops[..i]), ops[i]);
      RecordsOfMembers(ops, i);
    }
    UndoFrom(g, s, ops, ApplyAll(g, s, ops), records + RecordsOf(ops),
             if ops == [] then limit else ops[|ops| - 1].now + 1);
  }

  /** Restores the latest backup `n` times. */
  function RestoreLatest<T>(g: Git<T>, s: State<T>, n: nat): State<T> {
    if n == 0 then s else Restore(g, RestoreLatest(g, s, n - 1), "").0
  }

  /** Restoring never pops: however often the latest backup is restored, the next restore takes the same patch again,
      and the stack is as it was. */
  lemma {:induction false} LatestStaysLatest<T>(g: Git<T>, s: State<T>, records: seq<Record>, limit: nat, n: nat)
    requires Intact(s, records, limit) && records != []
    ensures var s' := RestoreLatest(g, s, n);
            && Intact(s', records, limit)
            && Load(s') == Load(s)
            && ReadBackup(s', "").1 == Ok(records[|records| - 1].patch)
  {
    if n > 0 {
      LatestStaysLatest(g, s, records, limit, n - 1);
      RestoreKeepsStack(g, RestoreLatest(g, s, n - 1), "", records, limit);
    }
    LookupIsExact(RestoreLatest(g, s, n), records, limit, 0);
  }

  /** A patch that git refuses, or whose stack is not saved, leaves the tree alone but becomes the latest backup. */
  lemma FailedApplyIsLatest<T>(g: Git<T>, s: State<T>, op: Op, records: seq<Record>, limit: nat)
    requires Intact(s, records, limit) && limit <= op.now
    requires op.fault.SaveFails? || (op.fault.NoFault? && g.apply(s.tree, op.patch) == None)
    ensures var (s', ok) := Apply(g, s, op);
            !ok && s'.tree == s.tree && ReadBackup(s', "").1 == Ok(op.patch)
  {
    ApplyKeepsIntact(g, s, op, records, limit);
    var records' := records + [Record(op.now, op.patch)];
    LookupIsExact(Apply(g, s, op).0, records', op.now + 1, |records|);
  }

  /** Two recorded applies on the same clock reading share id and file: the first one's lookup gives its own text
      exactly when the two patches are the same. */
  lemma SameClockOverwritesIff<T>(g: Git<T>, s: State<T>, first: Op, second: Op, records: seq<Record>, limit: nat)
    requires Intact(s, records, limit) && limit <= first.now == second.now
    requires Recorded(first) && Recorded(second)
    ensures var s' := Apply(g, Apply(g, s, first).0, second).0;
            ReadBackup(s', IdAt(first.now)).1 == Ok(first.patch) <==> first.patch == second.patch
  {
    var entries := Load(s).value;
    NamesInChain(entries, records);
    var s1 := Apply(g, s, first).0;
    var s2 := Apply(g, s1, second).0;
    var id := IdAt(first.now);
    var all := s2.stack.value;
    assert all[..|entries|] == entries && all[|entries|].id == id && all[|entries|].fileName == FileOf(id);
    forall j | 0 <= j < |entries| ensures all[j].id != id && all[j].fileName != id {
      assert all[j] == entries[j];
      IdsApart(records[j].now, first.now);
      IdsApart(first.now, records[j].now);
    }
    IdsApart(first.now, first.now);
    LookupFinds(all, id, |entries|);
    assert s2.files[FileOf(id)] == second.patch;
  }
}
