/** The check of a tool call's arguments in front of its execution, and what a call that passes it executes. */
module ToolGate {
  import opened Outcomes
  import PathGuard

  /** A decoded JSON value; integers that are not decoded from JSON may be there too. */
  datatype Arg =
    | Str(text: string)
    | Bool(value: bool)
    | List(items: seq<Arg>)
    | Float(amount: real)
    | Int(count: int)
    | Other

  type Args = map<string, Arg>

  datatype Field = Field(name: string, kind: string, required: bool, choices: seq<string>)

  datatype Schema = Schema(name: string, fields: seq<Field>)

  datatype GitSettings = GitSettings(allowExec: bool, dryRunOnly: bool)

  /** The configured tools: `terminal` is the terminal's permission to execute. */
  datatype Tools = Tools(allowWrite: bool, terminal: Option<bool>, git: Option<GitSettings>, semantic: bool)

  datatype Complaint =
    | Missing(field: string)
    | WrongType(field: string)
    | NotAChoice(field: string)
    | Disabled
    | UnknownTool

  function Required(name: string, kind: string): Field { Field(name, kind, true, []) }

  function Optional(name: string, kind: string): Field { Field(name, kind, false, []) }

  /** There is none for `fs.search` and `git.status`. */
  function SchemaOf(t: Tools, name: string): Option<Schema> {
    match name
    case "fs.read_file" => Some(Schema(name, [Required("path", "string")]))
    case "fs.write_file" =>
      Some(Schema(name, [Required("path", "string"), Required("content", "string"), Optional("overwrite", "boolean")]))
    case "terminal.exec" => Some(Schema(name, [Required("command", "string"), Optional("args", "array")]))
    case "git.apply_patch" => Some(Schema(name, [Required("patch", "string"), Optional("dry_run", "boolean")]))
    case "git.restore_backup" => Some(Schema(name, [Optional("name", "string")]))
    case "git.list_backups" => Some(Schema(name, []))
    case "git.preview_backup" => Some(Schema(name, [Optional("name", "string")]))
    case "semantic.search" =>
      if t.semantic then Some(Schema(name, [Required("query", "string"), Optional("limit", "integer")])) else None
    case _ => None
  }

  predicate HasKind(v: Arg, kind: string) {
    match kind
    case "string" => v.Str?
    case "boolean" => v.Bool?
    case "array" => v.List?
    case "integer" => v.Float? || v.Int?
    case _ => true
  }

  /** A field's value is there if it has to be, has the right type, and is one of the choices if there are any. */
  predicate FieldFits(f: Field, args: Args) {
    if f.name !in args then !f.required
    else
      var v := args[f.name];
      HasKind(v, f.kind) && (f.choices != [] ==> (if v.Str? then v.text else "") in f.choices)
  }

  predicate Concerns(c: Complaint, f: Field) {
    (c.Missing? || c.WrongType? || c.NotAChoice?) && c.field == f.name
  }

  ghost predicate FirstMisfit(s: Schema, args: Args, i: nat) {
    && i < |s.fields| && !FieldFits(s.fields[i], args)
    && forall j | 0 <= j < i :: FieldFits(s.fields[j], args)
  }

  /** Complains about the first field that does not fit, if there is one. */
  method ValidateAgainstSchema(s: Schema, args: Args) returns (r: Option<Complaint>)
    ensures r.None? <==> forall f | f in s.fields :: FieldFits(f, args)
    ensures r.Some? ==> exists i: nat | FirstMisfit(s, args, i) :: Concerns(r.value, s.fields[i])
  {
    for i := 0 to |s.fields|
      invariant forall j | 0 <= j < i :: FieldFits(s.fields[j], args)
    {
      var f := s.fields[i];
      assert !FieldFits(f, args) ==> FirstMisfit(s, args, i);
      if f.required && f.name !in args {
        return Some(Missing(f.name));
      }
      if f.name in args {
        var v := args[f.name];
        if !HasKind(v, f.kind) {
          return Some(WrongType(f.name));
        }
        if |f.choices| > 0 {
          var text := if v.Str? then v.text else "";
          var valid := false;
          for k := 0 to |f.choices|
            invariant valid <==> text in f.choices[..k]
          {
            if text == f.choices[k] {
              valid := true;
            }
          }
          assert f.choices[..|f.choices|] == f.choices;
          if !valid {
            return Some(NotAChoice(f.name));
          }
        }
      }
    }
    return None;
  }

  predicate HasString(args: Args, key: string) {
    key in args && args[key].Str?
  }

  predicate GitAllowed(t: Tools) {
    t.git.Some? && t.git.value.allowExec
  }

  predicate SchemaFits(t: Tools, name: string, args: Args) {
    SchemaOf(t, name).Some? ==> forall f | f in SchemaOf(t, name).value.fields :: FieldFits(f, args)
  }

  lemma TwoFields(a: Field, b: Field, args: Args)
    ensures (forall f | f in [a] :: FieldFits(f, args)) <==> FieldFits(a, args)
    ensures (forall f | f in [a, b] :: FieldFits(f, args)) <==> FieldFits(a, args) && FieldFits(b, args)
  {
    hide FieldFits;
  }

  lemma ThreeFields(a: Field, b: Field, c: Field, args: Args)
    ensures (forall f | f in [a, b, c] :: FieldFits(f, args)) <==>
            FieldFits(a, args) && FieldFits(b, args) && FieldFits(c, args)
  {
    hide FieldFits;
  }

  /** The tool is enabled, and the arguments it needs are there and have their types. */
  predicate Allowed(t: Tools, name: string, args: Args) {
    match name
    case "fs.read_file" => HasString(args, "path")
    case "fs.write_file" => HasString(args, "path") && HasString(args, "content") && t.allowWrite
    case "fs.search" => HasString(args, "pattern")
    case "terminal.exec" => t.terminal == Some(true) && HasString(args, "command")
    case "git.apply_patch" =>
      && GitAllowed(t) && HasString(args, "patch")
      && (t.git.value.dryRunOnly ==> "dry_run" in args && args["dry_run"] == Bool(true))
    case "git.status" => GitAllowed(t)
    case "git.restore_backup" => GitAllowed(t) && ("name" in args ==> args["name"].Str?)
    case "git.list_backups" => GitAllowed(t)
    case "git.preview_backup" => GitAllowed(t)
    case "semantic.search" =>
      t.semantic && HasString(args, "query") && ("limit" in args ==> HasKind(args["limit"], "integer"))
    case _ => false
  }

  /** The argument that a call can have or not has its type, where there is a schema that says so. */
  predicate OptionFits(name: string, args: Args) {
    match name
    case "fs.write_file" => "overwrite" in args ==> args["overwrite"].Bool?
    case "terminal.exec" => "args" in args ==> args["args"].List?
    case "git.apply_patch" => "dry_run" in args ==> args["dry_run"].Bool?
    case "git.preview_backup" => "name" in args ==> args["name"].Str?
    case _ => true
  }

  /** The calls that are let through. */
  predicate LetThrough(t: Tools, name: string, args: Args) {
    Allowed(t, name, args) && OptionFits(name, args)
  }

  lemma LetThroughIff(t: Tools, name: string, args: Args)
    ensures LetThrough(t, name, args) <==> SchemaFits(t, name, args) && Allowed(t, name, args)
  {
    var path, command, patch := Required("path", "string"), Required("command", "string"), Required("patch", "string");
    var backup, query := Optional("name", "string"), Required("query", "string");
    match name {
    case "fs.read_file" => TwoFields(path, path, args);
    case "fs.write_file" => ThreeFields(path, Required("content", "string"), Optional("overwrite", "boolean"), args);
    case "terminal.exec" => TwoFields(command, Optional("args", "array"), args);
    case "git.apply_patch" => TwoFields(patch, Optional("dry_run", "boolean"), args);
    case "git.restore_backup" => TwoFields(backup, backup, args);
    case "git.preview_backup" => TwoFields(backup, backup, args);
    case "semantic.search" => TwoFields(query, Optional("limit", "integer"), args);
    case _ =>
    }
  }

  method CheckPermissions(t: Tools, name: string, args: Args) returns (r: Option<Complaint>)
    ensures r.None? <==> Allowed(t, name, args)
  {
    match name {
    case "fs.read_file" =>
      if !HasString(args, "path") { return Some(Missing("path")); }
    case "fs.write_file" =>
      if !HasString(args, "path") { return Some(Missing("path")); }
      if !HasString(args, "content") { return Some(Missing("content")); }
      if !t.allowWrite { return Some(Disabled); }
    case "fs.search" =>
      if !HasString(args, "pattern") { return Some(Missing("pattern")); }
    case "terminal.exec" =>
      if t.terminal.None? || !t.terminal.value { return Some(Disabled); }
      if !HasString(args, "command") { return Some(Missing("command")); }
    case "git.apply_patch" =>
      if t.git.None? || !t.git.value.allowExec { return Some(Disabled); }
      if !HasString(args, "patch") { return Some(Missing("patch")); }
      if t.git.value.dryRunOnly && !("dry_run" in args && args["dry_run"] == Bool(true)) { return Some(Disabled); }
    case "git.status" =>
      if t.git.None? || !t.git.value.allowExec { return Some(Disabled); }
    case "git.restore_backup" =>
      if t.git.None? || !t.git.value.allowExec { return Some(Disabled); }
      if "name" in args && !args["name"].Str? { return Some(WrongType("name")); }
    case "git.list_backups" =>
      if t.git.None? || !t.git.value.allowExec { return Some(Disabled); }
    case "git.preview_backup" =>
      if t.git.None? || !t.git.value.allowExec { return Some(Disabled); }
    case "semantic.search" =>
      if !t.semantic { return Some(Disabled); }
      if !HasString(args, "query") { return Some(Missing("query")); }
      if "limit" in args && !args["limit"].Float? && !args["limit"].Int? { return Some(WrongType("limit")); }
    case _ =>
      return Some(UnknownTool);
    }
    return None;
  }

  method ValidateCall(t: Tools, name: string, args: Args) returns (r: Option<Complaint>)
    ensures r.None? <==> LetThrough(t, name, args)
  {
    hide FieldFits;
    LetThroughIff(t, name, args);
    var schema := SchemaOf(t, name);
    if schema.Some? {
      r := ValidateAgainstSchema(schema.value, args);
      if r.Some? {
        return;
      }
    }
    r := CheckPermissions(t, name, args);
  }

  // ---- what a call executes ----

  datatype Action =
    | ReadFile(path: string)
    | WriteFile(path: string, content: string)
    | SearchFiles(root: string, pattern: string)
    | Exec(command: string, arguments: seq<string>)
    | Status
    | ApplyPatch(patch: string, dryRun: bool)
    | RestoreBackup(id: string)
    | ListBackups
    | PreviewBackup(id: string)
    | SearchByMeaning(query: string, limit: int)
    | NoTool

  function Text(args: Args, key: string): string {
    if HasString(args, key) then args[key].text else ""
  }

  /** The strings of a list; other items are passed over. */
  function StringsOf(items: seq<Arg>): seq<string> {
    if items == [] then []
    else
      var last := items[|items| - 1];
      StringsOf(items[..|items| - 1]) + if last.Str? then [last.text] else []
  }

  method CollectStrings(items: seq<Arg>) returns (r: seq<string>)
    ensures r == StringsOf(items)
  {
    r := [];
    for i := 0 to |items|
      invariant r == StringsOf(items[..i])
    {
      assert items[..i + 1][..i] == items[..i];
      if items[i].Str? {
        r := r + [items[i].text];
      }
    }
    assert items[..|items|] == items;
  }

  /** Conversion to an integer drops the fraction. */
  function Truncated(v: Arg): int {
    if v.Int? then v.count
    else if !v.Float? then 0
    else if v.amount < 0.0 then -(-v.amount).Floor
    else v.amount.Floor
  }

  function Dispatch(t: Tools, name: string, args: Args): Action {
    match name
    case "fs.read_file" => ReadFile(Text(args, "path"))
    case "fs.write_file" => WriteFile(Text(args, "path"), Text(args, "content"))
    case "fs.search" => SearchFiles(Text(args, "root"), Text(args, "pattern"))
    case "terminal.exec" =>
      Exec(Text(args, "command"), if "args" in args && args["args"].List? then StringsOf(args["args"].items) else [])
    case "git.apply_patch" =>
      var given := "dry_run" in args && args["dry_run"].Bool?;
      ApplyPatch(Text(args, "patch"), if given then args["dry_run"].value else t.git.Some? && t.git.value.dryRunOnly)
    case "git.status" => Status
    case "git.restore_backup" => RestoreBackup(Text(args, "name"))
    case "git.list_backups" => ListBackups
    case "git.preview_backup" => PreviewBackup(Text(args, "name"))
    case "semantic.search" =>
      SearchByMeaning(Text(args, "query"), if "limit" in args then Truncated(args["limit"]) else 0)
    case _ => NoTool
  }

  /** Checks a call and turns it into what is executed. */
  method PrepareCall(t: Tools, name: string, args: Args) returns (r: Result<Action>)
    ensures r == if LetThrough(t, name, args) then Ok(Dispatch(t, name, args)) else Err("refused")
  {
    hide LetThrough, StringsOf;
    var complaint := ValidateCall(t, name, args);
    if complaint.Some? {
      return Err("refused");
    }
    if name == "terminal.exec" {
      var arguments: seq<string> := [];
      if "args" in args && args["args"].List? {
        arguments := CollectStrings(args["args"].items);
      }
      return Ok(Exec(Text(args, "command"), arguments));
    }
    return Ok(Dispatch(t, name, args));
  }

  // ---- the laws ----

  /** Each tool has its own kind of action, and no other name has one. */
  lemma ActionTellsTool(t: Tools, name: string, args: Args)
    ensures var a := Dispatch(t, name, args);
            && (a.ReadFile? <==> name == "fs.read_file")
            && (a.WriteFile? <==> name == "fs.write_file")
            && (a.SearchFiles? <==> name == "fs.search")
            && (a.Exec? <==> name == "terminal.exec")
            && (a.ApplyPatch? <==> name == "git.apply_patch")
            && (a.Status? <==> name == "git.status")
            && (a.RestoreBackup? <==> name == "git.restore_backup")
            && (a.ListBackups? <==> name == "git.list_backups")
            && (a.PreviewBackup? <==> name == "git.preview_backup")
            && (a.SearchByMeaning? <==> name == "semantic.search")
  {
    hide StringsOf, Truncated;
  }

  /** Of a list of arguments the strings are executed, in order; what is no string is passed over wherever it stands. */
  lemma {:induction false} StringsInOrder(a: seq<Arg>, v: Arg, b: seq<Arg>)
    ensures StringsOf(a + [v] + b) == StringsOf(a) + (if v.Str? then [v.text] else []) + StringsOf(b)
  {
    var all := a + [v] + b;
    if b == [] {
      assert all[..|all| - 1] == a && all[|all| - 1] == v;
    } else {
      assert all[..|all| - 1] == a + [v] + b[..|b| - 1] && all[|all| - 1] == b[|b| - 1];
      StringsInOrder(a, v, b[..|b| - 1]);
    }
  }

  /** The limit of a search is the number it is given with the fraction dropped: of all integers not farther from zero
      the nearest. */
  lemma LimitIsTruncated(r: real)
    ensures var n := Truncated(Float(r));
            if r >= 0.0 then n as real <= r < n as real + 1.0 && n >= 0
            else n as real - 1.0 < r <= n as real && n <= 0
    ensures forall k :: Truncated(Int(k)) == k
  {
  }

  /** The permissions the tools check themselves. */
  predicate Permitted(t: Tools, a: Action) {
    match a
    case WriteFile(_, _) => t.allowWrite
    case Exec(_, _) => t.terminal == Some(true)
    case Status => GitAllowed(t)
    case ApplyPatch(_, dryRun) => GitAllowed(t) && (t.git.value.dryRunOnly ==> dryRun)
    case RestoreBackup(_) => GitAllowed(t) && !t.git.value.dryRunOnly
    case _ => true
  }

  /** A call that is let through is refused by no tool for lack of permission, with one exception: a backup is not
      restored when git is restricted to dry runs. */
  lemma LetThroughIsPermitted(t: Tools, name: string, args: Args)
    requires LetThrough(t, name, args)
    ensures Permitted(t, Dispatch(t, name, args)) <==> !(name == "git.restore_backup" && t.git.value.dryRunOnly)
  {
    hide StringsOf, Truncated;
  }

  /** A patch is applied as a dry run exactly when the call says so: the dry run is never a default, since without the
      argument a call is let through only when git is not restricted to dry runs. */
  lemma DryRunIsNeverADefault(t: Tools, args: Args)
    ensures LetThrough(t, "git.apply_patch", args) ==>
              Dispatch(t, "git.apply_patch", args).dryRun == ("dry_run" in args && args["dry_run"] == Bool(true))
    ensures "dry_run" !in args && HasString(args, "patch") && GitAllowed(t) ==>
              (LetThrough(t, "git.apply_patch", args) <==> !t.git.value.dryRunOnly)
  {
    hide StringsOf, Truncated;
  }

  /** An argument is read as it was given, or as the empty string if it was not given. */
  predicate ReadAsGiven(args: Args, key: string, text: string) {
    if key in args then args[key] == Str(text) else text == ""
  }

  function Quoted(texts: seq<string>): seq<Arg> {
    seq(|texts|, i requires 0 <= i < |texts| => Str(texts[i]))
  }

  /** The action has every argument of the call that has a meaning for its tool as it was given.  A file write has no
      place for `overwrite`, so it carries the call only if that is not given. */
  predicate Carries(args: Args, a: Action) {
    match a
    case ReadFile(path) => ReadAsGiven(args, "path", path)
    case WriteFile(path, content) =>
      ReadAsGiven(args, "path", path) && ReadAsGiven(args, "content", content) && "overwrite" !in args
    case SearchFiles(root, pattern) => ReadAsGiven(args, "root", root) && ReadAsGiven(args, "pattern", pattern)
    case Exec(command, given) =>
      && ReadAsGiven(args, "command", command)
      && (if "args" in args then args["args"] == List(Quoted(given)) else given == [])
    case ApplyPatch(patch, dryRun) =>
      ReadAsGiven(args, "patch", patch) && (if "dry_run" in args then args["dry_run"] == Bool(dryRun) else !dryRun)
    case RestoreBackup(id) => ReadAsGiven(args, "name", id)
    case PreviewBackup(id) => ReadAsGiven(args, "name", id)
    case SearchByMeaning(query, limit) =>
      && ReadAsGiven(args, "query", query)
      && (if "limit" in args then args["limit"] == Int(limit) || args["limit"] == Float(limit as real) else limit == 0)
    case _ => true
  }

  predicate AllStrings(items: seq<Arg>) {
    forall v | v in items :: v.Str?
  }

  predicate IsFraction(v: Arg) {
    v.Float? && v.amount.Floor as real != v.amount
  }

  /** What the check lets through and the execution drops: the wish to overwrite or not, a search root that is not a
      string, command arguments that are not strings, and the fraction of a limit. */
  predicate Dropped(name: string, args: Args) {
    || (name == "fs.write_file" && "overwrite" in args)
    || (name == "fs.search" && "root" in args && !args["root"].Str?)
    || (name == "terminal.exec" && "args" in args && args["args"].List? && !AllStrings(args["args"].items))
    || (name == "semantic.search" && "limit" in args && IsFraction(args["limit"]))
  }

  lemma {:induction false} StringsAreKept(items: seq<Arg>)
    ensures |StringsOf(items)| <= |items|
    ensures |StringsOf(items)| == |items| ==> Quoted(StringsOf(items)) == items
  {
    if items != [] {
      StringsAreKept(items[..|items| - 1]);
    }
  }

  lemma KeptWhenAllStrings(items: seq<Arg>)
    ensures Quoted(StringsOf(items)) == items <==> AllStrings(items)
  {
    var given := StringsOf(items);
    StringsAreKept(items);
    if Quoted(given) == items {
      forall v | v in items ensures v.Str? {
        var i :| 0 <= i < |items| && items[i] == v;
        assert Quoted(given)[i].Str?;
      }
    }
    if AllStrings(items) {
      AllStringsKept(items);
    }
  }

  lemma {:induction false} AllStringsKept(items: seq<Arg>)
    requires AllStrings(items)
    ensures |StringsOf(items)| == |items|
  {
    if items != [] {
      assert items[|items| - 1] in items;
      assert forall v | v in items[..|items| - 1] :: v in items;
      AllStringsKept(items[..|items| - 1]);
    }
  }

  lemma WholeFloor(n: int, r: real)
    requires r == n as real
    ensures r.Floor == n
  {
  }

  lemma TruncatedIsWhole(r: real)
    ensures r == Truncated(Float(r)) as real <==> r.Floor as real == r
  {
    var n := Truncated(Float(r));
    if r == n as real {
      WholeFloor(n, r);
    } else if r.Floor as real == r && r < 0.0 {
      WholeFloor(-r.Floor, -r);
    }
  }

  /** A call that is let through is executed with the arguments it has, unless it is one of the four kinds whose
      arguments are dropped in part. */
  lemma CarriesIff(t: Tools, name: string, args: Args)
    requires LetThrough(t, name, args)
    ensures Carries(args, Dispatch(t, name, args)) <==> !Dropped(name, args)
  {
    hide StringsOf, AllStrings, Quoted;
    if name == "terminal.exec" && "args" in args {
      KeptWhenAllStrings(args["args"].items);
    } else if name == "semantic.search" && "limit" in args && args["limit"].Float? {
      TruncatedIsWhole(args["limit"].amount);
    }
  }

  /** Equal, numbers by their value. */
  predicate SameValue(v: Arg, w: Arg) {
    v == w || (v.Int? && w == Float(v.count as real)) || (w.Int? && v == Float(w.count as real))
  }

  /** Two calls of a tool that execute the same action, and drop nothing, agree on every argument of the tool's schema
      that both of them give. */
  lemma ActionTellsArguments(t: Tools, name: string, a: Args, b: Args, f: Field)
    requires LetThrough(t, name, a) && LetThrough(t, name, b) && !Dropped(name, a) && !Dropped(name, b)
    requires Dispatch(t, name, a) == Dispatch(t, name, b)
    requires SchemaOf(t, name).Some? && f in SchemaOf(t, name).value.fields && f.name in a && f.name in b
    ensures SameValue(a[f.name], b[f.name])
  {
    CarriesIff(t, name, a);
    CarriesIff(t, name, b);
    hide LetThrough, Dropped, Quoted;
    var action := Dispatch(t, name, a);
    hide Dispatch;
    assert Carries(a, action) && Carries(b, action);
  }

  /** A write that must not overwrite is let through and executed as one that may. */
  lemma OverwriteIsIgnored(t: Tools, path: string, content: string, overwrite: bool)
    requires t.allowWrite
    ensures var args: Args := map["path" := Str(path), "content" := Str(content), "overwrite" := Bool(overwrite)];
            && LetThrough(t, "fs.write_file", args)
            && Dispatch(t, "fs.write_file", args) == WriteFile(path, content)
            && Dropped("fs.write_file", args) && !Carries(args, WriteFile(path, content))
  {
  }

  /** A search of the files is refused by the path guard unless it brings a root, which no check asks for. */
  lemma SearchNeedsRoot(t: Tools, args: Args, base: string)
    requires LetThrough(t, "fs.search", args) && !(HasString(args, "root") && args["root"].text != "")
    ensures PathGuard.Resolve(base, Dispatch(t, "fs.search", args).root).Err?
  {
  }
}
