/** Environment variables kept in a file, one `name=value` line each. */
module Env {
  import opened Wrappers
  import opened Text

  type Vars = map<string, string>

  // ----- lines -----

  function SplitLines(text: string): seq<string> {
    Split(text, '\n')
  }

  /** The two sides of the first '=', as `strings.SplitN(line, "=", 2)` gives them. */
  function Cut(line: string): Option<(string, string)> {
    if line == "" then None
    else if line[0] == '=' then Some(("", line[1..]))
    else
      match Cut(line[1..])
      case None => None
      case Some((name, value)) => Some(([line[0]] + name, value))
  }

  function Line(name: string, value: string): string {
    name + "=" + value
  }

  lemma {:induction false} CutIsFirst(line: string)
    ensures Cut(line).None? <==> '=' !in line
    ensures Cut(line).Some? ==>
              var (name, value) := Cut(line).value; '=' !in name && line == Line(name, value)
  {
    if line != "" && line[0] != '=' {
      CutIsFirst(line[1..]);
    }
  }

  lemma {:induction false} CutLine(name: string, value: string)
    requires '=' !in name
    ensures Cut(Line(name, value)) == Some((name, value))
  {
    var line := Line(name, value);
    if name == "" {
      assert line[1..] == value;
    } else {
      assert line[1..] == Line(name[1..], value);
      CutLine(name[1..], value);
      assert [name[0]] + name[1..] == name;
    }
  }

  /** A line and its newline, added to text that ends where a line starts. */
  lemma SplitAddLine(text: string, lines: seq<string>, line: string)
    requires SplitLines(text) == lines + [""] && '\n' !in line
    ensures SplitLines(text + (line + "\n")) == lines + [line] + [""]
  {
    hide Split;
    SplitNewline();
    SplitWhole(line, '\n');
    SplitAppend(line, "\n", '\n');
    GlueIs([], line, ["", ""]);
    assert [] + [line] == [line];
    assert line + "" == line;
    assert SplitLines(line + "\n") == [line, ""];
    SplitAppend(text, line + "\n", '\n');
    GlueIs(lines, "", [line, ""]);
    assert "" + line == line;
  }

  lemma SplitNewline()
    ensures SplitLines("\n") == ["", ""]
  {}

  // ----- saving and loading -----

  /** The file for the entries named, in that order. */
  function Print(vars: Vars, order: seq<string>): string
    requires forall name :: name in order ==> name in vars
  {
    if order == [] then ""
    else
      var front := order[..|order| - 1];
      var name := order[|order| - 1];
      Print(vars, front) + Line(name, vars[name]) + "\n"
  }

  /** A line without '=' is an error, an empty one is skipped, and a later entry replaces an earlier one. */
  function Load(lines: seq<string>): Option<Vars> {
    if lines == [] then Some(map[])
    else
      var line := lines[|lines| - 1];
      match Load(lines[..|lines| - 1])
      case None => None
      case Some(vars) =>
        if line == "" then Some(vars)
        else
          match Cut(line)
          case None => None
          case Some((name, value)) => Some(vars[name := value])
  }

  predicate PlainEntry(name: string, value: string) {
    '=' !in name && '\n' !in name && '\n' !in value
  }

  predicate Plain(vars: Vars) {
    forall name :: name in vars ==> PlainEntry(name, vars[name])
  }

  /** Any order in which a Go map may be enumerated. */
  ghost predicate Enumerates(vars: Vars, order: seq<string>) {
    && (forall name :: name in order <==> name in vars)
    && (forall i, j :: 0 <= i < j < |order| ==> order[i] != order[j])
  }

  function Only(vars: Vars, order: seq<string>): Vars {
    map name | name in vars && name in order :: vars[name]
  }

  function Lines(vars: Vars, order: seq<string>): seq<string>
    requires forall name :: name in order ==> name in vars
  {
    seq(|order|, i requires 0 <= i < |order| => Line(order[i], vars[order[i]]))
  }

  lemma {:induction false} PrintSplits(vars: Vars, order: seq<string>)
    requires Plain(vars) && forall name :: name in order ==> name in vars
    ensures SplitLines(Print(vars, order)) == Lines(vars, order) + [""]
  {
    if order != [] {
      var front := order[..|order| - 1];
      var name := order[|order| - 1];
      var line := Line(name, vars[name]);
      PrintSplits(vars, front);
      assert PlainEntry(name, vars[name]);
      SplitAddLine(Print(vars, front), Lines(vars, front), line);
      assert Print(vars, order) == Print(vars, front) + (line + "\n");
      assert Lines(vars, order) == Lines(vars, front) + [line];
    }
  }

  lemma {:induction false} LinesLoad(vars: Vars, order: seq<string>)
    requires Plain(vars) && forall name :: name in order ==> name in vars
    ensures Load(Lines(vars, order)) == Some(Only(vars, order))
  {
    if order != [] {
      var front := order[..|order| - 1];
      var name := order[|order| - 1];
      LinesLoad(vars, front);
      CutLine(name, vars[name]);
      assert Lines(vars, order)[..|order| - 1] == Lines(vars, front);
      assert Only(vars, order) == Only(vars, front)[name := vars[name]];
    }
  }

  lemma {:induction false} LoadedIsPlain(lines: seq<string>)
    requires forall line :: line in lines ==> '\n' !in line
    ensures Load(lines).Some? ==> Plain(Load(lines).value)
  {
    if lines != [] {
      var line := lines[|lines| - 1];
      assert line in lines;
      LoadedIsPlain(lines[..|lines| - 1]);
      CutIsFirst(line);
      if Cut(line).Some? {
        var (name, value) := Cut(line).value;
        assert forall c :: c in name || c in value ==> c in line;
        assert PlainEntry(name, value);
      }
    }
  }

  /** Saving and loading gives back the variables, whatever the order of enumeration, exactly when no name
      holds an '=' or a newline and no value holds a newline. */
  lemma RoundTrip(vars: Vars, order: seq<string>)
    requires Enumerates(vars, order)
    ensures Load(SplitLines(Print(vars, order))) == Some(vars) <==> Plain(vars)
  {
    var text := Print(vars, order);
    SplitHasNo(text, '\n');
    LoadedIsPlain(SplitLines(text));
    if Plain(vars) {
      PrintSplits(vars, order);
      LinesLoad(vars, order);
      var lines := Lines(vars, order);
      assert (lines + [""])[..|lines|] == lines;
      assert Only(vars, order) == vars;
    }
  }

  /** What has been loaded from some file survives being saved and loaded again. */
  lemma LoadedSurvives(text: string, order: seq<string>)
    requires Load(SplitLines(text)).Some? && Enumerates(Load(SplitLines(text)).value, order)
    ensures Load(SplitLines(Print(Load(SplitLines(text)).value, order))) == Load(SplitLines(text))
  {
    SplitHasNo(text, '\n');
    LoadedIsPlain(SplitLines(text));
    RoundTrip(Load(SplitLines(text)).value, order);
  }

  lemma {:induction false} LoadFails(lines: seq<string>)
    ensures Load(lines).None? <==> exists i :: 0 <= i < |lines| && lines[i] != "" && '=' !in lines[i]
  {
    if lines != [] {
      var front := lines[..|lines| - 1];
      LoadFails(front);
      CutIsFirst(lines[|lines| - 1]);
      if i :| 0 <= i < |lines| && lines[i] != "" && '=' !in lines[i] {
        assert i < |front| ==> front[i] == lines[i];
      }
    }
  }

  // ----- the store -----

  class File {
    var content: string
    ghost var failures: nat

    constructor ()
      ensures content == "" && failures == 0
    {
      content, failures := "", 0;
    }

    /** A write that fails may have written some of its text, and is counted. */
    method WriteString(text: string) returns (ok: bool)
      modifies this
      ensures failures == if ok then old(failures) else old(failures) + 1
      ensures ok ==> content == old(content) + text
      ensures !ok ==> old(content) <= content <= old(content) + text
    {
      var works: bool := *;
      if works {
        content := content + text;
        return true;
      }
      var most := |text|;
      var n :| 0 <= n <= most;
      content, failures := content + text[..n], failures + 1;
      return false;
    }
  }

  class EnvironmentVariables {
    var vars: Vars

    constructor (vars: Vars)
      ensures this.vars == vars
    {
      this.vars := vars;
    }

    method Set(name: string, value: string)
      modifies this
      ensures vars == old(vars)[name := value]
    {
      vars := vars[name := value];
    }

    method Delete(name: string)
      modifies this
      ensures vars == old(vars) - {name}
    {
      vars := vars - {name};
    }

    method Get(name: string) returns (value: Option<string>)
      ensures value == if name in vars then Some(vars[name]) else None
    {
      if name in vars {
        return Some(vars[name]);
      }
      return None;
    }

    /** `order` is the order in which the map happens to be enumerated. */
    method SaveToFile(file: File, order: seq<string>) returns (ok: bool)
      requires Enumerates(vars, order)
      modifies file
      ensures ok <==> file.failures == old(file.failures)
      ensures ok ==> file.content == old(file.content) + Print(vars, order)
      ensures !ok ==> old(file.content) <= file.content <= old(file.content) + Print(vars, order)
    {
      hide Print;
      hide Line;
      ghost var before := file.content;
      var i := 0;
      PrintEnds(vars, order);
      while i < |order|
        invariant i <= |order|
        invariant file.content == before + Print(vars, order[..i]) && file.failures == old(file.failures)
      {
        PrintNext(vars, order, i);
        ok := file.WriteString(Line(order[i], vars[order[i]]) + "\n");
        if !ok {
          return;
        }
        i := i + 1;
      }
      return true;
    }
  }

  lemma PrintEnds(vars: Vars, order: seq<string>)
    requires forall name :: name in order ==> name in vars
    ensures Print(vars, order[..0]) == "" && Print(vars, order[..|order|]) == Print(vars, order)
  {
    assert order[..|order|] == order;
  }

  lemma PrintNext(vars: Vars, order: seq<string>, n: nat)
    requires n < |order| && forall name :: name in order ==> name in vars
    ensures Print(vars, order[..n + 1]) == Print(vars, order[..n]) + (Line(order[n], vars[order[n]]) + "\n")
    ensures Print(vars, order[..n]) + (Line(order[n], vars[order[n]]) + "\n") <= Print(vars, order)
  {
    assert order[..n + 1][..n] == order[..n];
    PrintGrows(vars, order, n + 1);
  }

  lemma {:induction false} PrintGrows(vars: Vars, order: seq<string>, n: nat)
    requires n <= |order| && forall name :: name in order ==> name in vars
    ensures Print(vars, order[..n]) <= Print(vars, order)
    decreases |order|
  {
    if n < |order| {
      var front := order[..|order| - 1];
      PrintGrows(vars, front, n);
      assert front[..n] == order[..n];
    } else {
      assert order[..n] == order;
    }
  }

  /** `FromFile` on the text of the file. */
  method FromFile(text: string) returns (env: EnvironmentVariables?)
    ensures Load(SplitLines(text)).None? <==> env == null
    ensures env != null ==> fresh(env) && env.vars == Load(SplitLines(text)).value
  {
    var lines := SplitLines(text);
    var vars: Vars := map[];
    var i := 0;
    while i < |lines|
      invariant i <= |lines|
      invariant Load(lines[..i]) == Some(vars)
    {
      var line := lines[i];
      assert lines[..i + 1][..i] == lines[..i];
      if line != "" {
        var parts := Cut(line);
        if parts == None {
          LoadStops(lines, i + 1);
          return null;
        }
        vars := vars[parts.value.0 := parts.value.1];
      }
      i := i + 1;
    }
    assert lines[..i] == lines;
    env := new EnvironmentVariables(vars);
  }

  lemma {:induction false} LoadStops(lines: seq<string>, n: nat)
    requires n <= |lines| && Load(lines[..n]).None?
    ensures Load(lines).None?
    decreases |lines|
  {
    if n < |lines| {
      var front := lines[..|lines| - 1];
      assert front[..n] == lines[..n];
      LoadStops(front, n);
    } else {
      assert lines[..n] == lines;
    }
  }

  /** Saving to a new file and loading it back gives equal variables exactly when they are plain, in whatever order
      they happen to be written. */
  method SaveThenLoad(env: EnvironmentVariables, order: seq<string>)
    returns (back: EnvironmentVariables?, saved: bool, file: File)
    requires Enumerates(env.vars, order)
    ensures fresh(file) && (saved <==> file.failures == 0)
    ensures saved ==> (back != null && back.vars == env.vars <==> Plain(env.vars))
  {
    back := null;
    file := new File();
    saved := env.SaveToFile(file, order);
    if !saved {
      return;
    }
    assert file.content == Print(env.vars, order);
    back := FromFile(file.content);
    RoundTrip(env.vars, order);
  }

  /** A variable that has been set is found again after saving and loading, when all variables are plain. */
  method SetThenSave(env: EnvironmentVariables, name: string, value: string, order: seq<string>)
    returns (found: Option<string>, saved: bool)
    requires Enumerates(env.vars[name := value], order)
    modifies env
    ensures env.vars == old(env.vars)[name := value]
    ensures saved && Plain(env.vars) ==> found == Some(value)
  {
    env.Set(name, value);
    found := None;
    var back, file;
    back, saved, file := SaveThenLoad(env, order);
    if back != null {
      found := back.Get(name);
    }
  }
}
