/** The env-file reader shared by the file watcher and the supervisor: every line is trimmed,
    blank lines and `#` comments are skipped, and the rest are appended in file order. */
module EnvFile {
  import opened Wrappers
  import opened Strings

  /** What the file system reports for one env file: it does not exist, it cannot be opened,
      or it yields these scanner lines followed by the scanner's error, if any. Splitting the
      bytes into lines (and the scanner's line-length limit) is not modelled. */
  datatype EnvFileContent = Missing | Unopenable(err: string) | Readable(lines: seq<string>, scanErr: Option<string>)

  /** A trimmed line that becomes an environment entry. */
  predicate Kept(line: string) {
    |line| > 0 && !HasPrefix(line, "#")
  }

  /** The entries a sequence of scanner lines contributes. */
  function EnvLines(lines: seq<string>): (r: seq<string>)
    ensures |r| <= |lines|
    ensures forall i :: 0 <= i < |r| ==> Kept(r[i])
  {
    if lines == [] then []
    else
      var line := TrimSpace(lines[|lines| - 1]);
      EnvLines(lines[..|lines| - 1]) + (if Kept(line) then [line] else [])
  }

  /** One more scanner line extends the entries by that line's entry, if it has one. */
  lemma EnvLinesStep(lines: seq<string>, i: nat)
    requires i < |lines|
    ensures var line := TrimSpace(lines[i]);
      EnvLines(lines[..i + 1]) == EnvLines(lines[..i]) + (if Kept(line) then [line] else [])
  {
    assert lines[..i + 1][..i] == lines[..i];
  }

  /** Reading two stretches of a file contributes their entries one after the other:
      entries keep the order of the file. */
  lemma {:induction false} EnvLinesAppend(a: seq<string>, b: seq<string>)
    ensures EnvLines(a + b) == EnvLines(a) + EnvLines(b)
    decreases |b|
  {
    if b == [] {
      assert a + b == a;
    } else {
      var b' := b[..|b| - 1];
      var line := TrimSpace(b[|b| - 1]);
      var tail := if Kept(line) then [line] else [];
      assert (a + b)[..|a + b| - 1] == a + b';
      assert (a + b)[|a + b| - 1] == b[|b| - 1];
      assert EnvLines(a + b) == EnvLines(a + b') + tail;
      assert EnvLines(b) == EnvLines(b') + tail;
      EnvLinesAppend(a, b');
    }
  }

  /** Every line of the file that is neither blank nor a comment once trimmed becomes an entry. */
  lemma {:induction false} EnvLinesComplete(lines: seq<string>, j: nat)
    requires j < |lines| && Kept(TrimSpace(lines[j]))
    ensures TrimSpace(lines[j]) in EnvLines(lines)
  {
    var init := lines[..|lines| - 1];
    if j < |lines| - 1 {
      assert init[j] == lines[j];
      EnvLinesComplete(init, j);
    }
  }

  /** Every entry is a trimmed line of the file. */
  lemma {:induction false} EnvLinesSound(lines: seq<string>, k: nat)
    requires k < |EnvLines(lines)|
    ensures exists j :: 0 <= j < |lines| && EnvLines(lines)[k] == TrimSpace(lines[j])
  {
    var init := lines[..|lines| - 1];
    if k < |EnvLines(init)| {
      EnvLinesSound(init, k);
      var j :| 0 <= j < |init| && EnvLines(init)[k] == TrimSpace(init[j]);
      assert lines[j] == init[j];
    } else {
      assert EnvLines(lines)[k] == TrimSpace(lines[|lines| - 1]);
    }
  }

  /** The outcome of loading one env file: the entries it adds, or the error it reports.
      A missing file adds nothing and is not an error. */
  function LoadOne(content: EnvFileContent): (r: Result<seq<string>>)
    ensures content.Missing? ==> r == Ok([])
    ensures content.Readable? && content.scanErr.None? ==> r == Ok(EnvLines(content.lines))
    ensures r.Err? <==> content.Unopenable? || (content.Readable? && content.scanErr.Some?)
  {
    match content
    case Missing => Ok([])
    case Unopenable(e) => Err(e)
    case Readable(lines, scanErr) => if scanErr.Some? then Err(scanErr.value) else Ok(EnvLines(lines))
  }

  /** The content of a named file: absent from the map means the file does not exist. */
  function Lookup(files: map<string, EnvFileContent>, name: string): EnvFileContent {
    if name in files then files[name] else Missing
  }

  /** Loading a list of env files in order, stopping at the first that fails. */
  function LoadAll(names: seq<string>, files: map<string, EnvFileContent>): (r: Result<seq<string>>)
    ensures r.Ok? <==> forall i :: 0 <= i < |names| ==> LoadOne(Lookup(files, names[i])).Ok?
  {
    if names == [] then Ok([])
    else
      var init := LoadAll(names[..|names| - 1], files);
      var last := LoadOne(Lookup(files, names[|names| - 1]));
      if init.Err? then init
      else if last.Err? then last
      else Ok(init.value + last.value)
  }

  /** Loading one more file after a successful prefix adds that file's entries. */
  lemma LoadAllStep(names: seq<string>, files: map<string, EnvFileContent>, i: nat)
    requires i < |names| && LoadAll(names[..i], files).Ok? && LoadOne(Lookup(files, names[i])).Ok?
    ensures LoadAll(names[..i + 1], files)
         == Ok(LoadAll(names[..i], files).value + LoadOne(Lookup(files, names[i])).value)
  {
    assert names[..i + 1][..i] == names[..i];
  }

  /** When the i-th env file is the first to fail, loading the whole list fails with its error. */
  lemma LoadAllStops(names: seq<string>, files: map<string, EnvFileContent>, i: nat)
    requires i < |names| && LoadAll(names[..i], files).Ok? && LoadOne(Lookup(files, names[i])).Err?
    ensures LoadAll(names, files) == LoadOne(Lookup(files, names[i]))
    decreases |names|
  {
    if i < |names| - 1 {
      var init := names[..|names| - 1];
      assert init[..i] == names[..i];
      LoadAllStops(init, files, i);
    } else {
      assert names[..|names| - 1] == names[..i];
    }
  }
}
