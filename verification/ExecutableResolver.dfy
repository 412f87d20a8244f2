/**
  The search for the Codex executable on PATH: nested loops with a fallback, proved against a
  choice stated without loops.
 */
module ExecutableResolver {
  import opened Wrappers
  import Lines
  import StreamParsing

  const DEFAULT_PATHEXT := ".COM;.EXE;.BAT;.CMD"
  const NATIVE_EXTENSIONS := {".exe", ".com"}
  const SHIM_EXTENSIONS := {".cmd", ".bat"}

  datatype Kind = Native | Shim

  datatype Executable = Executable(path: string, kind: Kind)

  datatype Resolution = Found(executable: Executable) | NotFound | TimedOut

  /** The file system, path joining, lower-casing, and the clock as read at the start and once per directory. */
  datatype World = World(isFile: string -> bool, join: (string, string) -> string, lower: string -> string, clock: nat -> int)

  datatype Options = Options(windows: bool, pathValue: string, pathExt: Option<string>, binaryName: string, maxMs: int, world: World)

  predicate IsSpace(c: char) {
    c as int < 0x1_0000 && StreamParsing.IsSpace(c as int)
  }

  function TrimStart(s: string): string {
    if |s| > 0 && IsSpace(s[0]) then TrimStart(s[1..]) else s
  }

  function TrimEnd(s: string): string {
    if |s| > 0 && IsSpace(s[|s| - 1]) then TrimEnd(s[..|s| - 1]) else s
  }

  function Trim(s: string): string {
    TrimEnd(TrimStart(s))
  }

  function NonEmptyTrimmed(entries: seq<string>): seq<string> {
    if entries == [] then []
    else (if |Trim(entries[0])| > 0 then [Trim(entries[0])] else []) + NonEmptyTrimmed(entries[1..])
  }

  function Directories(o: Options): seq<string> {
    NonEmptyTrimmed(Lines.Split(o.pathValue, if o.windows then ';' else ':'))
  }

  function Extensions(o: Options): seq<string> {
    NonEmptyTrimmed(Lines.Split(if o.pathExt.Some? && |o.pathExt.value| > 0 then o.pathExt.value else DEFAULT_PATHEXT, ';'))
  }

  /** Candidate positions in one directory: the listed extensions and then none on Windows, only none elsewhere. */
  function Slots(o: Options): nat {
    if o.windows then |Extensions(o)| + 1 else 1
  }

  /** What the `j`-th position of a directory stands for, whether or not there is such a file. */
  function Candidate(o: Options, directory: string, j: nat): Option<Executable>
    requires j < Slots(o)
  {
    if !o.windows then Some(Executable(o.world.join(directory, o.binaryName), Native))
    else if j == |Extensions(o)| then Some(Executable(o.world.join(directory, o.binaryName), Shim))
    else
      var extension := o.world.lower(Extensions(o)[j]);
      if extension in SHIM_EXTENSIONS then Some(Executable(o.world.join(directory, o.binaryName + extension), Shim))
      else if extension in NATIVE_EXTENSIONS then Some(Executable(o.world.join(directory, o.binaryName + extension), Native))
      else None
  }

  /** Position `j` of directory `i` is an existing file of this kind. */
  ghost predicate Hit(o: Options, kind: Kind, i: nat, j: nat) {
    i < |Directories(o)| && j < Slots(o) &&
    var candidate := Candidate(o, Directories(o)[i], j);
    candidate.Some? && candidate.value.kind == kind && o.world.isFile(candidate.value.path)
  }

  ghost predicate Before(i: nat, j: nat, i': nat, j': nat) {
    i < i' || (i == i' && j < j')
  }

  /** The first hit of this kind, directories first and positions second. */
  ghost predicate FirstHit(o: Options, kind: Kind, i: nat, j: nat) {
    Hit(o, kind, i, j) && forall i': nat, j': nat | Before(i', j', i, j) :: !Hit(o, kind, i', j')
  }

  ghost predicate NoHit(o: Options, kind: Kind, upTo: nat) {
    forall i: nat, j: nat | i < upTo :: !Hit(o, kind, i, j)
  }

  /** The clock has run over when directory `i` is about to be searched. */
  predicate Late(o: Options, i: nat) {
    o.world.clock(i + 1) - o.world.clock(0) > o.maxMs
  }

  ghost predicate OnTime(o: Options, upTo: nat) {
    forall i: nat | i < upTo :: !Late(o, i)
  }

  /**
    The choice, without loops: the first native file on PATH whose directory is reached in time; if time
    runs out before one, a timeout, whatever shims were seen; otherwise the first shim, where in each
    directory a file without extension ranks behind every listed extension; otherwise nothing.
   */
  ghost predicate RightChoice(o: Options, r: Resolution) {
    match r
    case Found(e) =>
      exists i: nat, j: nat ::
        && FirstHit(o, e.kind, i, j) && Candidate(o, Directories(o)[i], j) == Some(e)
        && (if e.kind.Native? then OnTime(o, i + 1)
            else NoHit(o, Native, |Directories(o)|) && OnTime(o, |Directories(o)|))
    case TimedOut => exists i: nat :: i < |Directories(o)| && Late(o, i) && OnTime(o, i) && NoHit(o, Native, i)
    case NotFound => NoHit(o, Native, |Directories(o)|) && NoHit(o, Shim, |Directories(o)|) && OnTime(o, |Directories(o)|)
  }

  /** The fallback remembered so far: the first shim before position (i, j), if any. */
  ghost predicate Remembered(o: Options, fallback: Option<Executable>, i: nat, j: nat) {
    match fallback
    case None => forall i': nat, j': nat | Before(i', j', i, j) :: !Hit(o, Shim, i', j')
    case Some(e) =>
      && e.kind.Shim?
      && exists i': nat, j': nat ::
          Before(i', j', i, j) && FirstHit(o, Shim, i', j') && Candidate(o, Directories(o)[i'], j') == Some(e)
  }

  ghost predicate NoNativeBefore(o: Options, i: nat, j: nat) {
    forall i': nat, j': nat | Before(i', j', i, j) :: !Hit(o, Native, i', j')
  }

  method Resolve(o: Options) returns (r: Resolution)
    ensures RightChoice(o, r)
  {
    hide Lines.Split, NonEmptyTrimmed;
    var directories := Directories(o);
    var startedAt := o.world.clock(0);
    var shimFallback: Option<Executable> := None;
    for i := 0 to |directories|
      invariant OnTime(o, i) && NoNativeBefore(o, i, 0) && Remembered(o, shimFallback, i, 0)
    {
      if o.world.clock(i + 1) - startedAt > o.maxMs { return TimedOut; }
      if o.windows {
        var found: Option<Executable>;
        found, shimFallback := SearchWindows(o, i, shimFallback);
        if found != None { return Found(found.value); }
      } else {
        var candidatePath := o.world.join(directories[i], o.binaryName);
        if o.world.isFile(candidatePath) {
          assert FirstHit(o, Native, i, 0);
          return Found(Executable(candidatePath, Native));
        }
        NextSlot(o, shimFallback, i, 0);
      }
      NextDirectory(o, shimFallback, i);
    }
    if shimFallback != None { return Found(shimFallback.value); }
    return NotFound;
  }

  /** The extension loop of one directory, then the file without extension. */
  method SearchWindows(o: Options, i: nat, fallback: Option<Executable>)
    returns (found: Option<Executable>, shimFallback: Option<Executable>)
    requires o.windows && i < |Directories(o)| && NoNativeBefore(o, i, 0) && Remembered(o, fallback, i, 0)
    ensures found.Some? ==> found.value.kind.Native?
    ensures found.Some? ==> exists j: nat :: FirstHit(o, Native, i, j) && Candidate(o, Directories(o)[i], j) == found
    ensures found.None? ==> NoNativeBefore(o, i, Slots(o)) && Remembered(o, shimFallback, i, Slots(o))
  {
    hide Lines.Split, NonEmptyTrimmed, Remembered;
    var directory, extensions := Directories(o)[i], Extensions(o);
    found, shimFallback := None, fallback;
    for j := 0 to |extensions|
      invariant NoNativeBefore(o, i, j) && Remembered(o, shimFallback, i, j)
    {
      NextSlot(o, shimFallback, i, j);
      var extension := o.world.lower(extensions[j]);
      var isNative, isShim := extension in NATIVE_EXTENSIONS, extension in SHIM_EXTENSIONS;
      if !isNative && !isShim { continue; }
      var candidatePath := o.world.join(directory, o.binaryName + extension);
      if !o.world.isFile(candidatePath) { continue; }
      if isShim {
        if shimFallback == None { shimFallback := Some(Executable(candidatePath, Shim)); }
      } else {
        assert FirstHit(o, Native, i, j);
        return Some(Executable(candidatePath, Native)), shimFallback;
      }
    }
    NextSlot(o, shimFallback, i, |extensions|);
    var extensionless := o.world.join(directory, o.binaryName);
    if o.world.isFile(extensionless) && shimFallback == None {
      shimFallback := Some(Executable(extensionless, Shim));
    }
  }

  /** Passing one position: what is remembered becomes the first shim up to and including it. */
  lemma NextSlot(o: Options, fallback: Option<Executable>, i: nat, j: nat)
    requires i < |Directories(o)| && j < Slots(o) && NoNativeBefore(o, i, j) && Remembered(o, fallback, i, j)
    ensures Hit(o, Native, i, j) ==> FirstHit(o, Native, i, j)
    ensures !Hit(o, Native, i, j) ==> NoNativeBefore(o, i, j + 1)
    ensures fallback.Some? || !Hit(o, Shim, i, j) ==> Remembered(o, fallback, i, j + 1)
    ensures fallback.None? && Hit(o, Shim, i, j) ==> Remembered(o, Candidate(o, Directories(o)[i], j), i, j + 1)
  {
    hide Candidate, Directories, Slots;
    forall i': nat, j': nat | Before(i', j', i, j + 1)
      ensures Before(i', j', i, j) || (i' == i && j' == j)
    {
    }
    if fallback.Some? {
      var e := fallback.value;
      var i': nat, j': nat :| Before(i', j', i, j) && FirstHit(o, Shim, i', j') && Candidate(o, Directories(o)[i'], j') == Some(e);
      assert Before(i', j', i, j + 1);
    } else if Hit(o, Shim, i, j) {
      assert FirstHit(o, Shim, i, j) && Before(i, j, i, j + 1);
    }
  }

  /** After the last position of a directory comes the first of the next. */
  lemma NextDirectory(o: Options, fallback: Option<Executable>, i: nat)
    requires NoNativeBefore(o, i, Slots(o)) && Remembered(o, fallback, i, Slots(o))
    ensures NoNativeBefore(o, i + 1, 0) && Remembered(o, fallback, i + 1, 0)
  {
    hide Candidate, Directories, Slots;
    forall i': nat, j': nat | Before(i', j', i + 1, 0)
      ensures Before(i', j', i, Slots(o)) || (i' == i && Slots(o) <= j')
    {
    }
    if fallback.Some? {
      var i': nat, j': nat :| Before(i', j', i, Slots(o)) && FirstHit(o, Shim, i', j')
        && Candidate(o, Directories(o)[i'], j') == Some(fallback.value);
      assert Before(i', j', i + 1, 0);
    }
  }

  /** The choice is unique: the declarative statement determines the answer. */
  lemma ChoiceIsUnique(o: Options, a: Resolution, b: Resolution)
    requires RightChoice(o, a) && RightChoice(o, b)
    ensures a == b
  {
    hide Candidate, Directories, Slots, Late;
    if a.Found? && b.Found? {
      var i: nat, j: nat :| FirstHit(o, a.executable.kind, i, j) && Candidate(o, Directories(o)[i], j) == Some(a.executable);
      var k: nat, l: nat :| FirstHit(o, b.executable.kind, k, l) && Candidate(o, Directories(o)[k], l) == Some(b.executable);
      assert Before(i, j, k, l) || Before(k, l, i, j) || (i == k && j == l);
    }
  }

  // --------------------------------------------------------------------- what is searched

  predicate AllSpace(s: string) {
    forall i :: 0 <= i < |s| ==> IsSpace(s[i])
  }

  /** `t` is `s` without the white space around it. */
  ghost predicate Trimmed(s: string, t: string) {
    && (t == [] || (!IsSpace(t[0]) && !IsSpace(t[|t| - 1])))
    && exists front: string, back: string :: s == front + t + back && AllSpace(front) && AllSpace(back)
  }

  lemma {:induction false} TrimStartTrims(s: string) returns (front: string)
    ensures s == front + TrimStart(s) && AllSpace(front) && (TrimStart(s) == [] || !IsSpace(TrimStart(s)[0]))
    decreases |s|
  {
    hide IsSpace;
    if |s| > 0 && IsSpace(s[0]) {
      var rest := TrimStartTrims(s[1..]);
      front := [s[0]] + rest;
      assert s == [s[0]] + s[1..];
    } else {
      front := [];
    }
  }

  lemma {:induction false} TrimEndTrims(s: string) returns (back: string)
    ensures s == TrimEnd(s) + back && AllSpace(back) && (TrimEnd(s) == [] || !IsSpace(TrimEnd(s)[|TrimEnd(s)| - 1]))
    ensures TrimEnd(s) <= s
    decreases |s|
  {
    hide IsSpace;
    if |s| > 0 && IsSpace(s[|s| - 1]) {
      var rest := TrimEndTrims(s[..|s| - 1]);
      back := rest + [s[|s| - 1]];
      assert s == s[..|s| - 1] + [s[|s| - 1]];
    } else {
      back := [];
    }
  }

  lemma TrimTrims(s: string)
    ensures Trimmed(s, Trim(s))
  {
    hide TrimStart, TrimEnd, AllSpace, IsSpace;
    var front := TrimStartTrims(s);
    var back := TrimEndTrims(TrimStart(s));
    assert s == front + Trim(s) + back;
  }

  /** The chosen entries are those at the places `at`, in order, trimmed; every entry left out is blank. */
  ghost predicate Chosen(entries: seq<string>, at: seq<nat>, chosen: seq<string>) {
    && |at| == |chosen|
    && (forall k :: 0 <= k < |at| ==> at[k] < |entries| && chosen[k] != [] && Trimmed(entries[at[k]], chosen[k]))
    && (forall k, l :: 0 <= k < l < |at| ==> at[k] < at[l])
    && (forall i :: 0 <= i < |entries| && i !in at ==> Trimmed(entries[i], []))
  }

  /** One more entry in front: the chosen ones move up by one. */
  lemma ChosenBehind(first: string, entries: seq<string>, at: seq<nat>, chosen: seq<string>) returns (moved: seq<nat>)
    requires Chosen(entries, at, chosen)
    ensures |moved| == |at| && forall k :: 0 <= k < |at| ==> moved[k] == at[k] + 1
    ensures forall k :: 0 <= k < |at| ==> chosen[k] != [] && moved[k] < |[first] + entries| && Trimmed(([first] + entries)[moved[k]], chosen[k])
    ensures forall k, l :: 0 <= k < l < |at| ==> moved[k] < moved[l]
    ensures forall i :: 0 < i < |[first] + entries| && i !in moved ==> Trimmed(([first] + entries)[i], [])
  {
    hide Trimmed;
    moved := seq(|at|, k requires 0 <= k < |at| => at[k] + 1);
    forall i | 0 < i < |[first] + entries| && i - 1 in at ensures i in moved {
      var k :| 0 <= k < |at| && at[k] == i - 1;
      assert moved[k] == i;
    }
    forall k | 0 <= k < |at| ensures ([first] + entries)[moved[k]] == entries[at[k]] { }
  }

  lemma ChosenFirst(first: string, entries: seq<string>, at: seq<nat>, chosen: seq<string>) returns (all: seq<nat>)
    requires Chosen(entries, at, chosen)
    ensures Chosen([first] + entries, all, (if Trim(first) != [] then [Trim(first)] else []) + chosen)
  {
    hide Trim, Trimmed;
    TrimTrims(first);
    var moved := ChosenBehind(first, entries, at, chosen);
    hide Chosen;
    all := (if Trim(first) != [] then [0] else []) + moved;
    assert Chosen([first] + entries, all, (if Trim(first) != [] then [Trim(first)] else []) + chosen) by {
      PutFirst([first] + entries, Trim(first), moved, chosen);
    }
  }

  lemma PutFirst(entries: seq<string>, first: string, at: seq<nat>, chosen: seq<string>)
    requires |entries| > 0 && Trimmed(entries[0], first) && |at| == |chosen|
    requires forall k :: 0 <= k < |at| ==> 0 < at[k] < |entries| && chosen[k] != [] && Trimmed(entries[at[k]], chosen[k])
    requires forall k, l :: 0 <= k < l < |at| ==> at[k] < at[l]
    requires forall i :: 0 < i < |entries| && i !in at ==> Trimmed(entries[i], [])
    ensures Chosen(entries, (if first != [] then [0] else []) + at, (if first != [] then [first] else []) + chosen)
  {
    hide Trimmed;
    var all := (if first != [] then [0] else []) + at;
    forall i | 0 <= i < |entries| && i !in all ensures Trimmed(entries[i], []) {
      assert i == 0 ==> first == [];
      assert i !in at;
    }
  }

  lemma {:induction false} NonEmptyChosen(entries: seq<string>) returns (at: seq<nat>)
    ensures Chosen(entries, at, NonEmptyTrimmed(entries))
    decreases |entries|
  {
    if entries == [] {
      at := [];
    } else {
      hide Trim, Chosen;
      var rest := NonEmptyChosen(entries[1..]);
      at := ChosenFirst(entries[0], entries[1..], rest, NonEmptyTrimmed(entries[1..]));
      assert [entries[0]] + entries[1..] == entries;
    }
  }

  /** `listed` are the entries of a separated list, in order, trimmed, the blank ones left out. */
  ghost predicate Lists(text: string, separator: char, listed: seq<string>) {
    exists entries: seq<string>, at: seq<nat> ::
      && |entries| > 0 && Lines.Join(entries, separator) == text
      && (forall i :: 0 <= i < |entries| ==> separator !in entries[i])
      && Chosen(entries, at, listed)
  }

  /** The directories are the entries of PATH, separated as the platform does; the extensions those of PATHEXT or its default. */
  lemma SearchedPlaces(o: Options)
    ensures Lists(o.pathValue, if o.windows then ';' else ':', Directories(o))
    ensures Lists(if o.pathExt.Some? && o.pathExt.value != [] then o.pathExt.value else ".COM;.EXE;.BAT;.CMD", ';', Extensions(o))
  {
    hide Lines.Split, NonEmptyTrimmed, Chosen;
    Listed(o.pathValue, if o.windows then ';' else ':');
    Listed(if o.pathExt.Some? && o.pathExt.value != [] then o.pathExt.value else ".COM;.EXE;.BAT;.CMD", ';');
  }

  lemma Listed(text: string, separator: char)
    ensures Lists(text, separator, NonEmptyTrimmed(Lines.Split(text, separator)))
  {
    hide NonEmptyTrimmed, Chosen;
    Lines.SplitThenJoin(text, separator);
    var at := NonEmptyChosen(Lines.Split(text, separator));
    hide Lines.Split, Lines.Join;
  }

  /** What is looked for in a directory: on Windows one file per listed extension that can be run and then the bare name, elsewhere the bare name. */
  lemma SearchedNames(o: Options, directory: string, j: nat)
    requires j < Slots(o)
    ensures var bare := o.world.join(directory, o.binaryName);
      if !o.windows then Slots(o) == 1 && Candidate(o, directory, j) == Some(Executable(bare, Native))
      else if j == Slots(o) - 1 then Candidate(o, directory, j) == Some(Executable(bare, Shim))
      else
        && j < |Extensions(o)|
        && var extension := o.world.lower(Extensions(o)[j]);
           Candidate(o, directory, j) ==
           if extension == ".exe" || extension == ".com" then Some(Executable(o.world.join(directory, o.binaryName + extension), Native))
           else if extension == ".cmd" || extension == ".bat" then Some(Executable(o.world.join(directory, o.binaryName + extension), Shim))
           else None
  {
    hide NonEmptyTrimmed, Lines.Split;
  }
}
