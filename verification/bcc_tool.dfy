// The `bcc` command-line driver: it parses its options into three globals
// (input file, output file, run flag), loads and compiles the input with
// the output path split into a directory and a file name, optionally runs
// the script's entry point, and reports the outcome as its exit status.
// Whether a path names a regular file, the library's read and prepare
// steps and the symbol lookup are parameters.

module BccTool {
  import opened Common
  import opened CStrings

  datatype Action = SetTriple | SetOutput | Run | Help

  /** An entry of the option table: the option's name (after '-'), the
    * least number of arguments that must follow it, and what it does. */
  datatype OptionInfo = OptionInfo(name: seq<char>, minArgc: nat, action: Action)

  /** The option table; "-C" (the target triple) exists only in host
    * builds. */
  function Options(host: bool): (t: seq<OptionInfo>)
    ensures forall k :: 0 <= k < |t| ==> CString(t[k].name)
  {
    (if host then [OptionInfo("C", 1, SetTriple)] else []) +
    [OptionInfo("o", 1, SetOutput), OptionInfo("R", 0, Run), OptionInfo("h", 0, Help)]
  }

  /** The first table entry with the name, or the table's length when none
    * has it. */
  function FindOption(table: seq<OptionInfo>, name: seq<char>): (k: nat)
    ensures k <= |table|
    ensures k < |table| ==> table[k].name == name
    ensures forall j :: 0 <= j < k ==> table[j].name != name
  {
    if |table| == 0 then 0
    else if table[0].name == name then 0
    else 1 + FindOption(table[1..], name)
  }

  /** The option lookup loop: entries are compared by `strcmp`. */
  method LookupOption(table: seq<OptionInfo>, name: seq<char>) returns (idx: nat)
    requires CString(name) && forall k :: 0 <= k < |table| ==> CString(table[k].name)
    ensures idx == FindOption(table, name)
  {
    idx := 0;
    while idx < |table|
      invariant 0 <= idx <= |table|
      invariant forall j :: 0 <= j < idx ==> table[j].name != name
      invariant idx <= FindOption(table, name)
    {
      StrCmpZero(name, table[idx].name);
      if StrCmp(name, table[idx].name) == 0 {
        FindOptionAt(table, name, idx);
        return;
      }
      idx := idx + 1;
    }
    FindOptionAt(table, name, idx);
  }

  /** `FindOption` is the first index whose entry has the name. */
  lemma {:induction false} FindOptionAt(table: seq<OptionInfo>, name: seq<char>, k: nat)
    requires k <= |table| && forall j :: 0 <= j < k ==> table[j].name != name
    requires k < |table| ==> table[k].name == name
    ensures FindOption(table, name) == k
    decreases k
  {
    if k > 0 {
      FindOptionAt(table[1..], name, k - 1);
    }
  }

  /** The position of the last occurrence of `c` (`strrchr`). */
  function LastIndexOf(s: seq<char>, c: char): (r: Option<nat>)
    ensures r.None? ==> forall j :: 0 <= j < |s| ==> s[j] != c
    ensures r.Some? ==>
      r.value < |s| && s[r.value] == c && forall j :: r.value < j < |s| ==> s[j] != c
  {
    if |s| == 0 then None
    else if s[|s| - 1] == c then Some(|s| - 1)
    else LastIndexOf(s[..|s| - 1], c)
  }

  /** The globals the options set. */
  datatype Settings = Settings(inFile: Option<seq<char>>, outFile: Option<seq<char>>,
                               runResults: bool, triple: Option<seq<char>>)

  const Initial: Settings := Settings(None, None, false, None)

  datatype ParseStatus = Parsed | ParseError | HelpExit

  /** What handling one argument does: go on at the next unprocessed
    * argument, or stop with a status. */
  datatype Progress = Continue(next: nat, st: Settings) | Stop(status: ParseStatus, st: Settings)

  /** A value `do_set_output` refuses: its last '/' is its last
    * character. */
  predicate EndsWithSlash(s: seq<char>)
  {
    var k := LastIndexOf(s, '/');
    k.Some? && k.value + 1 == |s|
  }

  /** One round of the argument loop at argument `i`: an argument starting
    * with '-' names an option, which needs enough arguments after it ("-C"
    * records the argument it is handed first, which is "-C" itself, and
    * skips the next one); an
    * unknown option, a refused output path or a second input file is an
    * error; "-h" prints the help and exits.  The first non-option argument
    * is the input file when it is a regular file; when it is not, it is
    * skipped with the input still unset. */
  function Step(argv: seq<seq<char>>, i: nat, st: Settings, host: bool,
                isRegularFile: seq<char> -> bool): (p: Progress)
    requires 1 <= i < |argv|
    ensures p.Continue? ==> i < p.next <= |argv|
  {
    var arg := argv[i];
    var left := |argv| - i - 1;
    if |arg| > 0 && arg[0] == '-' then
      var table := Options(host);
      var k := FindOption(table, arg[1..]);
      if k == |table| then Stop(ParseError, st)
      else if left < table[k].minArgc then Stop(ParseError, st)
      else match table[k].action
        case SetTriple => Continue(i + 2, st.(triple := Some(argv[i])))
        case SetOutput =>
          if EndsWithSlash(argv[i + 1]) then Stop(ParseError, st)
          else Continue(i + 2, st.(outFile := Some(argv[i + 1])))
        case Run => Continue(i + 1, st.(runResults := true))
        case Help => Stop(HelpExit, st)
    else if st.inFile.None? then
      Continue(i + 1, if isRegularFile(arg) then st.(inFile := Some(arg)) else st)
    else Stop(ParseError, st)
  }

  /** The argument loop from argument `i` on. */
  function ParseFrom(argv: seq<seq<char>>, i: nat, st: Settings, host: bool,
                     isRegularFile: seq<char> -> bool): (ParseStatus, Settings)
    requires 1 <= i <= |argv|
    decreases |argv| - i
  {
    if i == |argv| then (Parsed, st)
    else match Step(argv, i, st, host, isRegularFile)
      case Continue(j, st') => ParseFrom(argv, j, st', host, isRegularFile)
      case Stop(s, st') => (s, st')
  }

  /** `parseOption` from the initial globals: without arguments the help is
    * printed and the tool exits. */
  function ParseOptions(argv: seq<seq<char>>, host: bool, isRegularFile: seq<char> -> bool)
    : (ParseStatus, Settings)
  {
    if |argv| <= 1 then (HelpExit, Initial) else ParseFrom(argv, 1, Initial, host, isRegularFile)
  }

  /** The driver's globals. */
  class Tool {
    var inFile: Option<seq<char>>
    var outFile: Option<seq<char>>
    var runResults: bool
    var triple: Option<seq<char>>

    constructor ()
      ensures Current() == Initial
    {
      inFile := None;
      outFile := None;
      runResults := false;
      triple := None;
    }

    function Current(): Settings
      reads this
    {
      Settings(inFile, outFile, runResults, triple)
    }

    /** `do_set_output`: a path ending in '/' is refused (−1); otherwise it
      * becomes the output file and one argument is consumed. */
    method DoSetOutput(value: seq<char>) returns (r: int)
      modifies this
      ensures EndsWithSlash(value) ==> r == -1 && Current() == old(Current())
      ensures !EndsWithSlash(value) ==> r == 1 && Current() == old(Current()).(outFile := Some(value))
    {
      var lastSlash := LastIndexOf(value, '/');
      if lastSlash.Some? && lastSlash.value + 1 == |value| {
        return -1;
      }
      outFile := Some(value);
      return 1;
    }

    /** `do_set_input`: a path that is not a regular file is refused (−1)
      * and the input stays unset; otherwise it becomes the input. */
    method DoSetInput(value: seq<char>, isRegularFile: seq<char> -> bool) returns (r: int)
      modifies this
      ensures !isRegularFile(value) ==> r == -1 && Current() == old(Current())
      ensures isRegularFile(value) ==> r == 0 && Current() == old(Current()).(inFile := Some(value))
    {
      if !isRegularFile(value) {
        return -1;
      }
      inFile := Some(value);
      return 0;
    }

    /** `parseOption`: the loop over the arguments with index `i`; the
      * result of `do_set_input` is not looked at. */
    method ParseOption(argv: seq<seq<char>>, host: bool, isRegularFile: seq<char> -> bool)
      returns (status: ParseStatus)
      requires forall k :: 0 <= k < |argv| ==> CString(argv[k])
      modifies this
      ensures |argv| <= 1 ==> status == HelpExit && Current() == old(Current())
      ensures |argv| > 1 ==>
        (status, Current()) == ParseFrom(argv, 1, old(Current()), host, isRegularFile)
    {
      if |argv| <= 1 {
        return HelpExit;
      }
      var i := 1;
      while i < |argv|
        invariant 1 <= i <= |argv|
        invariant ParseFrom(argv, i, Current(), host, isRegularFile) ==
          ParseFrom(argv, 1, old(Current()), host, isRegularFile)
        decreases |argv| - i
      {
        var arg := argv[i];
        var left := |argv| - i - 1;
        ghost var step := Step(argv, i, Current(), host, isRegularFile);
        if |arg| > 0 && arg[0] == '-' {
          var table := Options(host);
          var optIdx := LookupOption(table, arg[1..]);
          if optIdx == |table| {
            assert step == Stop(ParseError, Current());
            return ParseError;
          }
          var opt := table[optIdx];
          if left < opt.minArgc {
            assert step == Stop(ParseError, Current());
            return ParseError;
          }
          match opt.action {
            case SetTriple =>
              triple := Some(argv[i]);
              i := i + 1;
            case SetOutput =>
              var result := DoSetOutput(argv[i + 1]);
              if result < 0 {
                assert step == Stop(ParseError, Current());
                return ParseError;
              }
              i := i + result;
            case Run =>
              runResults := true;
            case Help =>
              assert step == Stop(HelpExit, Current());
              return HelpExit;
          }
        } else {
          if inFile.None? {
            var ignored := DoSetInput(arg, isRegularFile);
          } else {
            assert step == Stop(ParseError, Current());
            return ParseError;
          }
        }
        i := i + 1;
        assert step == Continue(i, Current());
      }
      status := Parsed;
    }
  }

  /** The default output name. */
  const DefaultOutput: seq<char> := "a.out"

  /** The path the output is written to: the "-o" value or "a.out". */
  function OutputPath(st: Settings): seq<char>
  {
    if st.outFile.Some? then st.outFile.value else DefaultOutput
  }

  /** The output path split at its last '/' into directory and file name;
    * without a '/', the directory is ".". */
  function SplitOutput(path: seq<char>): (seq<char>, seq<char>)
  {
    var k := LastIndexOf(path, '/');
    if k.None? then (".", path) else (path[..k.value], path[k.value + 1..])
  }

  /** The split loses nothing: directory, '/' and file name give the path
    * back, and the file name holds no '/'; a path the "-o" check accepts
    * that has a '/' leaves a non-empty file name. */
  lemma SplitOutputRejoins(path: seq<char>)
    ensures var (dir, file) := SplitOutput(path);
      (forall j :: 0 <= j < |file| ==> file[j] != '/') &&
      (LastIndexOf(path, '/').Some? ==> dir + "/" + file == path) &&
      (LastIndexOf(path, '/').None? ==> dir == "." && file == path) &&
      (LastIndexOf(path, '/').Some? && !EndsWithSlash(path) ==> |file| > 0)
  {
    var k := LastIndexOf(path, '/');
    if k.Some? {
      assert path == path[..k.value] + "/" + path[k.value + 1..];
    }
  }

  /** The output buffer as `loadScript` fills it: `strncpy` with the
    * string's length copies its characters but no terminator into a buffer
    * one longer, whose last character is whatever the allocation held. */
  function OutputBufferAsWritten(path: seq<char>, uninitialized: char): seq<char>
  {
    path + [uninitialized]
  }

  /** When that character is not NUL the buffer holds no terminator at all,
    * so `strrchr` on it reads past its end; "a.out" is such a case. */
  lemma OutputBufferUnterminated(uninitialized: char)
    requires uninitialized != '\0'
    ensures CString(OutputBufferAsWritten(DefaultOutput, uninitialized))
    ensures |OutputBufferAsWritten(DefaultOutput, uninitialized)| == |DefaultOutput| + 1
  {
  }

  /** The buffer with its terminator copied too (length + 1 characters). */
  function OutputBuffer(path: seq<char>): (b: seq<char>)
    requires CString(path)
    ensures |b| == |path| + 1 && b[|path|] == '\0' && UpToNul(b) == path
  {
    UpToNulTerminated(path, []);
    assert path + ['\0'] + [] == path + ['\0'];
    path + ['\0']
  }

  /** `loadScript`'s split: the path is copied into a buffer, the last '/'
    * is overwritten with a terminator, and the directory and file name are
    * the strings before and after it. */
  method SplitOutputPath(st: Settings) returns (outDir: seq<char>, outFilename: seq<char>)
    requires st.outFile.Some? ==> CString(st.outFile.value)
    ensures (outDir, outFilename) == SplitOutput(OutputPath(st))
  {
    var path := OutputPath(st);
    var output := CopyPath(path);
    var j := StrRChrSlash(output, |path|);
    LastSlashFound(path, j);
    if j > 0 {
      var slash := j - 1;
      output[slash] := '\0';
      CutAtSlash(path, slash, output[..]);
      outDir := UpToNul(output[..]);
      outFilename := UpToNul(output[slash + 1..]);
    } else {
      outDir := ".";
      outFilename := UpToNul(output[..]);
    }
  }

  /** The copy into a new buffer, terminator included. */
  method CopyPath(path: seq<char>) returns (output: array<char>)
    requires CString(path)
    ensures fresh(output) && output[..] == OutputBuffer(path)
  {
    output := new char[|path| + 1];
    var i := 0;
    while i < |path|
      invariant 0 <= i <= |path|
      invariant output[..i] == path[..i]
    {
      output[i] := path[i];
      i := i + 1;
    }
    output[|path|] := '\0';
  }

  /** `strrchr(output, '/')` on a buffer holding `len` characters before
    * its terminator: one past the last '/', or 0 when there is none. */
  method StrRChrSlash(output: array<char>, len: nat) returns (j: nat)
    requires len < output.Length
    ensures j <= len && forall m :: j <= m < len ==> output[m] != '/'
    ensures j > 0 ==> output[j - 1] == '/'
  {
    j := len;
    while j > 0 && output[j - 1] != '/'
      invariant 0 <= j <= len
      invariant forall m :: j <= m < len ==> output[m] != '/'
    {
      j := j - 1;
    }
  }

  /** Overwriting the slash at `slash` leaves the directory, then the file
    * name, each terminated. */
  lemma CutAtSlash(path: seq<char>, slash: nat, buffer: seq<char>)
    requires CString(path) && slash < |path|
    requires buffer == OutputBuffer(path)[slash := '\0']
    ensures UpToNul(buffer) == path[..slash]
    ensures UpToNul(buffer[slash + 1..]) == path[slash + 1..]
  {
    assert buffer == path[..slash] + ['\0'] + (path[slash + 1..] + ['\0']);
    UpToNulTerminated(path[..slash], path[slash + 1..] + ['\0']);
    assert buffer[slash + 1..] == path[slash + 1..] + ['\0'] + [];
    UpToNulTerminated(path[slash + 1..], []);
  }

  /** Scanning back to the first '/' from the end finds what `LastIndexOf`
    * names. */
  lemma LastSlashFound(path: seq<char>, j: nat)
    requires j <= |path| && forall m :: j <= m < |path| ==> path[m] != '/'
    requires j > 0 ==> path[j - 1] == '/'
    ensures j == 0 ==> LastIndexOf(path, '/').None?
    ensures j > 0 ==> LastIndexOf(path, '/') == Some(j - 1)
  {
  }

  /** `runMain` finds an entry point: "main", else "root", else the
    * mangled "_Z4rootv". */
  predicate EntryFound(hasFunction: seq<char> -> bool)
  {
    hasFunction("main") || hasFunction("root") || hasFunction("_Z4rootv")
  }

  /** `loadScript` returns a script: there is an input file, it is read,
    * and the executable is prepared under the split output path. */
  predicate Loads(st: Settings, readOk: seq<char> -> bool, prepareOk: (seq<char>, seq<char>) -> bool)
  {
    st.inFile.Some? && readOk(st.inFile.value) &&
    prepareOk(SplitOutput(OutputPath(st)).0, SplitOutput(OutputPath(st)).1)
  }

  /** `main`: 1 on an option error, 2 when the script does not load, 6 when
    * it is to be run and has no entry point, 0 otherwise; "-h" and a bare
    * invocation print the help and exit with 0. */
  method ToolMain(argv: seq<seq<char>>, host: bool, isRegularFile: seq<char> -> bool,
                  readOk: seq<char> -> bool, prepareOk: (seq<char>, seq<char>) -> bool,
                  hasFunction: seq<char> -> bool) returns (exitCode: int)
    requires forall k :: 0 <= k < |argv| ==> CString(argv[k])
    ensures exitCode == 0 || exitCode == 1 || exitCode == 2 || exitCode == 6
    ensures var (status, st) := ParseOptions(argv, host, isRegularFile);
      (exitCode == 1 <==> status == ParseError) &&
      (exitCode == 2 <==> status == Parsed && !Loads(st, readOk, prepareOk)) &&
      (exitCode == 6 <==> status == Parsed && Loads(st, readOk, prepareOk) && st.runResults &&
                          !EntryFound(hasFunction))
  {
    var tool := new Tool();
    var status := tool.ParseOption(argv, host, isRegularFile);
    if status == HelpExit {
      return 0;
    }
    if status == ParseError {
      return 1;
    }
    if tool.inFile.None? || !readOk(tool.inFile.value) {
      return 2;
    }
    assert tool.outFile.Some? ==> CString(tool.outFile.value) by {
      ParsedPathsFromArgv(argv, 1, Initial, host, isRegularFile);
    }
    var outDir, outFilename := SplitOutputPath(tool.Current());
    if !prepareOk(outDir, outFilename) {
      return 2;
    }
    if tool.runResults && !EntryFound(hasFunction) {
      return 6;
    }
    return 0;
  }

  /** Every path the parse records is one of the arguments. */
  lemma {:induction false} ParsedPathsFromArgv(argv: seq<seq<char>>, i: nat, st: Settings, host: bool,
                                               isRegularFile: seq<char> -> bool)
    requires 1 <= i <= |argv|
    requires forall k :: 0 <= k < |argv| ==> CString(argv[k])
    requires st.outFile.Some? ==> CString(st.outFile.value)
    ensures var st' := ParseFrom(argv, i, st, host, isRegularFile).1;
      st'.outFile.Some? ==> CString(st'.outFile.value)
    decreases |argv| - i
  {
    if i < |argv| {
      var p := Step(argv, i, st, host, isRegularFile);
      StepPaths(argv, i, st, host, isRegularFile);
      if p.Continue? {
        ParsedPathsFromArgv(argv, p.next, p.st, host, isRegularFile);
      }
    }
  }

  /** One round records only an argument as the output path. */
  lemma StepPaths(argv: seq<seq<char>>, i: nat, st: Settings, host: bool,
                  isRegularFile: seq<char> -> bool)
    requires 1 <= i < |argv|
    requires forall k :: 0 <= k < |argv| ==> CString(argv[k])
    requires st.outFile.Some? ==> CString(st.outFile.value)
    ensures var st' := Step(argv, i, st, host, isRegularFile).st;
      st'.outFile.Some? ==> CString(st'.outFile.value)
  {
  }

  /** A second input file is an error. */
  lemma SecondInputRejected(argv: seq<seq<char>>, i: nat, st: Settings, host: bool,
                            isRegularFile: seq<char> -> bool)
    requires 1 <= i < |argv| && st.inFile.Some?
    requires !(|argv[i]| > 0 && argv[i][0] == '-')
    ensures ParseFrom(argv, i, st, host, isRegularFile).0 == ParseError
  {
  }

  /** An option missing its argument, an unknown option and an output path
    * ending in '/' are errors. */
  lemma OptionErrors(argv: seq<seq<char>>, st: Settings, host: bool, isRegularFile: seq<char> -> bool)
    requires |argv| >= 2
    ensures argv[|argv| - 1] == "-o" ==>
      ParseFrom(argv, |argv| - 1, st, host, isRegularFile).0 == ParseError
    ensures argv[1] == "-x" ==> ParseFrom(argv, 1, st, host, isRegularFile).0 == ParseError
    ensures |argv| >= 3 && argv[1] == "-o" && EndsWithSlash(argv[2]) ==>
      ParseFrom(argv, 1, st, host, isRegularFile).0 == ParseError
  {
    var table := Options(host);
    if argv[|argv| - 1] == "-o" {
      assert argv[|argv| - 1][1..] == "o";
      FindOptionAt(table, "o", if host then 1 else 0);
    }
    if argv[1] == "-x" {
      assert argv[1][1..] == "x";
      FindOptionAt(table, "x", |table|);
    }
    if |argv| >= 3 && argv[1] == "-o" {
      assert argv[1][1..] == "o";
      FindOptionAt(table, "o", if host then 1 else 0);
    }
  }

  /** "-C" consumes the argument after it but records the option's own
    * text as the triple, leaving the triple it was given unused. */
  lemma TripleRecordsOptionText(triple: seq<char>, input: seq<char>, isRegularFile: seq<char> -> bool)
    requires isRegularFile(input) && !(|input| > 0 && input[0] == '-')
    ensures ParseOptions(["bcc", "-C", triple, input], true, isRegularFile) ==
      (Parsed, Settings(Some(input), None, false, Some("-C")))
  {
    var argv: seq<seq<char>> := ["bcc", "-C", triple, input];
    assert argv[1][1..] == "C";
    FindOptionAt(Options(true), "C", 0);
    var st1 := Initial.(triple := Some("-C"));
    assert Step(argv, 1, Initial, true, isRegularFile) == Continue(3, st1);
    var st2 := st1.(inFile := Some(input));
    assert Step(argv, 3, st1, true, isRegularFile) == Continue(4, st2);
    assert ParseFrom(argv, 3, st1, true, isRegularFile) == (Parsed, st2);
  }

  /** A typical command line, `bcc -o OUT -R IN`, sets all three globals
    * when IN is a regular file and OUT does not end in '/'. */
  lemma TypicalCommandLine(out: seq<char>, input: seq<char>, host: bool, isRegularFile: seq<char> -> bool)
    requires !EndsWithSlash(out) && isRegularFile(input)
    requires !(|input| > 0 && input[0] == '-')
    ensures ParseOptions(["bcc", "-o", out, "-R", input], host, isRegularFile) ==
      (Parsed, Settings(Some(input), Some(out), true, None))
  {
    var argv: seq<seq<char>> := ["bcc", "-o", out, "-R", input];
    var table := Options(host);
    assert argv[1][1..] == "o";
    FindOptionAt(table, "o", if host then 1 else 0);
    var st1 := Initial.(outFile := Some(out));
    assert Step(argv, 1, Initial, host, isRegularFile) == Continue(3, st1);
    assert argv[3][1..] == "R";
    FindOptionAt(table, "R", if host then 2 else 1);
    var st2 := st1.(runResults := true);
    assert Step(argv, 3, st1, host, isRegularFile) == Continue(4, st2);
    var st3 := st2.(inFile := Some(input));
    assert Step(argv, 4, st2, host, isRegularFile) == Continue(5, st3);
    assert ParseFrom(argv, 5, st3, host, isRegularFile) == (Parsed, st3);
    assert ParseFrom(argv, 4, st2, host, isRegularFile) == (Parsed, st3);
    assert ParseFrom(argv, 3, st1, host, isRegularFile) == (Parsed, st3);
    assert ParseFrom(argv, 1, Initial, host, isRegularFile) == (Parsed, st3);
  }
}
