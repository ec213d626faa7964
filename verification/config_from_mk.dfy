// The build tool that turns the `libbcc_NAME := 0|1` lines of a makefile
// fragment into `#define NAME 0|1` lines of a configuration header.

module ConfigFromMk {
  import opened Common

  /** The characters Python's `str.strip` and the pattern's `\s` treat as
    * white space: space, tab, line feed, vertical tab, form feed and
    * carriage return. */
  predicate IsSpace(c: char)
  {
    c == ' ' || c == '\t' || c == '\n' || c == '\r' || c as int == 11 || c as int == 12
  }

  predicate IsNameChar(c: char)
  {
    ('A' <= c <= 'Z') || c == '_'
  }

  function TrimLeft(s: seq<char>): (r: seq<char>)
    ensures |r| <= |s| && r == s[|s| - |r|..]
    ensures |r| > 0 ==> !IsSpace(r[0])
    ensures forall i :: 0 <= i < |s| - |r| ==> IsSpace(s[i])
  {
    if |s| > 0 && IsSpace(s[0]) then TrimLeft(s[1..]) else s
  }

  function TrimRight(s: seq<char>): (r: seq<char>)
    ensures |r| <= |s| && r == s[..|r|]
    ensures |r| > 0 ==> !IsSpace(r[|r| - 1])
    ensures forall i :: |r| <= i < |s| ==> IsSpace(s[i])
  {
    if |s| > 0 && IsSpace(s[|s| - 1]) then TrimRight(s[..|s| - 1]) else s
  }

  /** `line.strip()`: the line without leading and trailing white space. */
  function Strip(s: seq<char>): (r: seq<char>)
  {
    TrimRight(TrimLeft(s))
  }

  /** A stripped line has nothing left to strip. */
  lemma StripIdempotent(s: seq<char>)
    ensures Strip(Strip(s)) == Strip(s)
  {
    var t := Strip(s);
    if |t| > 0 {
      assert TrimLeft(t) == t;
    }
  }

  /** A line that starts and ends with a visible character is left as it
    * is. */
  lemma StripUnchanged(s: seq<char>)
    requires |s| > 0 && !IsSpace(s[0]) && !IsSpace(s[|s| - 1])
    ensures Strip(s) == s
  {
    assert TrimLeft(s) == s;
  }

  /** The first position at or after `i` whose character is not white
    * space (`\s*`). */
  function SkipSpaces(s: seq<char>, i: nat): (j: nat)
    requires i <= |s|
    ensures i <= j <= |s| && (j < |s| ==> !IsSpace(s[j]))
    ensures forall k :: i <= k < j ==> IsSpace(s[k])
    decreases |s| - i
  {
    if i < |s| && IsSpace(s[i]) then SkipSpaces(s, i + 1) else i
  }

  /** The end of the run of name characters starting at `i` (`[A-Z_]*`,
    * matched greedily). */
  function NameEnd(s: seq<char>, i: nat): (j: nat)
    requires i <= |s|
    ensures i <= j <= |s| && (j < |s| ==> !IsNameChar(s[j]))
    ensures forall k :: i <= k < j ==> IsNameChar(s[k])
    decreases |s| - i
  {
    if i < |s| && IsNameChar(s[i]) then NameEnd(s, i + 1) else i
  }

  const Prefix: seq<char> := "libbcc_"

  /** `re.match('libbcc_([A-Z_]+)\s*:=\s*([01])', line)`: anchored at the
    * start of the line but not at its end.  No backtracking is needed: the
    * name run is followed by white space or ':', neither a name
    * character. */
  function MatchConfig(line: seq<char>): (r: Option<(seq<char>, char)>)
    ensures r.Some? ==>
      Prefix + r.value.0 <= line && |r.value.0| > 0 &&
      (forall k :: 0 <= k < |r.value.0| ==> IsNameChar(r.value.0[k])) &&
      (r.value.1 == '0' || r.value.1 == '1')
  {
    if !(Prefix <= line) then None
    else
      var e := NameEnd(line, |Prefix|);
      if e == |Prefix| then None
      else
        var j := SkipSpaces(line, e);
        if j + 2 <= |line| && line[j..j + 2] == ":=" then
          var k := SkipSpaces(line, j + 2);
          if k < |line| && (line[k] == '0' || line[k] == '1') then
            assert line[..e] == Prefix + line[|Prefix|..e];
            Some((line[|Prefix|..e], line[k]))
          else None
        else None
  }

  lemma {:induction false} NameEndOver(s: seq<char>, i: nat, n: nat)
    requires i + n <= |s|
    requires forall k :: i <= k < i + n ==> IsNameChar(s[k])
    requires i + n < |s| ==> !IsNameChar(s[i + n])
    ensures NameEnd(s, i) == i + n
    decreases n
  {
    if n > 0 {
      NameEndOver(s, i + 1, n - 1);
    }
  }

  lemma {:induction false} SkipSpacesOver(s: seq<char>, i: nat, n: nat)
    requires i + n <= |s|
    requires forall k :: i <= k < i + n ==> IsSpace(s[k])
    requires i + n < |s| ==> !IsSpace(s[i + n])
    ensures SkipSpaces(s, i) == i + n
    decreases n
  {
    if n > 0 {
      SkipSpacesOver(s, i + 1, n - 1);
    }
  }

  predicate AllSpaces(s: seq<char>)
  {
    forall k :: 0 <= k < |s| ==> IsSpace(s[k])
  }

  /** The match succeeds once each of its parts is found in place. */
  lemma MatchConfigAt(line: seq<char>, e: nat, j: nat, k: nat)
    requires Prefix <= line && |Prefix| < e <= |line| && NameEnd(line, |Prefix|) == e
    requires j + 2 <= |line| && SkipSpaces(line, e) == j && line[j..j + 2] == ":="
    requires SkipSpaces(line, j + 2) == k && k < |line| && (line[k] == '0' || line[k] == '1')
    ensures MatchConfig(line) == Some((line[|Prefix|..e], line[k]))
  {
  }

  /** A line as the makefile fragment writes a setting. */
  function WrittenLine(name: seq<char>, before: seq<char>, after: seq<char>, v: char,
                       rest: seq<char>): seq<char>
  {
    Prefix + name + before + ":=" + after + [v] + rest
  }

  lemma WrittenLineName(name: seq<char>, before: seq<char>, after: seq<char>, v: char, rest: seq<char>)
    requires |name| > 0 && forall k :: 0 <= k < |name| ==> IsNameChar(name[k])
    requires AllSpaces(before)
    ensures var line := WrittenLine(name, before, after, v, rest);
      Prefix <= line && line[|Prefix|..|Prefix| + |name|] == name &&
      NameEnd(line, |Prefix|) == |Prefix| + |name|
  {
    var line := WrittenLine(name, before, after, v, rest);
    assert line[..|Prefix|] == Prefix;
    assert line[|Prefix|..|Prefix| + |name|] == name;
    NameEndOver(line, |Prefix|, |name|);
  }

  lemma WrittenLineAssign(name: seq<char>, before: seq<char>, after: seq<char>, v: char, rest: seq<char>)
    requires AllSpaces(before)
    ensures var line := WrittenLine(name, before, after, v, rest);
      var j := |Prefix| + |name| + |before|;
      j + 2 <= |line| && SkipSpaces(line, |Prefix| + |name|) == j && line[j..j + 2] == ":="
  {
    var line := WrittenLine(name, before, after, v, rest);
    var e := |Prefix| + |name|;
    assert line[e..e + |before|] == before;
    SkipSpacesOver(line, e, |before|);
    assert line[e + |before|..e + |before| + 2] == ":=";
  }

  lemma WrittenLineValue(name: seq<char>, before: seq<char>, after: seq<char>, v: char, rest: seq<char>)
    requires AllSpaces(after) && (v == '0' || v == '1')
    ensures var line := WrittenLine(name, before, after, v, rest);
      var j := |Prefix| + |name| + |before|;
      var k := j + 2 + |after|;
      k < |line| && SkipSpaces(line, j + 2) == k && line[k] == v
  {
    var line := WrittenLine(name, before, after, v, rest);
    var j := |Prefix| + |name| + |before|;
    assert line[j + 2..j + 2 + |after|] == after;
    SkipSpacesOver(line, j + 2, |after|);
  }

  /** Every line written as the makefile fragment writes it is recognised,
    * with its name and value, whatever spacing surrounds ":=" and whatever
    * follows the value. */
  lemma MatchesWrittenLine(name: seq<char>, before: seq<char>, after: seq<char>, v: char,
                           rest: seq<char>)
    requires |name| > 0 && forall k :: 0 <= k < |name| ==> IsNameChar(name[k])
    requires AllSpaces(before) && AllSpaces(after)
    requires v == '0' || v == '1'
    ensures MatchConfig(WrittenLine(name, before, after, v, rest)) == Some((name, v))
  {
    var line := WrittenLine(name, before, after, v, rest);
    var e := |Prefix| + |name|;
    var j := e + |before|;
    WrittenLineName(name, before, after, v, rest);
    WrittenLineAssign(name, before, after, v, rest);
    WrittenLineValue(name, before, after, v, rest);
    MatchConfigAt(line, e, j, j + 2 + |after|);
  }

  /** The header line for one setting, as `print '#define', name, value`
    * writes it (without the line break). */
  function DefineLine(name: seq<char>, v: char): seq<char>
  {
    "#define " + name + " " + [v]
  }

  /** The output lines of each input line in turn, one after the other. */
  function Collect(lines: seq<seq<char>>, out: seq<char> -> seq<seq<char>>): seq<seq<char>>
  {
    if |lines| == 0 then []
    else Collect(lines[..|lines| - 1], out) + out(lines[|lines| - 1])
  }

  lemma {:induction false} CollectAppend(a: seq<seq<char>>, b: seq<seq<char>>,
                                         out: seq<char> -> seq<seq<char>>)
    ensures Collect(a + b, out) == Collect(a, out) + Collect(b, out)
    decreases |b|
  {
    if |b| == 0 {
      assert a + b == a;
    } else {
      assert (a + b)[..|a + b| - 1] == a + b[..|b| - 1];
      CollectAppend(a, b[..|b| - 1], out);
    }
  }

  lemma {:induction false} CollectLength(lines: seq<seq<char>>, out: seq<char> -> seq<seq<char>>)
    requires forall line :: |out(line)| <= 1
    ensures |Collect(lines, out)| <= |lines|
    decreases |lines|
  {
    if |lines| > 0 {
      CollectLength(lines[..|lines| - 1], out);
    }
  }

  /** The header lines for the input lines, in order: one for each line
    * that matches once stripped. */
  function ConfigLines(lines: seq<seq<char>>): (out: seq<seq<char>>)
    ensures |out| <= |lines|
  {
    CollectLength(lines, LineOutput);
    Collect(lines, LineOutput)
  }

  /** What one input line contributes: its `#define` when it matches once
    * stripped, nothing otherwise. */
  function LineOutput(line: seq<char>): (out: seq<seq<char>>)
    ensures |out| <= 1
  {
    var m := MatchConfig(Strip(line));
    if m.Some? then [DefineLine(m.value.0, m.value.1)] else []
  }

  lemma ConfigLinesStep(lines: seq<seq<char>>, i: nat)
    requires i < |lines|
    ensures ConfigLines(lines[..i + 1]) == ConfigLines(lines[..i]) + LineOutput(lines[i])
  {
    assert lines[..i + 1][..i] == lines[..i];
  }

  /** `extract_config`: the loop over the input lines. */
  method ExtractConfig(lines: seq<seq<char>>) returns (out: seq<seq<char>>)
    ensures out == ConfigLines(lines)
  {
    out := [];
    var i := 0;
    while i < |lines|
      invariant 0 <= i <= |lines|
      invariant out == ConfigLines(lines[..i])
    {
      ConfigLinesStep(lines, i);
      out := out + LineOutput(lines[i]);
      i := i + 1;
    }
    assert lines[..i] == lines;
  }

  /** The output of two pieces of input is the output of each, one after
    * the other. */
  lemma ConfigLinesAppend(a: seq<seq<char>>, b: seq<seq<char>>)
    ensures ConfigLines(a + b) == ConfigLines(a) + ConfigLines(b)
  {
    CollectAppend(a, b, LineOutput);
  }

  /** One setting line, however indented, gives its `#define`. */
  lemma SettingLineDefines(name: seq<char>, v: char)
    requires |name| > 0 && forall k :: 0 <= k < |name| ==> IsNameChar(name[k])
    requires v == '0' || v == '1'
    ensures ConfigLines([Prefix + name + " := " + [v]]) == [DefineLine(name, v)]
  {
    var line := Prefix + name + " := " + [v];
    assert line == WrittenLine(name, " ", " ", v, []);
    MatchesWrittenLine(name, " ", " ", v, []);
    assert line[0] == 'l' && line[|line| - 1] == v;
    StripUnchanged(line);
    assert LineOutput(line) == [DefineLine(name, v)];
    var single: seq<seq<char>> := [line];
    assert single[..0] == [];
  }

  /** `main`: any argument is a usage error with exit status 1 and no
    * output; otherwise standard input is converted. */
  method ToolMain(argv: seq<seq<char>>, stdin: seq<seq<char>>) returns (exitCode: int, stdout: seq<seq<char>>)
    requires |argv| >= 1
    ensures |argv| != 1 ==> exitCode == 1 && stdout == []
    ensures |argv| == 1 ==> exitCode == 0 && stdout == ConfigLines(stdin)
  {
    if |argv| != 1 {
      return 1, [];
    }
    stdout := ExtractConfig(stdin);
    exitCode := 0;
  }
}
