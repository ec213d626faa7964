// Decimal text as C++ streams write unsigned integers: the digits without
// leading zeros.

module DecimalText {

  predicate IsDigit(c: char)
  {
    '0' <= c <= '9'
  }

  predicate AllDigits(s: seq<char>)
  {
    forall i :: 0 <= i < |s| ==> IsDigit(s[i])
  }

  function DigitChar(d: nat): (c: char)
    requires d < 10
    ensures IsDigit(c) && c as int - '0' as int == d
  {
    ('0' as int + d) as char
  }

  /** `n` written in decimal. */
  function Dec(n: nat): (s: seq<char>)
    ensures |s| > 0 && AllDigits(s)
    decreases n
  {
    if n < 10 then [DigitChar(n)] else Dec(n / 10) + [DigitChar(n % 10)]
  }

  /** The value of a string of decimal digits. */
  function DigitsValue(s: seq<char>): nat
    requires AllDigits(s)
  {
    if |s| == 0 then 0 else DigitsValue(s[..|s| - 1]) * 10 + (s[|s| - 1] as int - '0' as int)
  }

  /** Reading a written number back gives the number. */
  lemma {:induction false} DecValue(n: nat)
    ensures DigitsValue(Dec(n)) == n
    decreases n
  {
    if n >= 10 {
      DecValue(n / 10);
      var s := Dec(n);
      assert s[..|s| - 1] == Dec(n / 10);
    }
  }

  /** The end of the run of digits starting at `i`. */
  function DigitsEnd(s: seq<char>, i: nat): (j: nat)
    requires i <= |s|
    ensures i <= j <= |s| && (j < |s| ==> !IsDigit(s[j]))
    ensures forall k :: i <= k < j ==> IsDigit(s[k])
    decreases |s| - i
  {
    if i < |s| && IsDigit(s[i]) then DigitsEnd(s, i + 1) else i
  }

  lemma {:induction false} DigitsEndOver(s: seq<char>, i: nat, n: nat)
    requires i + n <= |s|
    requires forall k :: i <= k < i + n ==> IsDigit(s[k])
    requires i + n < |s| ==> !IsDigit(s[i + n])
    ensures DigitsEnd(s, i) == i + n
    decreases n
  {
    if n > 0 {
      DigitsEndOver(s, i + 1, n - 1);
    }
  }
}

// The text `getRSInfoString` embeds in a compiled script as the global
// ".rs.info": four sections, each a "name: count" line followed by that
// many entry lines.

module RSEmbedInfo {
  import opened Common
  import opened DecimalText

  const VarHeader: seq<char> := "exportVarCount: "
  const FuncHeader: seq<char> := "exportFuncCount: "
  const ForEachHeader: seq<char> := "exportForEachCount: "
  const SlotHeader: seq<char> := "objectSlotCount: "

  /** Lines as a stream writes them, each followed by "\n". */
  function Text(lines: seq<seq<char>>): seq<char>
  {
    if |lines| == 0 then [] else lines[0] + "\n" + Text(lines[1..])
  }

  lemma {:induction false} TextSnoc(lines: seq<seq<char>>, line: seq<char>)
    ensures Text(lines + [line]) == Text(lines) + line + "\n"
    decreases |lines|
  {
    if |lines| > 0 {
      assert (lines + [line])[1..] == lines[1..] + [line];
      TextSnoc(lines[1..], line);
    } else {
      assert lines + [line] == [line];
    }
  }

  /** The line of a foreach kernel: its signature, " - ", its name. */
  function ForEachLine(f: (seq<char>, nat)): seq<char>
  {
    Dec(f.1) + " - " + f.0
  }

  function ForEachLines(fs: seq<(seq<char>, nat)>): (r: seq<seq<char>>)
    ensures |r| == |fs| && forall i :: 0 <= i < |fs| ==> r[i] == ForEachLine(fs[i])
  {
    seq(|fs|, i requires 0 <= i < |fs| => ForEachLine(fs[i]))
  }

  function NumberLines(ns: seq<nat>): (r: seq<seq<char>>)
    ensures |r| == |ns| && forall i :: 0 <= i < |ns| ==> r[i] == Dec(ns[i])
  {
    seq(|ns|, i requires 0 <= i < |ns| => Dec(ns[i]))
  }

  /** The positions, ascending, of the non-zero object slot flags. */
  function NonZeroIndices(slots: seq<nat>): (r: seq<nat>)
    ensures |r| <= |slots|
    ensures forall k :: 0 <= k < |r| ==> r[k] < |slots| && slots[r[k]] != 0
    ensures forall k, l :: 0 <= k < l < |r| ==> r[k] < r[l]
    ensures forall i :: 0 <= i < |slots| && slots[i] != 0 ==> i in r
  {
    if |slots| == 0 then []
    else
      var front := NonZeroIndices(slots[..|slots| - 1]);
      if slots[|slots| - 1] != 0 then front + [|slots| - 1] else front
  }

  /** A section: its "name: count" line, then its entries. */
  function SectionLines(header: seq<char>, items: seq<seq<char>>): seq<seq<char>>
  {
    [header + Dec(|items|)] + items
  }

  /** The lines of the embedded text. */
  function InfoLines(vars: seq<seq<char>>, funcs: seq<seq<char>>, forEachs: seq<(seq<char>, nat)>,
                     slots: seq<nat>): seq<seq<char>>
  {
    SectionLines(VarHeader, vars) + SectionLines(FuncHeader, funcs) +
    SectionLines(ForEachHeader, ForEachLines(forEachs)) +
    SectionLines(SlotHeader, NumberLines(NonZeroIndices(slots)))
  }

  /** Appends the lines `items` to `str`, one per line. */
  method AppendLines(str: seq<char>, items: seq<seq<char>>) returns (out: seq<char>)
    ensures out == str + Text(items)
  {
    out := str;
    var k := 0;
    while k < |items|
      invariant 0 <= k <= |items|
      invariant out == str + Text(items[..k])
    {
      TextSnoc(items[..k], items[k]);
      assert items[..k + 1] == items[..k] + [items[k]];
      out := out + items[k] + "\n";
      k := k + 1;
    }
    assert items[..k] == items;
  }

  lemma {:induction false} TextAppend(a: seq<seq<char>>, b: seq<seq<char>>)
    ensures Text(a + b) == Text(a) + Text(b)
    decreases |a|
  {
    if |a| > 0 {
      assert (a + b)[1..] == a[1..] + b;
      TextAppend(a[1..], b);
    } else {
      assert a + b == b;
    }
  }

  /** The loop collecting `object_slot_numbers`: the positions of the set
    * slots, in order. */
  method SetSlotNumbers(slots: seq<nat>) returns (numbers: seq<nat>)
    ensures numbers == NonZeroIndices(slots)
  {
    numbers := [];
    var i := 0;
    while i < |slots|
      invariant 0 <= i <= |slots|
      invariant numbers == NonZeroIndices(slots[..i])
    {
      assert slots[..i + 1][..i] == slots[..i];
      if slots[i] != 0 {
        numbers := numbers + [i];
      }
      i := i + 1;
    }
    assert slots[..i] == slots;
  }

  /** `getRSInfoString`: the variable, function and foreach sections, then
    * the object slot section listing the slots whose flag is set. */
  method GetRSInfoString(vars: seq<seq<char>>, funcs: seq<seq<char>>, forEachs: seq<(seq<char>, nat)>,
                         slots: seq<nat>) returns (str: seq<char>)
    ensures str == Text(InfoLines(vars, funcs, forEachs, slots))
  {
    str := AppendSection([], VarHeader, vars);
    str := AppendSection(str, FuncHeader, funcs);
    str := AppendSection(str, ForEachHeader, ForEachLines(forEachs));
    var numbers := SetSlotNumbers(slots);
    str := AppendSection(str, SlotHeader, NumberLines(numbers));
    TextOfSections(SectionLines(VarHeader, vars), SectionLines(FuncHeader, funcs),
                   SectionLines(ForEachHeader, ForEachLines(forEachs)),
                   SectionLines(SlotHeader, NumberLines(numbers)));
  }

  /** The text of four groups of lines, as four appends write it. */
  lemma TextOfSections(s1: seq<seq<char>>, s2: seq<seq<char>>, s3: seq<seq<char>>, s4: seq<seq<char>>)
    ensures Text(s1 + s2 + s3 + s4) == [] + Text(s1) + Text(s2) + Text(s3) + Text(s4)
  {
    TextAppend(s1, s2);
    TextAppend(s1 + s2, s3);
    TextAppend(s1 + s2 + s3, s4);
  }

  /** Writes a section: the "name: count" line, then one line per entry. */
  method AppendSection(str: seq<char>, header: seq<char>, items: seq<seq<char>>) returns (out: seq<char>)
    ensures out == str + Text(SectionLines(header, items))
  {
    out := str + header + Dec(|items|) + "\n";
    out := AppendLines(out, items);
    TextAppend([header + Dec(|items|)], items);
    assert Text([header + Dec(|items|)]) == header + Dec(|items|) + "\n" by {
      assert [header + Dec(|items|)][1..] == [];
    }
  }

  /** What a reader of the text recovers. */
  datatype EmbeddedInfo = EmbeddedInfo(exportVars: seq<seq<char>>, exportFuncs: seq<seq<char>>,
                                       forEachs: seq<(seq<char>, nat)>, objectSlots: seq<nat>)

  function ParseNat(s: seq<char>): Option<nat>
  {
    if |s| > 0 && AllDigits(s) then Some(DigitsValue(s)) else None
  }

  /** A section: its "name: count" line and that many entry lines, and the
    * lines after them. */
  function Section(lines: seq<seq<char>>, header: seq<char>): Option<(seq<seq<char>>, seq<seq<char>>)>
  {
    if |lines| == 0 || !(header <= lines[0]) then None
    else
      var n := ParseNat(lines[0][|header|..]);
      if n.None? || n.value > |lines| - 1 then None
      else Some((lines[1..n.value + 1], lines[n.value + 1..]))
  }

  function ParseForEach(line: seq<char>): Option<(seq<char>, nat)>
  {
    var k := DigitsEnd(line, 0);
    if k > 0 && k + 3 <= |line| && line[k..k + 3] == " - " then
      Some((line[k + 3..], DigitsValue(line[..k])))
    else None
  }

  function ParseForEachs(lines: seq<seq<char>>): Option<seq<(seq<char>, nat)>>
  {
    if |lines| == 0 then Some([])
    else
      var front := ParseForEachs(lines[..|lines| - 1]);
      var last := ParseForEach(lines[|lines| - 1]);
      if front.None? || last.None? then None else Some(front.value + [last.value])
  }

  function ParseNumbers(lines: seq<seq<char>>): Option<seq<nat>>
  {
    if |lines| == 0 then Some([])
    else
      var front := ParseNumbers(lines[..|lines| - 1]);
      var last := ParseNat(lines[|lines| - 1]);
      if front.None? || last.None? then None else Some(front.value + [last.value])
  }

  /** A reader of the embedded text: the four sections in order and nothing
    * after them. */
  function ParseInfo(lines: seq<seq<char>>): Option<EmbeddedInfo>
  {
    var s1 := Section(lines, VarHeader);
    if s1.None? then None
    else
      var s2 := Section(s1.value.1, FuncHeader);
      if s2.None? then None
      else
        var s3 := Section(s2.value.1, ForEachHeader);
        if s3.None? then None
        else
          var fs := ParseForEachs(s3.value.0);
          var s4 := Section(s3.value.1, SlotHeader);
          if fs.None? || s4.None? || s4.value.1 != [] then None
          else
            var ns := ParseNumbers(s4.value.0);
            if ns.None? then None
            else Some(EmbeddedInfo(s1.value.0, s2.value.0, fs.value, ns.value))
  }

  lemma SectionReads(header: seq<char>, items: seq<seq<char>>, rest: seq<seq<char>>)
    ensures Section(SectionLines(header, items) + rest, header) == Some((items, rest))
  {
    var lines := [header + Dec(|items|)] + items + rest;
    assert SectionLines(header, items) + rest == lines;
    assert lines[0][|header|..] == Dec(|items|);
    DecValue(|items|);
    assert lines[1..|items| + 1] == items;
    assert lines[|items| + 1..] == rest;
  }

  lemma ForEachLineReads(f: (seq<char>, nat))
    ensures ParseForEach(ForEachLine(f)) == Some(f)
  {
    var line := ForEachLine(f);
    var d := Dec(f.1);
    assert line[..|d|] == d;
    DigitsEndOver(line, 0, |d|);
    assert line[|d|..|d| + 3] == " - ";
    assert line[|d| + 3..] == f.0;
    DecValue(f.1);
  }

  lemma {:induction false} ForEachLinesRead(fs: seq<(seq<char>, nat)>)
    ensures ParseForEachs(ForEachLines(fs)) == Some(fs)
    decreases |fs|
  {
    if |fs| > 0 {
      var n := |fs|;
      assert ForEachLines(fs)[..n - 1] == ForEachLines(fs[..n - 1]);
      ForEachLinesRead(fs[..n - 1]);
      ForEachLineReads(fs[n - 1]);
      assert fs[..n - 1] + [fs[n - 1]] == fs;
    }
  }

  lemma {:induction false} NumberLinesRead(ns: seq<nat>)
    ensures ParseNumbers(NumberLines(ns)) == Some(ns)
    decreases |ns|
  {
    if |ns| > 0 {
      var n := |ns|;
      assert NumberLines(ns)[..n - 1] == NumberLines(ns[..n - 1]);
      NumberLinesRead(ns[..n - 1]);
      DecValue(ns[n - 1]);
      assert ns[..n - 1] + [ns[n - 1]] == ns;
    }
  }

  lemma ParseSections(r1: seq<seq<char>>, vars: seq<seq<char>>, r2: seq<seq<char>>, funcs: seq<seq<char>>,
                      r3: seq<seq<char>>, fLines: seq<seq<char>>, r4: seq<seq<char>>, nLines: seq<seq<char>>)
    requires Section(r1, VarHeader) == Some((vars, r2))
    requires Section(r2, FuncHeader) == Some((funcs, r3))
    requires Section(r3, ForEachHeader) == Some((fLines, r4))
    requires Section(r4, SlotHeader) == Some((nLines, []))
    requires ParseForEachs(fLines).Some? && ParseNumbers(nLines).Some?
    ensures ParseInfo(r1) == Some(EmbeddedInfo(vars, funcs, ParseForEachs(fLines).value, ParseNumbers(nLines).value))
  {
  }

  /** The four sections of the text, grouped from the right. */
  lemma InfoLinesNested(vars: seq<seq<char>>, funcs: seq<seq<char>>, forEachs: seq<(seq<char>, nat)>,
                        slots: seq<nat>)
    ensures InfoLines(vars, funcs, forEachs, slots) ==
      SectionLines(VarHeader, vars) + (SectionLines(FuncHeader, funcs) +
      (SectionLines(ForEachHeader, ForEachLines(forEachs)) +
       SectionLines(SlotHeader, NumberLines(NonZeroIndices(slots)))))
  {
  }

  /** The embedded text is self-describing: reading its lines back gives
    * the exported variables, functions and foreach kernels, and the
    * indices of the set object slots, in order. */
  lemma InfoLinesRoundTrip(vars: seq<seq<char>>, funcs: seq<seq<char>>, forEachs: seq<(seq<char>, nat)>,
                           slots: seq<nat>)
    ensures ParseInfo(InfoLines(vars, funcs, forEachs, slots)) ==
      Some(EmbeddedInfo(vars, funcs, forEachs, NonZeroIndices(slots)))
  {
    var nums := NonZeroIndices(slots);
    var fLines, nLines := ForEachLines(forEachs), NumberLines(nums);
    var r4 := SectionLines(SlotHeader, nLines);
    var r3 := SectionLines(ForEachHeader, fLines) + r4;
    var r2 := SectionLines(FuncHeader, funcs) + r3;
    var r1 := SectionLines(VarHeader, vars) + r2;
    InfoLinesNested(vars, funcs, forEachs, slots);
    assert Section(r1, VarHeader) == Some((vars, r2)) by {
      SectionReads(VarHeader, vars, r2);
    }
    assert Section(r2, FuncHeader) == Some((funcs, r3)) by {
      SectionReads(FuncHeader, funcs, r3);
    }
    assert Section(r3, ForEachHeader) == Some((fLines, r4)) by {
      SectionReads(ForEachHeader, fLines, r4);
    }
    assert Section(r4, SlotHeader) == Some((nLines, [])) by {
      SectionReads(SlotHeader, nLines, []);
      assert r4 + [] == r4;
    }
    assert ParseForEachs(fLines) == Some(forEachs) by {
      ForEachLinesRead(forEachs);
    }
    assert ParseNumbers(nLines) == Some(nums) by {
      NumberLinesRead(nums);
    }
    ParseSections(r1, vars, r2, funcs, r3, fLines, r4, nLines);
  }
}
