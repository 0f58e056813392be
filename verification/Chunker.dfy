// Symbol-level line ranges of services/codebase-comprehension (chunker.py): a block ends before
// the next non-blank line indented no deeper than its first line.
//
// `lines` are the source lines with their line breaks, numbered from 1.
module Chunker {
  import opened Common

  // `str.isspace` of one character.
  predicate IsSpace(c: char) {
    || '\t' <= c <= '\r' || '\U{1C}' <= c <= ' ' || c == '\U{85}' || c == '\U{A0}' || c == '\U{1680}'
    || '\U{2000}' <= c <= '\U{200A}' || c == '\U{2028}' || c == '\U{2029}' || c == '\U{202F}'
    || c == '\U{205F}' || c == '\U{3000}'
  }

  // len(line) - len(line.lstrip())
  function Indent(line: string): (n: nat)
    ensures n <= |line| && (n < |line| ==> !IsSpace(line[n]))
  {
    if line == "" || !IsSpace(line[0]) then 0 else 1 + Indent(line[1..])
  }

  // line.strip() == ""
  predicate Blank(line: string) { Indent(line) == |line| }

  // Is the line a blank, a comment or a decorator?
  predicate ContextLike(line: string) {
    Blank(line) || line[Indent(line)] == '#' || line[Indent(line)] == '@'
  }

  predicate InRange(lines: seq<string>, start: int) { 1 <= start <= |lines| }

  function Line(lines: seq<string>, n: int): string
    requires InRange(lines, n)
  {
    lines[n - 1]
  }

  /** The white space of Python's `str.isspace`, character by character. */
  lemma SpacesExactly(c: char)
    ensures IsSpace(c) <==>
            c in {'\t', '\n', '\U{0B}', '\U{0C}', '\r', '\U{1C}', '\U{1D}', '\U{1E}', '\U{1F}', ' ', '\U{85}',
                  '\U{A0}', '\U{1680}', '\U{2000}', '\U{2001}', '\U{2002}', '\U{2003}', '\U{2004}', '\U{2005}',
                  '\U{2006}', '\U{2007}', '\U{2008}', '\U{2009}', '\U{200A}', '\U{2028}', '\U{2029}',
                  '\U{202F}', '\U{205F}', '\U{3000}'}
  {}

  ghost predicate AllSpace(s: string) { forall i | 0 <= i < |s| :: IsSpace(s[i]) }

  /** A line is taken for context when it is blank, or when its first other character is one that
      starts a comment or a decorator. */
  lemma ContextLines(pad: string, c: char, rest: string)
    requires AllSpace(pad) && !IsSpace(c)
    ensures ContextLike(pad) && !Blank(pad + [c] + rest)
    ensures ContextLike(pad + [c] + rest) <==> c == '#' || c == '@'
  {
    IndentIs(pad, |pad|);
    IndentIs(pad + [c] + rest, |pad|);
  }

  // Does line k belong to the block that line `start` opens, if it is reached?
  predicate Deeper(lines: seq<string>, start: int, k: int)
    requires InRange(lines, start) && InRange(lines, k)
  {
    Blank(Line(lines, k)) || Indent(Line(lines, k)) > Indent(Line(lines, start))
  }

  /** `end` is the last line of the block: everything up to it is blank or deeper, it is not blank
      itself unless it is the first line, and the next non-blank line is not deeper. */
  ghost predicate IsBlockEnd(lines: seq<string>, start: int, end: int)
    requires InRange(lines, start)
  {
    && start <= end <= |lines|
    && (forall k | start < k <= end :: Deeper(lines, start, k))
    && (end > start ==> !Blank(Line(lines, end)))
    && (forall k {:trigger AllBlank(lines, end, k)} |
          end < k <= |lines| && AllBlank(lines, end, k) && !Blank(Line(lines, k)) :: !Deeper(lines, start, k))
  }

  // Between the two lines.
  ghost predicate AllBlank(lines: seq<string>, after: int, before: int)
    requires 0 <= after && before <= |lines| + 1
  {
    forall i | after < i < before :: Blank(Line(lines, i))
  }

  // The source has this loop twice, for functions and for classes.
  method EstimateEndLine(startLine: int, lines: seq<string>) returns (end: int)
    ensures !(1 <= startLine <= |lines|) ==> end == startLine
    ensures InRange(lines, startLine) ==> IsBlockEnd(lines, startLine, end)
  {
    if startLine < 1 || startLine > |lines| { return startLine; }
    var baseIndent := Indent(lines[startLine - 1]);
    end := startLine;
    var i := startLine;
    while i < |lines|
      invariant startLine <= end <= i <= |lines|
      invariant forall k | startLine < k <= end :: Deeper(lines, startLine, k)
      invariant forall k | end < k <= i :: Blank(Line(lines, k))
      invariant end > startLine ==> !Blank(Line(lines, end))
    {
      var line := lines[i];
      if !Blank(line) {
        if Indent(line) <= baseIndent {
          assert Line(lines, i + 1) == line;
          break;
        }
        end := i + 1;
      }
      i := i + 1;
    }
  }

  lemma FirstNonBlank(lines: seq<string>, first: int, last: int) returns (k: int)
    requires 1 <= first <= last <= |lines| && !Blank(Line(lines, last))
    ensures first <= k <= last && !Blank(Line(lines, k)) && AllBlank(lines, first - 1, k)
    decreases last - first
  {
    if !Blank(Line(lines, first)) { k := first; } else { k := FirstNonBlank(lines, first + 1, last); }
  }

  /** The indentation rule leaves one possible end. */
  lemma BlockEndUnique(lines: seq<string>, start: int, e1: int, e2: int)
    requires InRange(lines, start) && IsBlockEnd(lines, start, e1) && IsBlockEnd(lines, start, e2)
    ensures e1 == e2
  {
    if e1 < e2 {
      var k := FirstNonBlank(lines, e1 + 1, e2);
    } else if e2 < e1 {
      var k := FirstNonBlank(lines, e2 + 1, e1);
    }
  }

  // Line k is deeper than `inner` but not than `outer`, and all lines between `inner` and it are
  // deeper than `outer`.
  ghost predicate Overtakes(lines: seq<string>, outer: int, inner: int, k: int)
    requires InRange(lines, outer) && InRange(lines, inner) && inner < k <= |lines|
  {
    && !Blank(Line(lines, k))
    && Indent(Line(lines, inner)) < Indent(Line(lines, k)) <= Indent(Line(lines, outer))
    && (forall j | inner < j < k :: Deeper(lines, outer, j))
  }

  // A block reaches every line up to which all lines are deeper, if that line is not blank.
  lemma ReachesDeeper(lines: seq<string>, start: int, end: int, k: int)
    requires InRange(lines, start) && IsBlockEnd(lines, start, end)
    requires start < k <= |lines| && !Blank(Line(lines, k))
    requires forall j | start < j <= k :: Deeper(lines, start, j)
    ensures k <= end
  {
    if end < k { var first := FirstNonBlank(lines, end + 1, k); }
  }

  lemma BeyondTheEnd(lines: seq<string>, start: int, end: int, k: int)
    requires InRange(lines, start) && IsBlockEnd(lines, start, end)
    requires start < k <= |lines| && !Deeper(lines, start, k)
    ensures end < k
  {}

  lemma DeeperToOvertaking(lines: seq<string>, outer: int, inner: int, k: int)
    requires InRange(lines, outer) && InRange(lines, inner) && inner < k <= |lines|
    requires Overtakes(lines, outer, inner, k)
    ensures forall j | inner < j <= k :: Deeper(lines, inner, j)
  {
    forall j | inner < j <= k ensures Deeper(lines, inner, j) {
      if j < k { assert Deeper(lines, outer, j); }
    }
  }

  lemma OvertakingStraddles(lines: seq<string>, outer: int, outerEnd: int, inner: int, innerEnd: int, k: int)
    requires InRange(lines, outer) && InRange(lines, inner) && outer < inner <= outerEnd
    requires IsBlockEnd(lines, outer, outerEnd) && IsBlockEnd(lines, inner, innerEnd)
    requires inner < k <= |lines| && Overtakes(lines, outer, inner, k)
    ensures outerEnd < k <= innerEnd
  {
    BeyondTheEnd(lines, outer, outerEnd, k);
    DeeperToOvertaking(lines, outer, inner, k);
    ReachesDeeper(lines, inner, innerEnd, k);
  }

  lemma StraddlingIsOvertaken(lines: seq<string>, outer: int, outerEnd: int, inner: int, innerEnd: int)
    returns (k: int)
    requires InRange(lines, outer) && InRange(lines, inner) && outer < inner <= outerEnd < innerEnd
    requires IsBlockEnd(lines, outer, outerEnd) && IsBlockEnd(lines, inner, innerEnd)
    ensures inner < k <= |lines| && Overtakes(lines, outer, inner, k)
  {
    k := FirstNonBlank(lines, outerEnd + 1, innerEnd);
    assert Deeper(lines, inner, k) && !Deeper(lines, outer, k);
    forall j | inner < j < k ensures Deeper(lines, outer, j) {
      assert j > outerEnd ==> Blank(Line(lines, j));
    }
  }

  /** A block that starts inside another one ends inside it if and only if no line overtakes ... */
  lemma InnerBlockEndsInsideExactly(lines: seq<string>, outer: int, outerEnd: int, inner: int, innerEnd: int)
    requires InRange(lines, outer) && InRange(lines, inner) && outer < inner <= outerEnd
    requires IsBlockEnd(lines, outer, outerEnd) && IsBlockEnd(lines, inner, innerEnd)
    ensures innerEnd <= outerEnd <==> !exists k :: inner < k <= |lines| && Overtakes(lines, outer, inner, k)
  {
    if k :| inner < k <= |lines| && Overtakes(lines, outer, inner, k) {
      OvertakingStraddles(lines, outer, outerEnd, inner, innerEnd, k);
    }
    if outerEnd < innerEnd {
      var k := StraddlingIsOvertaken(lines, outer, outerEnd, inner, innerEnd);
    }
  }

  /** ... so it always does when it starts no less indented than the outer one. */
  lemma NoLessIndentedEndsInside(lines: seq<string>, outer: int, outerEnd: int, inner: int, innerEnd: int)
    requires InRange(lines, outer) && InRange(lines, inner) && outer < inner <= outerEnd
    requires IsBlockEnd(lines, outer, outerEnd) && IsBlockEnd(lines, inner, innerEnd)
    requires Indent(Line(lines, inner)) >= Indent(Line(lines, outer))
    ensures innerEnd <= outerEnd
  {
    if outerEnd < innerEnd {
      var k := StraddlingIsOvertaken(lines, outer, outerEnd, inner, innerEnd);
    }
  }

  /** Block ranges are laminar: a block that starts on a non-blank line inside another block ends
      inside it. */
  lemma BlocksAreLaminar(lines: seq<string>, outer: int, outerEnd: int, inner: int, innerEnd: int)
    requires InRange(lines, outer) && InRange(lines, inner) && outer < inner
    requires IsBlockEnd(lines, outer, outerEnd) && IsBlockEnd(lines, inner, innerEnd)
    requires !Blank(Line(lines, inner))
    ensures outerEnd < inner || innerEnd <= outerEnd
  {
    if inner <= outerEnd {
      assert Deeper(lines, outer, inner);
      NoLessIndentedEndsInside(lines, outer, outerEnd, inner, innerEnd);
    }
  }

  // A source that starts with form feeds, as it is split into lines: the splitting breaks at form
  // feeds too, which line numbers do not count.
  const F := "  def f(x):\n"
  const BODY := "   y\n"
  const G := "  def g(x): y\n"
  const H := "  def h(x): y\n"
  const STRADDLING: seq<string> := ["\U{0C}", "\U{0C}", "\U{0C}", "\n", "class A:\n", F, "\n", BODY, G, H]

  /** So g, on the 6th line of the file, is taken to start where f does, and h, on the 7th, on the
      blank line inside f: its block straddles the end of the other. */
  lemma BlankStartCanStraddle()
    ensures IsBlockEnd(STRADDLING, 6, 8) && IsBlockEnd(STRADDLING, 7, 10)
    ensures !Blank(Line(STRADDLING, 6)) && Blank(Line(STRADDLING, 7))
  {
    IndentIs(F, 2);
    IndentIs("\n", 1);
    IndentIs(BODY, 3);
    IndentIs(G, 2);
    IndentIs(H, 2);
    StraddlingBlocks(STRADDLING);
  }

  lemma StraddlingBlocks(lines: seq<string>)
    requires |lines| == 10 && Indent(lines[5]) == Indent(lines[8]) == Indent(lines[9]) == 2
    requires Indent(lines[6]) == 1 == |lines[6]| && Indent(lines[7]) == 3
    requires |lines[5]| > 2 && |lines[7]| > 3 && |lines[8]| > 2 && |lines[9]| > 2
    ensures IsBlockEnd(lines, 6, 8) && IsBlockEnd(lines, 7, 10)
    ensures !Blank(Line(lines, 6)) && Blank(Line(lines, 7))
  {
    assert Deeper(lines, 6, 7) && Deeper(lines, 6, 8) && !Deeper(lines, 6, 9);
    assert Deeper(lines, 7, 8) && Deeper(lines, 7, 9) && Deeper(lines, 7, 10);
    assert !AllBlank(lines, 8, 10) by { assert !Blank(Line(lines, 9)); }
  }

  lemma IndentIs(line: string, n: nat)
    requires n <= |line| && (forall i | 0 <= i < n :: IsSpace(line[i])) && (n < |line| ==> !IsSpace(line[n]))
    ensures Indent(line) == n
    decreases n
  {
    if n > 0 { IndentIs(line[1..], n - 1); }
  }

  // ----------------------------------------------------------------- chunks

  datatype Kind = Function | Class | Method

  datatype Symbol = Symbol(kind: Kind, name: string, line: int)

  datatype Chunk = Chunk(symbol: Symbol, endLine: int, contextStart: nat, source: string, context: string)

  datatype Def = Def(name: string, line: int)

  datatype ClassDef = ClassDef(name: string, line: int, methods: seq<Def>)

  datatype FileIndex = FileIndex(functions: seq<Def>, classes: seq<ClassDef>)

  // The context starts (0-indexed) at the first of the contiguous blank, comment and decorator
  // lines above the symbol; when there is none, the line above is taken all the same.
  ghost predicate IsContextStart(lines: seq<string>, start: int, context: nat)
    requires InRange(lines, start)
  {
    && context <= start - 1
    && (if start >= 2 && ContextLike(lines[start - 2]) then
          (forall i | context <= i < start - 1 :: ContextLike(lines[i]))
          && (context > 0 ==> !ContextLike(lines[context - 1]))
          && context < start - 1
        else
          context == if start >= 2 then start - 2 else 0)
  }

  ghost predicate IsChunk(maxTokens: int, lines: seq<string>, c: Chunk) {
    && InRange(lines, c.symbol.line)
    && IsBlockEnd(lines, c.symbol.line, c.endLine)
    && IsContextStart(lines, c.symbol.line, c.contextStart)
    && c.source == SourceText(maxTokens, lines, c.symbol.line, c.endLine)
    && c.context == RStrip(Join(lines[c.contextStart..c.symbol.line - 1]))
  }

  // ------------------------------------------------------------------ texts

  // "".join(lines)
  function Join(lines: seq<string>): string {
    if lines == [] then "" else Join(lines[..|lines| - 1]) + lines[|lines| - 1]
  }

  lemma {:induction false} JoinIsConcatenation(before: seq<string>, line: string, after: seq<string>)
    ensures Join(before + [line] + after) == Join(before) + line + Join(after) && Join([]) == ""
  {
    if after == [] {
      assert before + [line] + after == before + [line];
      assert (before + [line])[..|before|] == before;
    } else {
      var n := |after| - 1;
      JoinIsConcatenation(before, line, after[..n]);
      assert (before + [line] + after)[..|before| + 1 + n] == before + [line] + after[..n];
    }
  }

  // text.rstrip()
  function RStrip(text: string): string {
    if text != "" && IsSpace(text[|text| - 1]) then RStrip(text[..|text| - 1]) else text
  }

  // text[:n], for negative n too.
  function Head(text: string, n: int): string {
    if n >= |text| then text
    else if n >= 0 then text[..n]
    else if |text| + n >= 0 then text[..|text| + n]
    else ""
  }

  const MARKER := "\n# ... truncated"

  // A token is taken to be four characters.
  function SourceText(maxTokens: int, lines: seq<string>, start: int, end: int): string
    requires InRange(lines, start) && start <= end <= |lines|
  {
    var text := RStrip(Join(lines[start - 1..end]));
    if |text| > maxTokens * 4 then Head(text, maxTokens * 4) + MARKER else text
  }

  lemma {:induction false} RStripIs(text: string)
    ensures RStrip(text) <= text && (forall i | |RStrip(text)| <= i < |text| :: IsSpace(text[i]))
    ensures RStrip(text) != "" ==> !IsSpace(RStrip(text)[|RStrip(text)| - 1])
  {
    if text != "" && IsSpace(text[|text| - 1]) { RStripIs(text[..|text| - 1]); }
  }

  // Stripping a text leaves out white space only, so it leaves something of one that is not blank.
  lemma {:induction false} BlankIsAllSpace(line: string)
    ensures Blank(line) <==> forall i | 0 <= i < |line| :: IsSpace(line[i])
  {
    if line != "" && IsSpace(line[0]) { BlankIsAllSpace(line[1..]); }
  }

  lemma {:induction false} JoinHolds(lines: seq<string>, k: nat, i: nat) returns (at: nat)
    requires k < |lines| && i < |lines[k]|
    ensures at < |Join(lines)| && Join(lines)[at] == lines[k][i]
  {
    var n := |lines| - 1;
    if k == n { at := |Join(lines[..n])| + i; } else { at := JoinHolds(lines[..n], k, i); }
  }

  /** The text of a chunk is that of its block up to white space at the end, or, if and only if that
      is too long, its beginning and a marker; a block that starts on a non-blank line has some. */
  lemma SourceTextIsTheBlock(maxTokens: int, lines: seq<string>, start: int, end: int)
    requires InRange(lines, start) && start <= end <= |lines|
    ensures var text := Join(lines[start - 1..end]);
            var source := SourceText(maxTokens, lines, start, end);
            if |RStrip(text)| <= maxTokens * 4 then
              source <= text && forall i | |source| <= i < |text| :: IsSpace(text[i])
            else
              |source| >= 16 && source[|source| - 16..] == "\n# ... truncated"
              && source[..|source| - 16] <= text
              && |source| - 16 == (if maxTokens >= 0 then maxTokens * 4
                                   else if |RStrip(text)| + maxTokens * 4 >= 0 then |RStrip(text)| + maxTokens * 4
                                   else 0)
    ensures !Blank(Line(lines, start)) ==> SourceText(maxTokens, lines, start, end) != ""
  {
    var block := lines[start - 1..end];
    var text := Join(block);
    RStripIs(text);
    assert |MARKER| == 16;
    if !Blank(Line(lines, start)) {
      BlankIsAllSpace(block[0]);
      var i :| 0 <= i < |block[0]| && !IsSpace(block[0][i]);
      var at := JoinHolds(block, 0, i);
    }
  }

  method FindContextStart(lines: seq<string>, startLine: int) returns (contextStart: nat)
    requires InRange(lines, startLine)
    ensures IsContextStart(lines, startLine, contextStart)
  {
    contextStart := if startLine >= 2 then startLine - 2 else 0;
    var idx := startLine - 2;
    while idx >= 0
      invariant -1 <= idx <= startLine - 2
      invariant contextStart == if idx < startLine - 2 then idx + 1 else if startLine >= 2 then startLine - 2 else 0
      invariant forall i | idx < i < startLine - 1 :: ContextLike(lines[i])
    {
      if !ContextLike(lines[idx]) { break; }
      contextStart := idx;
      idx := idx - 1;
    }
  }

  method BuildChunk(maxTokens: int, lines: seq<string>, symbol: Symbol, endLine: int) returns (c: Option<Chunk>)
    requires InRange(lines, symbol.line) ==> IsBlockEnd(lines, symbol.line, endLine)
    ensures c.Some? <==> 1 <= symbol.line <= |lines|
    ensures c.Some? ==> c.value.symbol == symbol && IsChunk(maxTokens, lines, c.value)
  {
    var startLine := symbol.line;
    if startLine < 1 || startLine > |lines| { return None; }
    var contextStart := FindContextStart(lines, startLine);
    var context := RStrip(Join(lines[contextStart..startLine - 1]));
    var clamped := if endLine <= |lines| then endLine else |lines|;
    var source := SourceText(maxTokens, lines, startLine, clamped);
    c := Some(Chunk(symbol, clamped, contextStart, source, context));
  }

  // The symbols in `done`, then the first n functions.
  function WithFunctions(done: seq<Symbol>, defs: seq<Def>, n: nat): seq<Symbol>
    requires n <= |defs|
  {
    if n == 0 then done
    else WithFunctions(done, defs, n - 1) + [Symbol(Function, defs[n - 1].name, defs[n - 1].line)]
  }

  function MethodSymbol(cls: ClassDef, def: Def): Symbol { Symbol(Method, cls.name + "." + def.name, def.line) }

  // ... then a class and its first n methods.
  function WithClass(done: seq<Symbol>, cls: ClassDef, n: nat): seq<Symbol>
    requires n <= |cls.methods|
  {
    if n == 0 then done + [Symbol(Class, cls.name, cls.line)]
    else WithClass(done, cls, n - 1) + [MethodSymbol(cls, cls.methods[n - 1])]
  }

  // ... then the first n classes with their methods.
  function WithClasses(done: seq<Symbol>, classes: seq<ClassDef>, n: nat): seq<Symbol>
    requires n <= |classes|
  {
    if n == 0 then done
    else WithClass(WithClasses(done, classes, n - 1), classes[n - 1], |classes[n - 1].methods|)
  }

  function Symbols(index: FileIndex): seq<Symbol> {
    WithClasses(WithFunctions([], index.functions, |index.functions|), index.classes, |index.classes|)
  }

  // Where the k-th class comes among the symbols: after the functions, and the classes before it
  // with their methods.
  function PlaceOfClass(index: FileIndex, k: nat): nat
    requires k <= |index.classes|
  {
    if k == 0 then |index.functions| else PlaceOfClass(index, k - 1) + 1 + |index.classes[k - 1].methods|
  }

  lemma {:induction false} FunctionsPlaced(done: seq<Symbol>, defs: seq<Def>, n: nat)
    requires n <= |defs|
    ensures var s := WithFunctions(done, defs, n);
            && |s| == |done| + n && done <= s
            && forall i | 0 <= i < n :: s[|done| + i] == Symbol(Function, defs[i].name, defs[i].line)
  {
    if n > 0 { FunctionsPlaced(done, defs, n - 1); }
  }

  lemma {:induction false} ClassPlaced(done: seq<Symbol>, cls: ClassDef, n: nat)
    requires n <= |cls.methods|
    ensures var s := WithClass(done, cls, n);
            && |s| == |done| + 1 + n && done <= s && s[|done|] == Symbol(Class, cls.name, cls.line)
            && forall i | 0 <= i < n ::
                 s[|done| + 1 + i] == Symbol(Method, cls.name + "." + cls.methods[i].name, cls.methods[i].line)
  {
    if n > 0 { ClassPlaced(done, cls, n - 1); }
  }

  // A class and its methods at the place p.
  ghost predicate ClassAt(symbols: seq<Symbol>, p: nat, cls: ClassDef) {
    && p + |cls.methods| < |symbols| && symbols[p] == Symbol(Class, cls.name, cls.line)
    && forall i | 0 <= i < |cls.methods| ::
         symbols[p + 1 + i] == Symbol(Method, cls.name + "." + cls.methods[i].name, cls.methods[i].line)
  }

  lemma ClassStays(s: seq<Symbol>, t: seq<Symbol>, p: nat, cls: ClassDef)
    requires ClassAt(s, p, cls) && s <= t
    ensures ClassAt(t, p, cls)
  {
    assert t[p] == s[p];
    forall i | 0 <= i < |cls.methods|
      ensures t[p + 1 + i] == Symbol(Method, cls.name + "." + cls.methods[i].name, cls.methods[i].line)
    {
      assert t[p + 1 + i] == s[p + 1 + i];
    }
  }

  lemma ClassInPlace(done: seq<Symbol>, cls: ClassDef)
    ensures var s := WithClass(done, cls, |cls.methods|);
            ClassAt(s, |done|, cls) && done <= s && |s| == |done| + 1 + |cls.methods|
  {
    ClassPlaced(done, cls, |cls.methods|);
  }

  lemma {:induction false} ClassesPlaced(index: FileIndex, done: seq<Symbol>, n: nat)
    requires n <= |index.classes| && |done| == |index.functions|
    ensures var s := WithClasses(done, index.classes, n); |s| == PlaceOfClass(index, n) && done <= s
  {
    if n > 0 {
      ClassesPlaced(index, done, n - 1);
      ClassInPlace(WithClasses(done, index.classes, n - 1), index.classes[n - 1]);
    }
  }

  lemma {:induction false} ClassPlacedAmong(index: FileIndex, done: seq<Symbol>, k: nat, n: nat)
    requires k < n <= |index.classes| && |done| == |index.functions|
    ensures ClassAt(WithClasses(done, index.classes, n), PlaceOfClass(index, k), index.classes[k])
  {
    var before := WithClasses(done, index.classes, n - 1);
    ClassesPlaced(index, done, n - 1);
    ClassInPlace(before, index.classes[n - 1]);
    if k < n - 1 {
      ClassPlacedAmong(index, done, k, n - 1);
      ClassStays(before, WithClasses(done, index.classes, n), PlaceOfClass(index, k), index.classes[k]);
    }
  }

  /** The symbols of a file: its functions, then each class followed by its methods under the class's
      name, all in the order of the index and with their own lines. */
  lemma SymbolsArePlaced(index: FileIndex, i: nat, k: nat)
    ensures var s := Symbols(index);
            && |s| == PlaceOfClass(index, |index.classes|)
            && (i < |index.functions| ==>
                  i < |s| && s[i] == Symbol(Function, index.functions[i].name, index.functions[i].line))
            && (k < |index.classes| ==> ClassAt(s, PlaceOfClass(index, k), index.classes[k]))
  {
    var none: seq<Symbol> := [];
    var done := WithFunctions(none, index.functions, |index.functions|);
    FunctionsPlaced(none, index.functions, |index.functions|);
    ClassesPlaced(index, done, |index.classes|);
    if k < |index.classes| { ClassPlacedAmong(index, done, k, |index.classes|); }
    if i < |index.functions| { assert done <= Symbols(index) && done[|none| + i] == done[i]; }
  }

  // One chunk for each symbol whose line exists, in that order.
  ghost predicate AreChunks(maxTokens: int, lines: seq<string>, symbols: seq<Symbol>, chunks: seq<Chunk>) {
    if symbols == [] then chunks == []
    else
      var before, last := symbols[..|symbols| - 1], symbols[|symbols| - 1];
      if InRange(lines, last.line) then
        && chunks != [] && AreChunks(maxTokens, lines, before, chunks[..|chunks| - 1])
        && chunks[|chunks| - 1].symbol == last && IsChunk(maxTokens, lines, chunks[|chunks| - 1])
      else AreChunks(maxTokens, lines, before, chunks)
  }

  method AddChunk(maxTokens: int, lines: seq<string>, symbol: Symbol, chunks: seq<Chunk>, ghost done: seq<Symbol>)
    returns (more: seq<Chunk>)
    requires AreChunks(maxTokens, lines, done, chunks)
    ensures AreChunks(maxTokens, lines, done + [symbol], more)
  {
    var end := EstimateEndLine(symbol.line, lines);
    var c := BuildChunk(maxTokens, lines, symbol, end);
    assert (done + [symbol])[..|done|] == done;
    more := chunks;
    if c.Some? {
      more := chunks + [c.value];
      assert more[..|chunks|] == chunks;
    }
  }

  // A class, then its methods.
  method AddClass(maxTokens: int, lines: seq<string>, cls: ClassDef, chunks: seq<Chunk>, ghost done: seq<Symbol>)
    returns (more: seq<Chunk>)
    requires AreChunks(maxTokens, lines, done, chunks)
    ensures AreChunks(maxTokens, lines, WithClass(done, cls, |cls.methods|), more)
  {
    more := AddChunk(maxTokens, lines, Symbol(Class, cls.name, cls.line), chunks, done);
    var m := 0;
    while m < |cls.methods|
      invariant 0 <= m <= |cls.methods| && AreChunks(maxTokens, lines, WithClass(done, cls, m), more)
    {
      more := AddChunk(maxTokens, lines, MethodSymbol(cls, cls.methods[m]), more, WithClass(done, cls, m));
      m := m + 1;
    }
  }

  method AddFunctions(maxTokens: int, lines: seq<string>, defs: seq<Def>, chunks: seq<Chunk>, ghost done: seq<Symbol>)
    returns (more: seq<Chunk>)
    requires AreChunks(maxTokens, lines, done, chunks)
    ensures AreChunks(maxTokens, lines, WithFunctions(done, defs, |defs|), more)
  {
    more := chunks;
    var f := 0;
    while f < |defs|
      invariant 0 <= f <= |defs| && AreChunks(maxTokens, lines, WithFunctions(done, defs, f), more)
    {
      var symbol := Symbol(Function, defs[f].name, defs[f].line);
      more := AddChunk(maxTokens, lines, symbol, more, WithFunctions(done, defs, f));
      f := f + 1;
    }
  }

  /** One chunk per function, class and method whose line exists, in that order, each with its block
      and its context. */
  method ChunkFile(maxTokens: int, lines: seq<string>, index: FileIndex) returns (chunks: seq<Chunk>)
    ensures AreChunks(maxTokens, lines, Symbols(index), chunks)
  {
    chunks := AddFunctions(maxTokens, lines, index.functions, [], []);
    ghost var done := WithFunctions([], index.functions, |index.functions|);
    var k := 0;
    while k < |index.classes|
      invariant 0 <= k <= |index.classes|
      invariant AreChunks(maxTokens, lines, WithClasses(done, index.classes, k), chunks)
    {
      chunks := AddClass(maxTokens, lines, index.classes[k], chunks, WithClasses(done, index.classes, k));
      k := k + 1;
    }
  }

  // All can be told from the lines: after a deeper line below `inner`, a line overtakes.
  ghost predicate Straddles(lines: seq<string>, outer: int, inner: int)
    requires InRange(lines, outer) && InRange(lines, inner)
  {
    outer < inner
    && exists j, k ::
         && inner < j < k <= |lines| && !Blank(Line(lines, j)) && !Blank(Line(lines, k))
         && Indent(Line(lines, inner)) < Indent(Line(lines, k)) <= Indent(Line(lines, outer))
         && AllDeeper(lines, outer, k)
  }

  ghost predicate AllDeeper(lines: seq<string>, start: int, upTo: int)
    requires InRange(lines, start) && upTo <= |lines|
  {
    forall i | start < i < upTo :: Deeper(lines, start, i)
  }

  lemma StraddlesExactly(lines: seq<string>, outer: int, outerEnd: int, inner: int)
    requires InRange(lines, outer) && InRange(lines, inner) && outer < inner
    requires IsBlockEnd(lines, outer, outerEnd)
    ensures Straddles(lines, outer, inner)
       <==> inner <= outerEnd && exists k :: inner < k <= |lines| && Overtakes(lines, outer, inner, k)
  {
    if Straddles(lines, outer, inner) {
      var j, k :|
        && inner < j < k <= |lines| && !Blank(Line(lines, j)) && !Blank(Line(lines, k))
        && Indent(Line(lines, inner)) < Indent(Line(lines, k)) <= Indent(Line(lines, outer))
        && AllDeeper(lines, outer, k);
      ReachesDeeper(lines, outer, outerEnd, j);
      assert Overtakes(lines, outer, inner, k);
    }
    if inner <= outerEnd {
      if k :| inner < k <= |lines| && Overtakes(lines, outer, inner, k) {
        assert !Deeper(lines, outer, k) && Deeper(lines, outer, inner);
        assert inner < outerEnd < k;
        assert AllDeeper(lines, outer, k);
      }
    }
  }

  // Disjoint or nested.
  predicate Laminar(c: Chunk, d: Chunk) {
    || c.endLine < d.symbol.line || d.endLine < c.symbol.line
    || (c.symbol.line <= d.symbol.line && d.endLine <= c.endLine)
    || (d.symbol.line <= c.symbol.line && c.endLine <= d.endLine)
  }

  /** Any two chunks of a file have disjoint or nested line ranges if and only if neither start
      straddles the other's block. */
  lemma ChunksLaminarExactly(maxTokens: int, lines: seq<string>, c: Chunk, d: Chunk)
    requires IsChunk(maxTokens, lines, c) && IsChunk(maxTokens, lines, d)
    ensures Laminar(c, d)
       <==> !Straddles(lines, c.symbol.line, d.symbol.line) && !Straddles(lines, d.symbol.line, c.symbol.line)
  {
    if c.symbol.line < d.symbol.line {
      LaterChunk(maxTokens, lines, c, d);
    } else if d.symbol.line < c.symbol.line {
      LaterChunk(maxTokens, lines, d, c);
    } else {
      BlockEndUnique(lines, c.symbol.line, c.endLine, d.endLine);
    }
  }

  lemma LaterChunk(maxTokens: int, lines: seq<string>, c: Chunk, d: Chunk)
    requires IsChunk(maxTokens, lines, c) && IsChunk(maxTokens, lines, d) && c.symbol.line < d.symbol.line
    ensures Laminar(c, d) <==> !Straddles(lines, c.symbol.line, d.symbol.line)
  {
    StraddlesExactly(lines, c.symbol.line, c.endLine, d.symbol.line);
    if d.symbol.line <= c.endLine {
      InnerBlockEndsInsideExactly(lines, c.symbol.line, c.endLine, d.symbol.line, d.endLine);
    }
  }

  /** So it is enough that the later of them starts on a non-blank line: a method that starts inside
      its class then lies wholly inside it. */
  lemma ChunksAreLaminar(maxTokens: int, lines: seq<string>, c: Chunk, d: Chunk)
    requires IsChunk(maxTokens, lines, c) && IsChunk(maxTokens, lines, d)
    requires c.symbol.line < d.symbol.line ==> !Blank(Line(lines, d.symbol.line))
    requires d.symbol.line < c.symbol.line ==> !Blank(Line(lines, c.symbol.line))
    ensures Laminar(c, d)
  {
    if c.symbol.line < d.symbol.line {
      BlocksAreLaminar(lines, c.symbol.line, c.endLine, d.symbol.line, d.endLine);
    } else if d.symbol.line < c.symbol.line {
      BlocksAreLaminar(lines, d.symbol.line, d.endLine, c.symbol.line, c.endLine);
    } else {
      BlockEndUnique(lines, c.symbol.line, c.endLine, d.endLine);
    }
  }
}
