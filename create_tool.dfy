/** The scaffolding script scripts/create-tool.ts without its prompts and
    file-system calls: the `toCamelCase` pipeline, the tool-name check, the
    snake-case registration name, and the line editing of
    `updateToolsIndex`. */
module CreateTool {
  import opened Wrappers
  import opened Text

  /** `[a-z0-9]`. */
  predicate IsWordChar(c: char) { IsLowerAscii(c) || IsDigit(c) }

  /** `[a-zA-Z0-9]`. */
  predicate IsAsciiAlnum(c: char) { IsLowerAscii(c) || IsUpperAscii(c) || IsDigit(c) }

  predicate NotWhitespace(c: char) { !IsJsWhitespace(c) }

  /** `toLowerCase`, on ASCII letters. */
  function Lowered(s: string): (r: string)
    ensures |r| == |s|
  {
    if s == [] then [] else [ToLowerAscii(s[0])] + Lowered(s[1..])
  }

  lemma {:induction false} LoweredAt(s: string, i: nat)
    requires i < |s|
    ensures Lowered(s)[i] == ToLowerAscii(s[i])
    decreases i
  {
    if i > 0 {
      LoweredAt(s[1..], i - 1);
    }
  }

  lemma {:induction false} LoweredAppend(a: string, b: string)
    ensures Lowered(a + b) == Lowered(a) + Lowered(b)
    decreases |a|
  {
    if a != [] {
      assert (a + b)[1..] == a[1..] + b;
      assert (a + b)[0] == a[0];
      LoweredAppend(a[1..], b);
      calc {
        Lowered(a + b);
        [ToLowerAscii(a[0])] + Lowered(a[1..] + b);
        [ToLowerAscii(a[0])] + (Lowered(a[1..]) + Lowered(b));
        ([ToLowerAscii(a[0])] + Lowered(a[1..])) + Lowered(b);
        Lowered(a) + Lowered(b);
      }
    } else {
      assert a + b == b;
    }
  }

  /** The characters `[^a-z0-9\s]` matches. */
  predicate IsReplaced(c: char) { !IsWordChar(c) && !IsJsWhitespace(c) }

  /** What is left of `s` after its leading run of replaced characters. */
  function SkipReplaced(s: string): (r: string)
    ensures |r| <= |s| && r == s[|s| - |r|..]
    ensures r == [] || !IsReplaced(r[0])
    ensures forall k :: 0 <= k < |s| - |r| ==> IsReplaced(s[k])
  {
    if s != [] && IsReplaced(s[0]) then SkipReplaced(s[1..]) else s
  }

  /** `.replace(/[^a-z0-9\s]+/g, " ")`: each maximal run of replaced
      characters becomes one space. */
  function ReplaceRuns(s: string): (r: string)
    ensures s == [] <==> r == []
    ensures s != [] ==> (IsJsWhitespace(r[0]) <==> !IsWordChar(s[0]))
    decreases |s|
  {
    if s == [] then []
    else if IsReplaced(s[0]) then " " + ReplaceRuns(SkipReplaced(s[1..]))
    else [s[0]] + ReplaceRuns(s[1..])
  }

  /** The maximal runs of characters satisfying `inWord`, in order. With
      `NotWhitespace` this is `split(/\s+/).filter(Boolean)`: splitting at
      white-space runs leaves at most an empty piece at either end, and the
      filter drops those. */
  function Runs(s: string, inWord: char -> bool): (ws: seq<string>)
    ensures s != [] && inWord(s[0]) ==> |ws| >= 1 && ws[0] != [] && ws[0][0] == s[0]
    ensures forall i :: 0 <= i < |ws| ==> ws[i] != [] && forall k :: 0 <= k < |ws[i]| ==> inWord(ws[i][k])
  {
    if s == [] then []
    else
      var r := Runs(s[1..], inWord);
      if !inWord(s[0]) then r
      else if |s| > 1 && inWord(s[1]) then [[s[0]] + r[0]] + r[1..]
      else [[s[0]]] + r
  }

  /** A leading stretch of separators does not change the runs. */
  lemma {:induction false} RunsSkip(s: string, k: nat, inWord: char -> bool)
    requires k <= |s|
    requires forall i :: 0 <= i < k ==> !inWord(s[i])
    ensures Runs(s, inWord) == Runs(s[k..], inWord)
    decreases k
  {
    if k > 0 {
      RunsSkip(s[1..], k - 1, inWord);
      assert s[1..][k - 1..] == s[k..];
    }
  }

  /** A trailing stretch of separators does not change the runs. */
  lemma {:induction false} RunsTrailing(a: string, b: string, inWord: char -> bool)
    requires forall i :: 0 <= i < |b| ==> !inWord(b[i])
    ensures Runs(a + b, inWord) == Runs(a, inWord)
    decreases |a|
  {
    if a == [] {
      assert a + b == b;
      RunsSkip(b, |b|, inWord);
    } else {
      assert (a + b)[1..] == a[1..] + b;
      assert (a + b)[0] == a[0];
      RunsTrailing(a[1..], b, inWord);
      if |a| == 1 && |b| > 0 {
        assert (a + b)[1] == b[0];
      }
      if |a| > 1 {
        assert (a + b)[1] == a[1];
      }
    }
  }

  /** There are no runs exactly when no character belongs to one. */
  lemma {:induction false} RunsEmpty(s: string, inWord: char -> bool)
    ensures Runs(s, inWord) == [] <==> forall i :: 0 <= i < |s| ==> !inWord(s[i])
    decreases |s|
  {
    if s != [] {
      RunsEmpty(s[1..], inWord);
      assert forall i :: 1 <= i < |s| ==> s[i] == s[1..][i - 1];
    }
  }

  /** The first run starts with the first character that belongs to one. */
  lemma RunsHead(s: string, i: nat, inWord: char -> bool)
    requires i < |s| && inWord(s[i])
    requires forall j :: 0 <= j < i ==> !inWord(s[j])
    ensures Runs(s, inWord) != [] && Runs(s, inWord)[0][0] == s[i]
  {
    RunsSkip(s, i, inWord);
  }

  /** Trimming does not change the white-space-separated fields. */
  lemma TrimKeepsFields(s: string)
    ensures Runs(Trim(s), NotWhitespace) == Runs(s, NotWhitespace)
  {
    TrimStartKeepsFields(s);
    TrimEndKeepsFields(TrimStart(s));
  }

  lemma TrimStartKeepsFields(s: string)
    ensures Runs(TrimStart(s), NotWhitespace) == Runs(s, NotWhitespace)
  {
    TrimStartDropsLeadingWhitespace(s);
    RunsSkip(s, |s| - |TrimStart(s)|, NotWhitespace);
  }

  lemma TrimEndKeepsFields(t: string)
    ensures Runs(TrimEnd(t), NotWhitespace) == Runs(t, NotWhitespace)
  {
    var u := TrimEnd(t);
    TrimEndDropsTrailingWhitespace(t);
    assert t == u + t[|u|..];
    RunsTrailing(u, t[|u|..], NotWhitespace);
  }

  /** After the replacement, the white-space-separated fields of a string
      are its maximal `[a-z0-9]` runs: every other character separates. */
  lemma {:induction false} ReplaceRunsFields(t: string)
    ensures Runs(ReplaceRuns(t), NotWhitespace) == Runs(t, IsWordChar)
    decreases |t|
  {
    if t != [] {
      var r := ReplaceRuns(t);
      if IsReplaced(t[0]) {
        var u := SkipReplaced(t[1..]);
        ReplaceRunsFields(u);
        assert r[1..] == ReplaceRuns(u);
        RunsSkip(t, |t| - |u|, IsWordChar);
        assert t[|t| - |u|..] == u;
      } else {
        ReplaceRunsFields(t[1..]);
        assert r[1..] == ReplaceRuns(t[1..]);
        if |t| > 1 {
          assert |r| > 1;
          assert r[1] == ReplaceRuns(t[1..])[0];
        }
      }
    }
  }

  /** The words of `toCamelCase`: lower-case, replace, trim, split at white
      space and drop empty pieces. */
  function Words(input: string): seq<string>
  {
    Runs(Trim(ReplaceRuns(Lowered(input))), NotWhitespace)
  }

  /** The words are the maximal `[a-z0-9]` runs of the lower-cased input. */
  lemma WordsAreWordRuns(input: string)
    ensures Words(input) == Runs(Lowered(input), IsWordChar)
  {
    TrimKeepsFields(ReplaceRuns(Lowered(input)));
    ReplaceRunsFields(Lowered(input));
  }

  /** `w[0].toUpperCase() + w.slice(1)`; words are never empty. */
  function Capitalize(w: string): string
  {
    if w == [] then [] else [ToUpperAscii(w[0])] + w[1..]
  }

  /** Capitalizes every word, in place in the list. */
  function CapitalizeAll(ws: seq<string>): (r: seq<string>)
    ensures |r| == |ws|
    ensures forall i :: 0 <= i < |ws| ==> r[i] == Capitalize(ws[i])
  {
    if ws == [] then [] else [Capitalize(ws[0])] + CapitalizeAll(ws[1..])
  }

  /** `toCamelCase`: the first word as it is, then each later word with its
      first character upper-cased, all concatenated. */
  function ToCamelCase(input: string): string
  {
    var words := Words(input);
    if |words| == 0 then "" else words[0] + Join(CapitalizeAll(words[1..]), "")
  }

  predicate AllAlnum(s: string)
  {
    forall k :: 0 <= k < |s| ==> IsAsciiAlnum(s[k])
  }

  lemma {:induction false} JoinAllAlnum(ws: seq<string>)
    requires forall i :: 0 <= i < |ws| ==> AllAlnum(ws[i])
    ensures AllAlnum(Join(ws, ""))
    decreases |ws|
  {
    if |ws| > 1 {
      JoinAllAlnum(ws[1..]);
      assert Join(ws, "") == ws[0] + Join(ws[1..], "");
    }
  }

  /** Capitalizing keeps a word made of letters and digits so. */
  lemma CapitalizeAlnum(w: string)
    requires AllAlnum(w)
    ensures AllAlnum(Capitalize(w))
  {
    if w != [] {
      assert forall k :: 1 <= k < |w| ==> Capitalize(w)[k] == w[k];
    }
  }

  lemma CapitalizeAllAlnum(ws: seq<string>)
    requires forall i :: 0 <= i < |ws| ==> AllAlnum(ws[i])
    ensures forall i :: 0 <= i < |ws| ==> AllAlnum(CapitalizeAll(ws)[i])
  {
    forall i | 0 <= i < |ws|
      ensures AllAlnum(CapitalizeAll(ws)[i])
    {
      CapitalizeAlnum(ws[i]);
    }
  }

  /** The output of `toCamelCase` holds only ASCII letters and digits. */
  lemma CamelCaseIsAlnum(input: string)
    ensures AllAlnum(ToCamelCase(input))
  {
    var words := Words(input);
    WordsAreWordRuns(input);
    if words != [] {
      assert forall i :: 0 <= i < |words| ==> AllAlnum(words[i]);
      CapitalizeAllAlnum(words[1..]);
      JoinAllAlnum(CapitalizeAll(words[1..]));
      var tail := Join(CapitalizeAll(words[1..]), "");
      assert forall k :: |words[0]| <= k < |words[0] + tail| ==> (words[0] + tail)[k] == tail[k - |words[0]|];
    }
  }

  lemma LoweredWordChar(input: string, i: nat)
    requires i < |input|
    ensures IsWordChar(Lowered(input)[i]) <==> IsAsciiAlnum(input[i])
    ensures IsLowerAscii(Lowered(input)[i]) <==> IsLowerAscii(input[i]) || IsUpperAscii(input[i])
  {
    LoweredAt(input, i);
  }

  /** `toCamelCase` returns `""` exactly when the input has no ASCII letter
      or digit. */
  lemma CamelCaseEmpty(input: string)
    ensures ToCamelCase(input) == "" <==> forall i :: 0 <= i < |input| ==> !IsAsciiAlnum(input[i])
  {
    WordsAreWordRuns(input);
    RunsEmpty(Lowered(input), IsWordChar);
    forall i | 0 <= i < |input|
      ensures IsWordChar(Lowered(input)[i]) <==> IsAsciiAlnum(input[i])
    {
      LoweredWordChar(input, i);
    }
  }

  /** `toCamelCase` against its reference reading: the maximal `[a-z0-9]`
      runs of the lower-cased input, the first kept as it is and each later
      one with its first character upper-cased. */
  lemma CamelCaseOfRuns(input: string)
    ensures var runs := Runs(Lowered(input), IsWordChar);
      ToCamelCase(input) == if runs == [] then "" else runs[0] + Join(CapitalizeAll(runs[1..]), "")
  {
    WordsAreWordRuns(input);
  }

  /** The index of the first character satisfying `p`. */
  lemma FirstIndex(s: string, p: char -> bool) returns (i: nat)
    requires exists k :: 0 <= k < |s| && p(s[k])
    ensures i < |s| && p(s[i]) && forall j :: 0 <= j < i ==> !p(s[j])
  {
    i := 0;
    while !p(s[i])
      invariant i < |s|
      invariant forall j :: 0 <= j < i ==> !p(s[j])
      invariant exists k :: i <= k < |s| && p(s[k])
      decreases |s| - i
    {
      i := i + 1;
    }
  }

  const EmptyNameError: string := "Tool name cannot be empty"
  const InvalidNameError: string := "Tool name must be a valid lowerCamelCase identifier"

  /** `/^[a-z][a-zA-Z0-9]*$/`. */
  predicate IsValidToolName(name: string)
  {
    |name| >= 1 && IsLowerAscii(name[0]) && forall i :: 1 <= i < |name| ==> IsAsciiAlnum(name[i])
  }

  /** The two checks on the camel-cased name, in source order. */
  function CheckToolName(name: string): (r: Result<string, string>)
    ensures r.Success? <==> IsValidToolName(name)
    ensures r.Success? ==> r.value == name
    ensures name == "" ==> r == Failure(EmptyNameError)
    ensures name != "" && r.Failure? ==> r.error == InvalidNameError
  {
    if name == "" then Failure(EmptyNameError)
    else if !IsValidToolName(name) then Failure(InvalidNameError)
    else Success(name)
  }

  /** A camel-cased name is accepted exactly when the first ASCII letter or
      digit of the input is a letter: a name that would start with a digit
      is rejected. */
  lemma CamelCaseAccepted(input: string)
    ensures CheckToolName(ToCamelCase(input)).Success? <==>
      exists i :: 0 <= i < |input| && IsAsciiAlnum(input[i]) && !IsDigit(input[i])
        && forall j :: 0 <= j < i ==> !IsAsciiAlnum(input[j])
  {
    var camel := ToCamelCase(input);
    CamelCaseIsAlnum(input);
    CamelCaseEmpty(input);
    if camel != "" {
      var i := FirstIndex(input, IsAsciiAlnum);
      forall j | 0 <= j < i
        ensures !IsWordChar(Lowered(input)[j])
      {
        LoweredWordChar(input, j);
      }
      LoweredWordChar(input, i);
      RunsHead(Lowered(input), i, IsWordChar);
      WordsAreWordRuns(input);
      assert camel[0] == Lowered(input)[i];
      forall i' | 0 <= i' < |input| && IsAsciiAlnum(input[i'])
          && forall j :: 0 <= j < i' ==> !IsAsciiAlnum(input[j])
        ensures i' == i
      {
      }
    }
  }

  /** `toolName.replace(/([A-Z])/g, "_$1")`. */
  function Underscored(s: string): string
  {
    if s == [] then []
    else (if IsUpperAscii(s[0]) then ['_', s[0]] else [s[0]]) + Underscored(s[1..])
  }

  /** The registered name: underscores before capitals, then `toLowerCase`. */
  function SnakeName(name: string): string
  {
    Lowered(Underscored(name))
  }

  /** Reads a registered name back: `_x` becomes `X`. */
  function Unsnake(s: string): string
  {
    if s == [] then []
    else if s[0] == '_' && |s| > 1 then [ToUpperAscii(s[1])] + Unsnake(s[2..])
    else [s[0]] + Unsnake(s[1..])
  }

  /** The registered name has no upper-case letter. */
  lemma SnakeNameIsLower(name: string)
    ensures forall k :: 0 <= k < |SnakeName(name)| ==> !IsUpperAscii(SnakeName(name)[k])
  {
    forall k | 0 <= k < |SnakeName(name)|
      ensures !IsUpperAscii(SnakeName(name)[k])
    {
      LoweredAt(Underscored(name), k);
    }
  }

  /** For a name made of ASCII letters and digits, the rewrite loses
      nothing: reading the registered name back gives the tool name. */
  lemma {:induction false} SnakeNameRoundTrip(name: string)
    requires AllAlnum(name)
    ensures Unsnake(SnakeName(name)) == name
    decreases |name|
  {
    if name != [] {
      var c := name[0];
      var chunk := if IsUpperAscii(c) then ['_', c] else [c];
      assert Underscored(name) == chunk + Underscored(name[1..]);
      LoweredAppend(chunk, Underscored(name[1..]));
      var rest := SnakeName(name[1..]);
      assert SnakeName(name) == Lowered(chunk) + rest;
      SnakeNameRoundTrip(name[1..]);
      if IsUpperAscii(c) {
        assert Lowered(chunk) == ['_', ToLowerAscii(c)];
        var t := Lowered(chunk) + rest;
        assert t[2..] == rest;
        assert Unsnake(t) == [ToUpperAscii(ToLowerAscii(c))] + Unsnake(rest);
      } else {
        assert Lowered(chunk) == [c];
        var t := Lowered(chunk) + rest;
        assert t[1..] == rest;
        assert Unsnake(t) == [c] + Unsnake(rest);
      }
      assert name == [c] + name[1..];
    }
  }

  // ---- updateToolsIndex ----

  predicate AllWhitespace(s: string) { forall k :: 0 <= k < |s| ==> IsJsWhitespace(s[k]) }

  /** Text `.` matches throughout. */
  predicate NoLineTerminator(s: string) { forall k :: 0 <= k < |s| ==> !IsLineTerminator(s[k]) }

  predicate IsQuote(c: char) { c == '"' || c == '\'' }

  /** The part of the import pattern after `import\s`, matched against `t`
      with the white space before `from` at `a`, the opening quote at `b`
      and the closing quote at `e`. */
  predicate ImportAt(t: string, a: int, b: int, e: int)
  {
    && 8 <= a && a + 6 <= b && b + 2 <= e && e < |t|
    && NoLineTerminator(t[7..a])
    && IsJsWhitespace(t[a]) && t[a + 1..a + 5] == "from" && AllWhitespace(t[a + 5..b])
    && IsQuote(t[b]) && NoLineTerminator(t[b + 1..e]) && IsQuote(t[e])
    && (t[e + 1..] == "" || t[e + 1..] == ";")
  }

  /** `/^\s*import\s.+?\sfrom\s+["'].+["'];?$/` tested on `line.trim()`; the
      trimmed text does not start with white space, so `^\s*` matches
      nothing. */
  predicate IsImportLine(line: string)
  {
    ImportPattern(Trim(line))
  }

  predicate ImportPattern(t: string)
  {
    && |t| >= 7 && t[..6] == "import" && IsJsWhitespace(t[6])
    && exists a, b, e | 0 <= a < b < e < |t| :: ImportAt(t, a, b, e)
  }

  predicate ReturnStartAt(line: string, i: int, j: int)
  {
    0 <= i && i + 6 <= j < |line| && line[i..i + 6] == "return" && AllWhitespace(line[i + 6..j]) && line[j] == '['
  }

  // The pattern `return\s*\[\s*` found somewhere in the line (its trailing
  // white space can match nothing, so it does not constrain the line).
  predicate IsReturnStart(line: string)
  {
    exists i, j | 0 <= i < j < |line| :: ReturnStartAt(line, i, j)
  }

  predicate ReturnEndAt(line: string, i: int, j: int)
  {
    0 <= i < j < |line| && line[i] == ']' && AllWhitespace(line[i + 1..j]) && line[j] == ';'
  }

  // The pattern `\]\s*;` found somewhere in the line.
  predicate IsReturnEnd(line: string)
  {
    exists i, j | 0 <= i < j < |line| :: ReturnEndAt(line, i, j)
  }

  /** The last index whose line satisfies `p`, or -1. */
  function LastMatch(lines: seq<string>, p: string -> bool): (r: int)
    ensures -1 <= r < |lines|
    ensures r >= 0 ==> p(lines[r])
    ensures forall i :: r < i < |lines| ==> !p(lines[i])
  {
    if lines == [] then -1
    else if p(lines[|lines| - 1]) then |lines| - 1
    else LastMatch(lines[..|lines| - 1], p)
  }

  /** The first index at or after `from` whose line satisfies `p`, or -1. */
  function FirstFrom(lines: seq<string>, from: nat, p: string -> bool): (r: int)
    ensures r == -1 ==> forall i :: from <= i < |lines| ==> !p(lines[i])
    ensures r != -1 ==> from <= r < |lines| && p(lines[r]) && forall i :: from <= i < r ==> !p(lines[i])
    decreases |lines| - from
  {
    if from >= |lines| then -1
    else if p(lines[from]) then from
    else FirstFrom(lines, from + 1, p)
  }

  /** The index `arrayEndIndex` ends with: the first `];` line at or after
      the first `return [` line, or -1 when either is missing. */
  function ArrayEnd(lines: seq<string>): int
  {
    var start := FirstFrom(lines, 0, IsReturnStart);
    if start == -1 then -1 else FirstFrom(lines, start, IsReturnEnd)
  }

  function InsertAt(lines: seq<string>, k: nat, line: string): seq<string>
    requires k <= |lines|
  {
    lines[..k] + [line] + lines[k..]
  }

  /** `import { <name>Tool } from "./<name>";` and a newline, as one element
      of the line array. */
  function ImportLine(toolName: string): string
  {
    "import " + ImportBinding(toolName) + " from \"" + ImportPath(toolName) + "\";\n"
  }

  function ImportBinding(toolName: string): string { "{ " + toolName + "Tool }" }

  function ImportPath(toolName: string): string { "./" + toolName }

  /** The registration entry, indented by four spaces as it is spliced in. */
  function EntryLine(toolName: string): string
  {
    "    {\n      ..." + toolName + "Tool,\n"
    + "      " + LintSuppression + "\n"
    + "      handler: (args: any) => " + toolName + "Tool.handler(args),\n    },"
  }

  /** The linter suppression comment written above the handler of every entry. */
  const LintSuppression: string :=
    "// biome-ignore lint/suspicious/noExplicitAny: All tools validate their input schemas, so any is fine."

  const LocateError: string :=
    "Could not locate 'return [ ... ];' in createTools() function. "
    + "Please ensure the file structure matches the expected pattern."

  /** The lines after the import is spliced in after the last import line
      (or put first when there is none). */
  function WithImport(lines: seq<string>, toolName: string): seq<string>
  {
    InsertAt(lines, LastMatch(lines, IsImportLine) + 1, ImportLine(toolName))
  }

  /** The line editing of `updateToolsIndex`, on the lines of the index file. */
  function EditLines(lines: seq<string>, toolName: string): Result<seq<string>, string>
  {
    var withImport := WithImport(lines, toolName);
    var end := ArrayEnd(withImport);
    if end == -1 then Failure(LocateError) else Success(InsertAt(withImport, end, EntryLine(toolName)))
  }

  /** The `forEach` of `updateToolsIndex`: remember the index of every
      line matching the import pattern. */
  method FindLastImport(lines: seq<string>) returns (lastImportIndex: int)
    ensures lastImportIndex == LastMatch(lines, IsImportLine)
  {
    lastImportIndex := -1;
    var idx := 0;
    while idx < |lines|
      invariant 0 <= idx <= |lines|
      invariant lastImportIndex == LastMatch(lines[..idx], IsImportLine)
    {
      assert lines[..idx + 1][..idx] == lines[..idx];
      if IsImportLine(lines[idx]) {
        lastImportIndex := idx;
      }
      idx := idx + 1;
    }
    assert lines[..idx] == lines;
  }

  /** The `for` loop of `updateToolsIndex`: move the start to every
      `return [` line, and stop at the first `];` line once a start is
      known. */
  method LocateArray(lines: seq<string>) returns (arrayStartIndex: int, arrayEndIndex: int)
    ensures arrayEndIndex == ArrayEnd(lines)
    ensures arrayStartIndex == -1 ==> arrayEndIndex == -1
  {
    ghost var firstStart := FirstFrom(lines, 0, IsReturnStart);
    arrayStartIndex, arrayEndIndex := -1, -1;
    var i := 0;
    while i < |lines|
      invariant 0 <= i <= |lines|
      invariant arrayEndIndex == -1
      invariant arrayStartIndex == -1 <==> firstStart == -1 || i <= firstStart
      invariant firstStart != -1 ==> forall k :: firstStart <= k < i ==> !IsReturnEnd(lines[k])
    {
      if IsReturnStart(lines[i]) {
        arrayStartIndex := i;
      }
      if arrayStartIndex != -1 && IsReturnEnd(lines[i]) {
        arrayEndIndex := i;
        break;
      }
      i := i + 1;
    }
  }

  lemma EditLinesAt(lines: seq<string>, toolName: string, withImport: seq<string>, end: int)
    requires withImport == WithImport(lines, toolName)
    requires end == ArrayEnd(withImport)
    ensures end == -1 ==> EditLines(lines, toolName) == Failure(LocateError)
    ensures end != -1 ==> 0 <= end < |withImport| && EditLines(lines, toolName) == Success(InsertAt(withImport, end, EntryLine(toolName)))
  {
  }

  /** `updateToolsIndex` between reading and writing the file: split into
      lines, splice the import in after the last import line (or put it
      first), locate the array, splice the entry in before its closing
      line, join. On failure nothing is produced, so nothing is written. */
  method UpdateToolsIndex(contents: string, toolName: string) returns (r: Result<string, string>)
    ensures EditLines(Split(contents, '\n'), toolName).Failure? ==> r == Failure(LocateError)
    ensures EditLines(Split(contents, '\n'), toolName).Success? ==>
      r == Success(Join(EditLines(Split(contents, '\n'), toolName).value, "\n"))
  {
    var lines := Split(contents, '\n');
    var edited := EditIndexLines(lines, toolName);
    match edited {
      case Failure(e) => r := Failure(e);
      case Success(updated) => r := Success(Join(updated, "\n"));
    }
  }

  /** The line editing of `updateToolsIndex`: splice in the import, locate
      the array, and splice in the entry or fail. */
  method EditIndexLines(lines: seq<string>, toolName: string) returns (r: Result<seq<string>, string>)
    ensures r == EditLines(lines, toolName)
  {
    var withImport := SpliceImport(lines, toolName);
    var arrayStartIndex, arrayEndIndex := LocateArray(withImport);
    EditLinesAt(lines, toolName, withImport, arrayEndIndex);
    if arrayStartIndex == -1 || arrayEndIndex == -1 {
      return Failure(LocateError);
    }
    var edited := withImport[..arrayEndIndex] + [EntryLine(toolName)] + withImport[arrayEndIndex..];
    assert edited == InsertAt(withImport, arrayEndIndex, EntryLine(toolName));
    return Success(edited);
  }

  /** The `forEach` and the `splice`/`unshift` of `updateToolsIndex`: the
      import line goes right after the last import line, or first. */
  method SpliceImport(lines: seq<string>, toolName: string) returns (withImport: seq<string>)
    ensures withImport == WithImport(lines, toolName)
  {
    var lastImportIndex := FindLastImport(lines);
    if lastImportIndex >= 0 {
      withImport := lines[..lastImportIndex + 1] + [ImportLine(toolName)] + lines[lastImportIndex + 1..];
    } else {
      withImport := [ImportLine(toolName)] + lines;
    }
    assert withImport == InsertAt(lines, lastImportIndex + 1, ImportLine(toolName));
  }

  /** Splicing a line in after the last line satisfying `p`, or first when
      none does: the line lands right after that last match and every later
      original line fails `p`. */
  lemma InsertAfterLastMatch(lines: seq<string>, p: string -> bool, line: string)
    ensures var k := LastMatch(lines, p) + 1;
      var w := InsertAt(lines, k, line);
      && |w| == |lines| + 1 && w[k] == line
      && w[..k] == lines[..k] && w[k + 1..] == lines[k..]
      && (k == 0 <==> forall i :: 0 <= i < |lines| ==> !p(lines[i]))
      && (k > 0 ==> p(lines[k - 1]))
      && forall i :: k <= i < |lines| ==> !p(lines[i])
  {
    var k := LastMatch(lines, p) + 1;
    var w := InsertAt(lines, k, line);
    assert w[..k] == lines[..k];
    assert w[k + 1..] == lines[k..];
  }

  /** The import is spliced in right after the last line matching the
      import pattern, or first when no line matches. */
  lemma ImportPlacement(lines: seq<string>, toolName: string)
    ensures var k := LastMatch(lines, IsImportLine) + 1;
      var w := WithImport(lines, toolName);
      && |w| == |lines| + 1 && w[k] == ImportLine(toolName)
      && w[..k] == lines[..k] && w[k + 1..] == lines[k..]
      && (k == 0 <==> forall i :: 0 <= i < |lines| ==> !IsImportLine(lines[i]))
      && (k > 0 ==> IsImportLine(lines[k - 1]))
      && forall i :: k <= i < |lines| ==> !IsImportLine(lines[i])
  {
    InsertAfterLastMatch(lines, IsImportLine, ImportLine(toolName));
  }

  /** Some line satisfies `p` and it or a later line satisfies `q`. */
  predicate PairIn(lines: seq<string>, p: string -> bool, q: string -> bool)
  {
    exists i, j :: 0 <= i <= j < |lines| && p(lines[i]) && q(lines[j])
  }

  /** The array is found exactly when some `return [` line is followed, on
      it or later, by a `];` line; the entry then goes before the first `];`
      line at or after the first `return [` line. */
  lemma ArrayEndFound(lines: seq<string>)
    ensures ArrayEnd(lines) != -1 <==> PairIn(lines, IsReturnStart, IsReturnEnd)
    ensures var e := ArrayEnd(lines); var s := FirstFrom(lines, 0, IsReturnStart);
      e != -1 ==>
        && 0 <= s <= e < |lines| && IsReturnStart(lines[s]) && IsReturnEnd(lines[e])
        && (forall j :: 0 <= j < s ==> !IsReturnStart(lines[j]))
        && (forall j :: s <= j < e ==> !IsReturnEnd(lines[j]))
  {
    var s := FirstFrom(lines, 0, IsReturnStart);
    if exists i, j :: 0 <= i <= j < |lines| && IsReturnStart(lines[i]) && IsReturnEnd(lines[j]) {
      var i, j :| 0 <= i <= j < |lines| && IsReturnStart(lines[i]) && IsReturnEnd(lines[j]);
      assert s != -1 && s <= i;
      assert FirstFrom(lines, s, IsReturnEnd) != -1;
    }
  }

  /** `r` is `lines` with `u` added at position `p` and `v` at position `q`. */
  predicate TwoAdded(r: seq<string>, lines: seq<string>, p: nat, q: nat, u: string, v: string)
  {
    p < q < |r| && r[p] == u && r[q] == v && r[..p] + r[p + 1..q] + r[q + 1..] == lines
  }

  /** Reading the positions of `u` and `v` off an explicit five-part sequence. */
  lemma FiveParts(r: seq<string>, a: seq<string>, u: string, b: seq<string>, v: string, c: seq<string>)
    requires r == a + [u] + b + [v] + c
    ensures TwoAdded(r, a + b + c, |a|, |a| + 1 + |b|, u, v)
  {
    var p, q := |a|, |a| + 1 + |b|;
    assert r[..p] == a;
    assert r[p + 1..q] == b;
    assert r[q + 1..] == c;
  }

  /** Slicing a concatenation at the seam gives back its two parts. */
  lemma SliceAtSeam(a: seq<string>, b: seq<string>)
    ensures (a + b)[..|a|] == a && (a + b)[|a|..] == b
  {
  }

  /** Splicing `y` in at the seam of `a + b`. */
  lemma InsertAtSeam(a: seq<string>, b: seq<string>, y: string)
    ensures InsertAt(a + b, |a|, y) == a + [y] + b
  {
    SliceAtSeam(a, b);
  }

  /** A sequence is its three slices at `i <= j`, concatenated. */
  lemma ThreeSlices(lines: seq<string>, i: nat, j: nat)
    requires i <= j <= |lines|
    ensures lines == lines[..i] + lines[i..j] + lines[j..]
  {
  }

  /** Splicing `x` in at the first seam of `a + b + c`. */
  lemma InsertAtFirstSeam(a: seq<string>, b: seq<string>, c: seq<string>, x: string)
    ensures InsertAt(a + b + c, |a|, x) == a + [x] + b + c
  {
    assert a + b + c == a + (b + c);
    InsertAtSeam(a, b + c, x);
  }

  /** Splicing `y` in at the second seam of `a + b + c`. */
  lemma InsertAtSecondSeam(a: seq<string>, b: seq<string>, c: seq<string>, y: string)
    ensures InsertAt(a + b + c, |a| + |b|, y) == a + b + [y] + c
  {
    InsertAtSeam(a + b, c, y);
  }

  /** Splicing `x` in at `k` and then `y` in at `e <= k` puts `y` first. */
  lemma SpliceBefore(lines: seq<string>, k: nat, x: string, e: nat, y: string)
    requires e <= k <= |lines|
    ensures TwoAdded(InsertAt(InsertAt(lines, k, x), e, y), lines, e, k + 1, y, x)
  {
    var a, b, c := lines[..e], lines[e..k], lines[k..];
    ThreeSlices(lines, e, k);
    InsertAtSecondSeam(a, b, c, x);
    InsertAtFirstSeam(a, b + [x], c, y);
    assert a + [y] + (b + [x]) + c == a + [y] + b + [x] + c;
    FiveParts(InsertAt(InsertAt(lines, k, x), e, y), a, y, b, x, c);
  }

  /** Splicing `x` in at `k` and then `y` in at `e > k` puts `x` first. */
  lemma SpliceAfter(lines: seq<string>, k: nat, x: string, e: nat, y: string)
    requires k < e <= |lines| + 1
    ensures TwoAdded(InsertAt(InsertAt(lines, k, x), e, y), lines, k, e, x, y)
  {
    var a, b, c := lines[..k], lines[k..e - 1], lines[e - 1..];
    ThreeSlices(lines, k, e - 1);
    InsertAtFirstSeam(a, b, c, x);
    InsertAtSecondSeam(a + [x], b, c, y);
    FiveParts(InsertAt(InsertAt(lines, k, x), e, y), a, x, b, y, c);
  }

  /** Two splices leave the original lines in order: removing the two new
      elements gives them back. */
  lemma TwoInsertions(lines: seq<string>, k: nat, x: string, e: nat, y: string) returns (p: nat, q: nat)
    requires k <= |lines| && e <= |lines| + 1
    ensures var r := InsertAt(InsertAt(lines, k, x), e, y);
      |r| == |lines| + 2 && (TwoAdded(r, lines, p, q, x, y) || TwoAdded(r, lines, p, q, y, x))
  {
    if e <= k {
      SpliceBefore(lines, k, x, e, y);
      p, q := e, k + 1;
    } else {
      SpliceAfter(lines, k, x, e, y);
      p, q := k, e;
    }
  }

  /** On success the import line and the entry are the only change. */
  lemma TwoLinesInserted(lines: seq<string>, toolName: string)
    requires EditLines(lines, toolName).Success?
    ensures var r := EditLines(lines, toolName).value;
      && |r| == |lines| + 2
      && exists p, q :: TwoAdded(r, lines, p, q, ImportLine(toolName), EntryLine(toolName))
                     || TwoAdded(r, lines, p, q, EntryLine(toolName), ImportLine(toolName))
  {
    var k, e := EditedShape(lines, toolName);
    var p, q := TwoInsertions(lines, k, ImportLine(toolName), e, EntryLine(toolName));
  }

  /** A successful edit is two splices of the original lines. */
  lemma EditedShape(lines: seq<string>, toolName: string) returns (k: nat, e: nat)
    requires EditLines(lines, toolName).Success?
    ensures k <= |lines| && e <= |lines| + 1
    ensures EditLines(lines, toolName).value == InsertAt(InsertAt(lines, k, ImportLine(toolName)), e, EntryLine(toolName))
  {
    k := LastMatch(lines, IsImportLine) + 1;
    var w := WithImport(lines, toolName);
    var end := ArrayEnd(w);
    EditLinesAt(lines, toolName, w, end);
    e := end;
  }



  /** The text of the import line without its trailing newline. */
  lemma ImportLineText(toolName: string)
    ensures Trim(ImportLine(toolName)) == "import " + ImportBinding(toolName) + " from \"" + ImportPath(toolName) + "\";"
  {
    var u := "import " + ImportBinding(toolName) + " from \"" + ImportPath(toolName) + "\";";
    var t := ImportLine(toolName);
    assert t == u + "\n";
    assert t[0] == 'i';
    assert TrimStart(t) == t;
    assert t[..|t| - 1] == u;
    assert u[|u| - 1] == ';';
    assert TrimEnd(u) == u;
  }

  lemma ImportPatternOf(x: string, b: string)
    requires |x| >= 1 && |b| >= 1 && NoLineTerminator(x) && NoLineTerminator(b)
    ensures ImportPattern("import " + x + " from \"" + b + "\";")
  {
    var t := "import " + x + " from \"" + b + "\";";
    var a := 7 + |x|;
    var bq := a + 6;
    var e := bq + 1 + |b|;
    assert t[..6] == "import";
    assert t[6] == ' ';
    assert t[7..a] == x;
    assert t[a] == ' ';
    assert t[a + 1..a + 5] == "from";
    assert t[a + 5..bq] == " ";
    assert t[bq] == '"';
    assert t[bq + 1..e] == b;
    assert t[e] == '"';
    assert t[e + 1..] == ";";
    assert ImportAt(t, a, bq, e);
  }

  /** The generated import line matches the import pattern, so a later
      run puts its own import after it. */
  lemma ImportLineIsImport(toolName: string)
    requires AllAlnum(toolName)
    ensures IsImportLine(ImportLine(toolName))
  {
    ImportLineText(toolName);
    var x := ImportBinding(toolName);
    var b := ImportPath(toolName);
    assert NoLineTerminator(x) by {
      forall k | 0 <= k < |x|
        ensures !IsLineTerminator(x[k])
      {
        if 2 <= k < 2 + |toolName| {
          assert x[k] == toolName[k - 2];
        }
      }
    }
    assert NoLineTerminator(b) by {
      forall k | 0 <= k < |b|
        ensures !IsLineTerminator(b[k])
      {
        if 2 <= k {
          assert b[k] == toolName[k - 2];
        }
      }
    }
    ImportPatternOf(x, b);
  }

  /** Splicing in a line that satisfies neither predicate does not change
      whether a `p` line is followed by a `q` line. */
  lemma InsertNeutral(lines: seq<string>, k: nat, x: string, p: string -> bool, q: string -> bool)
    requires k <= |lines| && !p(x) && !q(x)
    ensures PairIn(InsertAt(lines, k, x), p, q) <==> PairIn(lines, p, q)
  {
    InsertKeepsPair(lines, k, x, p, q);
    InsertAddsNoPair(lines, k, x, p, q);
  }

  /** A pair of the original lines survives the splice, shifted past it. */
  lemma InsertKeepsPair(lines: seq<string>, k: nat, x: string, p: string -> bool, q: string -> bool)
    requires k <= |lines|
    ensures PairIn(lines, p, q) ==> PairIn(InsertAt(lines, k, x), p, q)
  {
    if PairIn(lines, p, q) {
      var i, j :| 0 <= i <= j < |lines| && p(lines[i]) && q(lines[j]);
      var i', j' := if i < k then i else i + 1, if j < k then j else j + 1;
      InsertAtIndex(lines, k, x, i');
      InsertAtIndex(lines, k, x, j');
      assert p(InsertAt(lines, k, x)[i']) && q(InsertAt(lines, k, x)[j']);
    }
  }

  /** A spliced-in line satisfying neither predicate creates no new pair. */
  lemma InsertAddsNoPair(lines: seq<string>, k: nat, x: string, p: string -> bool, q: string -> bool)
    requires k <= |lines| && !p(x) && !q(x)
    ensures PairIn(InsertAt(lines, k, x), p, q) ==> PairIn(lines, p, q)
  {
    var w := InsertAt(lines, k, x);
    if PairIn(w, p, q) {
      var i, j :| 0 <= i <= j < |w| && p(w[i]) && q(w[j]);
      InsertAtIndex(lines, k, x, i);
      InsertAtIndex(lines, k, x, j);
      var i', j' := if i < k then i else i - 1, if j < k then j else j - 1;
      assert p(lines[i']) && q(lines[j']);
    }
  }

  /** What sits at index `i` after splicing `x` in at `k`. */
  lemma InsertAtIndex(lines: seq<string>, k: nat, x: string, i: nat)
    requires k <= |lines| && i <= |lines|
    ensures InsertAt(lines, k, x)[i] == if i < k then lines[i] else if i == k then x else lines[i - 1]
  {
  }

  /** The import line contains no bracket, so it is neither a `return [`
      line nor a `];` line. */
  lemma ImportLineNeutral(toolName: string)
    requires AllAlnum(toolName)
    ensures !IsReturnStart(ImportLine(toolName)) && !IsReturnEnd(ImportLine(toolName))
  {
    var line := ImportLine(toolName);
    assert '[' !in toolName && ']' !in toolName by {
      forall k | 0 <= k < |toolName|
        ensures toolName[k] != '[' && toolName[k] != ']'
      {
        assert IsAsciiAlnum(toolName[k]);
      }
    }
    assert '[' !in line && ']' !in line;
  }

  /** For a name of ASCII letters and digits the edit succeeds exactly when
      the original lines hold a `return [` line followed, on it or later, by
      a `];` line: the spliced-in import never matters. */
  lemma EditSucceedsOnOriginalLines(lines: seq<string>, toolName: string)
    requires AllAlnum(toolName)
    ensures EditLines(lines, toolName).Success? <==> PairIn(lines, IsReturnStart, IsReturnEnd)
  {
    var k := LastMatch(lines, IsImportLine) + 1;
    var w := WithImport(lines, toolName);
    assert w == InsertAt(lines, k, ImportLine(toolName));
    EditLinesAt(lines, toolName, w, ArrayEnd(w));
    ArrayEndFound(w);
    ImportLineNeutral(toolName);
    InsertNeutral(lines, k, ImportLine(toolName), IsReturnStart, IsReturnEnd);
  }
}
