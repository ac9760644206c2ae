/**
 * The design-token lint of the frontend: every line of a stylesheet or component
 * is searched with the hard-coded-value patterns of three categories (colors,
 * spacing, shadows). A match is reported unless the text before it shows an
 * allowed context (a CSS variable, a comment opener, a token or test or mock
 * name) or the whole line is a comment.
 *
 * The regular expressions themselves are not modelled: `find(line, pattern)`
 * stands for `line.matchAll(pattern)` and yields each match's UTF-16 index and
 * text, in order.
 */
module DesignTokens {
  import opened JsString
  import opened ScriptText

  /** The eleven hard-coded-value patterns, named after what they detect. */
  datatype Pattern =
    | HexColor | RgbColor | RgbaColor | HslColor | HslaColor | NamedColor
    | Pixels | Rem | Em
    | BoxShadow | DropShadow

  /** A category of the pattern table and its patterns, in order. */
  datatype Category = Category(name: string, patterns: seq<Pattern>)

  /** The pattern table in declaration order. */
  const Categories: seq<Category> := [
    Category("colors", [HexColor, RgbColor, RgbaColor, HslColor, HslaColor, NamedColor]),
    Category("spacing", [Pixels, Rem, Em]),
    Category("shadows", [BoxShadow, DropShadow])
  ]

  /** Path fragments that exclude a file or directory from the scan. */
  const IgnorePatterns: seq<string> :=
    ["node_modules", "dist", "build", "coverage", ".test.", ".spec.", "design-tokens.css", "test"]

  /** Fragments whose presence before a match excuses it. */
  const AllowedContexts: seq<string> :=
    ["var(--", "hsl(var(", "rgba(var(", "//", "/*", "design-tokens", "test", "mock"]

  /** One result of `matchAll`: where the match starts (in UTF-16 code units) and its text. */
  datatype Match = Match(index: nat, text: string)

  /** One reported hard-coded value. */
  datatype Issue = Issue(file: string, line: nat, category: string, found: string, context: string)

  /** A path is skipped exactly when one of the fragments occurs in it. */
  function ShouldIgnoreFile(path: string): (ignored: bool)
    ensures ignored <==> exists k, j :: 0 <= k < |IgnorePatterns| && OccursAt(path, IgnorePatterns[k], j)
  {
    forall k | 0 <= k < |IgnorePatterns| {
      ContainsIff(path, IgnorePatterns[k]);
    }
    ContainsAny(path, IgnorePatterns)
  }

  /** `isAllowedContext(line, match)`: the line up to the match contains an allowed fragment. */
  predicate IsAllowedContext(line: string, index: nat) {
    ContainsAny(Prefix(line, index), AllowedContexts)
  }

  /** The excuse holds exactly when an allowed fragment occurs somewhere in the text before the match. */
  lemma AllowedContextIff(line: string, index: nat)
    ensures IsAllowedContext(line, index) <==>
      exists k, j :: 0 <= k < |AllowedContexts| && OccursAt(Prefix(line, index), AllowedContexts[k], j)
  {
    var before := Prefix(line, index);
    ContainsAnyIff(before, AllowedContexts);
    if IsAllowedContext(line, index) {
      var k, j :| 0 <= k < |AllowedContexts| && OccursAt(before, AllowedContexts[k], j);
      assert OccursAt(Prefix(line, index), AllowedContexts[k], j);
      assert exists k', j' :: 0 <= k' < |AllowedContexts| && OccursAt(Prefix(line, index), AllowedContexts[k'], j');
    }
  }

  /** Once the text before a match excuses it, every later match on the line is excused too. */
  lemma AllowedContextPersists(line: string, i: nat, j: nat)
    requires i <= j && IsAllowedContext(line, i)
    ensures IsAllowedContext(line, j)
  {
    var a, b := Prefix(line, i), Prefix(line, j);
    PrefixGrows(line, i, j);
    assert b == a + b[|a|..];
    ContainsAnyExtends(a, b[|a|..], AllowedContexts);
  }

  // ---------------------------------------------------------------- issues

  /** A match survives both filters: no allowed context before it, and the line is not a comment. */
  predicate Kept(line: string, m: Match) {
    !IsAllowedContext(line, m.index) && !CommentLine(line)
  }

  /** The issues for the matches `ms` of one pattern, on the line with index `n`. */
  function MatchIssues(file: string, n: nat, line: string, quote: string, category: string, ms: seq<Match>): seq<Issue> {
    if ms == [] then []
    else
      (if Kept(line, ms[0]) then [Issue(file, n + 1, category, ms[0].text, quote)] else []) +
      MatchIssues(file, n, line, quote, category, ms[1..])
  }

  /** The issues of the patterns of `c` from index `p` on. */
  function PatternsFrom(file: string, n: nat, line: string, quote: string, c: Category,
                        find: (string, Pattern) -> seq<Match>, p: nat): seq<Issue>
    decreases |c.patterns| - p
  {
    if p >= |c.patterns| then []
    else MatchIssues(file, n, line, quote, c.name, find(line, c.patterns[p])) + PatternsFrom(file, n, line, quote, c, find, p + 1)
  }

  /** The issues of the categories from index `k` on. */
  function CategoriesFrom(file: string, n: nat, line: string, quote: string, cats: seq<Category>,
                          find: (string, Pattern) -> seq<Match>, k: nat): seq<Issue>
    decreases |cats| - k
  {
    if k >= |cats| then []
    else PatternsFrom(file, n, line, quote, cats[k], find, 0) + CategoriesFrom(file, n, line, quote, cats, find, k + 1)
  }

  /** The issues of the lines from index `n` on, in line order. */
  function LinesFrom(file: string, lines: seq<string>, cats: seq<Category>,
                     find: (string, Pattern) -> seq<Match>, n: nat): seq<Issue>
    decreases |lines| - n
  {
    if n >= |lines| then []
    else CategoriesFrom(file, n, lines[n], Quote(lines[n]), cats, find, 0) + LinesFrom(file, lines, cats, find, n + 1)
  }

  /** `checkFile` on a file's text, with `file` already relative to the source directory. */
  function FileIssues(content: string, file: string, find: (string, Pattern) -> seq<Match>): seq<Issue> {
    LinesFrom(file, Split(content, '\n'), Categories, find, 0)
  }

  // ---------------------------------------------------------------- soundness

  /** What an issue raised on the line with index `n` says about a kept match. */
  predicate IssueOf(issue: Issue, file: string, n: nat, line: string, quote: string, cats: seq<Category>,
                    find: (string, Pattern) -> seq<Match>) {
    issue.file == file && issue.line == n + 1 && issue.context == quote &&
    exists k, p, m :: 0 <= k < |cats| && 0 <= p < |cats[k].patterns| && m in find(line, cats[k].patterns[p]) &&
      issue.category == cats[k].name && issue.found == m.text && Kept(line, m)
  }

  lemma {:induction false} MatchIssuesSound(file: string, n: nat, line: string, quote: string, cats: seq<Category>,
                                            find: (string, Pattern) -> seq<Match>, k: nat, p: nat, ms: seq<Match>)
    requires 0 <= k < |cats| && 0 <= p < |cats[k].patterns|
    requires forall m :: m in ms ==> m in find(line, cats[k].patterns[p])
    ensures forall issue :: issue in MatchIssues(file, n, line, quote, cats[k].name, ms) ==>
      IssueOf(issue, file, n, line, quote, cats, find)
  {
    if ms != [] {
      MatchIssuesSound(file, n, line, quote, cats, find, k, p, ms[1..]);
      var head := if Kept(line, ms[0]) then [Issue(file, n + 1, cats[k].name, ms[0].text, quote)] else [];
      assert MatchIssues(file, n, line, quote, cats[k].name, ms) == head + MatchIssues(file, n, line, quote, cats[k].name, ms[1..]);
      if Kept(line, ms[0]) {
        var m := ms[0];
        assert m in ms;
        assert 0 <= k < |cats| && 0 <= p < |cats[k].patterns| && m in find(line, cats[k].patterns[p]) &&
          head[0].category == cats[k].name && head[0].found == m.text && Kept(line, m);
        assert IssueOf(head[0], file, n, line, quote, cats, find);
      }
    }
  }

  lemma {:induction false} PatternsFromSound(file: string, n: nat, line: string, quote: string, cats: seq<Category>,
                                             find: (string, Pattern) -> seq<Match>, k: nat, p: nat)
    requires 0 <= k < |cats|
    decreases |cats[k].patterns| - p
    ensures forall issue :: issue in PatternsFrom(file, n, line, quote, cats[k], find, p) ==>
      IssueOf(issue, file, n, line, quote, cats, find)
  {
    if p < |cats[k].patterns| {
      MatchIssuesSound(file, n, line, quote, cats, find, k, p, find(line, cats[k].patterns[p]));
      PatternsFromSound(file, n, line, quote, cats, find, k, p + 1);
    }
  }

  lemma {:induction false} CategoriesFromSound(file: string, n: nat, line: string, quote: string, cats: seq<Category>,
                                               find: (string, Pattern) -> seq<Match>, k: nat)
    decreases |cats| - k
    ensures forall issue :: issue in CategoriesFrom(file, n, line, quote, cats, find, k) ==>
      IssueOf(issue, file, n, line, quote, cats, find)
  {
    if k < |cats| {
      PatternsFromSound(file, n, line, quote, cats, find, k, 0);
      CategoriesFromSound(file, n, line, quote, cats, find, k + 1);
    }
  }

  /**
   * Every issue names an existing line that is not a comment, quotes it, and
   * reports the text of a match of one of the category's patterns that no allowed
   * context precedes.
   */
  lemma {:induction false} LinesFromSound(file: string, lines: seq<string>, cats: seq<Category>,
                                          find: (string, Pattern) -> seq<Match>, n: nat)
    decreases |lines| - n
    ensures forall issue :: issue in LinesFrom(file, lines, cats, find, n) ==>
      n < issue.line <= |lines| && !CommentLine(lines[issue.line - 1]) &&
      IssueOf(issue, file, issue.line - 1, lines[issue.line - 1], Quote(lines[issue.line - 1]), cats, find)
  {
    if n < |lines| {
      var head := CategoriesFrom(file, n, lines[n], Quote(lines[n]), cats, find, 0);
      var rest := LinesFrom(file, lines, cats, find, n + 1);
      CategoriesFromSound(file, n, lines[n], Quote(lines[n]), cats, find, 0);
      LinesFromSound(file, lines, cats, find, n + 1);
      forall issue: Issue | issue in head + rest
        ensures n < issue.line <= |lines| && !CommentLine(lines[issue.line - 1]) &&
          IssueOf(issue, file, issue.line - 1, lines[issue.line - 1], Quote(lines[issue.line - 1]), cats, find)
      {
        if issue in head {
          assert IssueOf(issue, file, n, lines[n], Quote(lines[n]), cats, find);
          var k, p, m :| 0 <= k < |cats| && 0 <= p < |cats[k].patterns| && m in find(lines[n], cats[k].patterns[p]) &&
            issue.category == cats[k].name && issue.found == m.text && Kept(lines[n], m);
        }
      }
    }
  }

  // ---------------------------------------------------------------- completeness

  lemma {:induction false} MatchIssuesComplete(file: string, n: nat, line: string, quote: string, category: string,
                                               ms: seq<Match>, m: Match)
    requires m in ms && Kept(line, m)
    ensures Issue(file, n + 1, category, m.text, quote) in MatchIssues(file, n, line, quote, category, ms)
  {
    var head := if Kept(line, ms[0]) then [Issue(file, n + 1, category, ms[0].text, quote)] else [];
    assert MatchIssues(file, n, line, quote, category, ms) == head + MatchIssues(file, n, line, quote, category, ms[1..]);
    if ms[0] != m {
      MatchIssuesComplete(file, n, line, quote, category, ms[1..], m);
    } else {
      assert head[0] == Issue(file, n + 1, category, m.text, quote);
    }
  }

  lemma {:induction false} PatternsFromComplete(file: string, n: nat, line: string, quote: string, c: Category,
                                                find: (string, Pattern) -> seq<Match>, p: nat, q: nat, m: Match)
    requires p <= q < |c.patterns| && m in find(line, c.patterns[q]) && Kept(line, m)
    decreases q - p
    ensures Issue(file, n + 1, c.name, m.text, quote) in PatternsFrom(file, n, line, quote, c, find, p)
  {
    var here := MatchIssues(file, n, line, quote, c.name, find(line, c.patterns[p]));
    assert PatternsFrom(file, n, line, quote, c, find, p) == here + PatternsFrom(file, n, line, quote, c, find, p + 1);
    if p < q {
      PatternsFromComplete(file, n, line, quote, c, find, p + 1, q, m);
    } else {
      MatchIssuesComplete(file, n, line, quote, c.name, find(line, c.patterns[p]), m);
    }
  }

  lemma {:induction false} CategoriesFromComplete(file: string, n: nat, line: string, quote: string, cats: seq<Category>,
                                                  find: (string, Pattern) -> seq<Match>, k: nat, a: nat, q: nat, m: Match)
    requires k <= a < |cats| && q < |cats[a].patterns| && m in find(line, cats[a].patterns[q]) && Kept(line, m)
    decreases a - k
    ensures Issue(file, n + 1, cats[a].name, m.text, quote) in CategoriesFrom(file, n, line, quote, cats, find, k)
  {
    var here := PatternsFrom(file, n, line, quote, cats[k], find, 0);
    assert CategoriesFrom(file, n, line, quote, cats, find, k) == here + CategoriesFrom(file, n, line, quote, cats, find, k + 1);
    if k < a {
      CategoriesFromComplete(file, n, line, quote, cats, find, k + 1, a, q, m);
    } else {
      PatternsFromComplete(file, n, line, quote, cats[a], find, 0, q, m);
    }
  }

  /** Every match of every pattern on a line that is not a comment, with no allowed context before it, is reported. */
  lemma {:induction false} LinesFromComplete(file: string, lines: seq<string>, cats: seq<Category>,
                                             find: (string, Pattern) -> seq<Match>, n: nat, i: nat, a: nat, q: nat, m: Match)
    requires n <= i < |lines| && a < |cats| && q < |cats[a].patterns|
    requires m in find(lines[i], cats[a].patterns[q]) && Kept(lines[i], m)
    decreases i - n
    ensures Issue(file, i + 1, cats[a].name, m.text, Quote(lines[i])) in LinesFrom(file, lines, cats, find, n)
  {
    var here := CategoriesFrom(file, n, lines[n], Quote(lines[n]), cats, find, 0);
    assert LinesFrom(file, lines, cats, find, n) == here + LinesFrom(file, lines, cats, find, n + 1);
    if n < i {
      LinesFromComplete(file, lines, cats, find, n + 1, i, a, q, m);
    } else {
      CategoriesFromComplete(file, n, lines[n], Quote(lines[n]), cats, find, 0, a, q, m);
    }
  }

  // ---------------------------------------------------------------- order

  /** Every issue of `r` names line `m`. */
  predicate OnLine(r: seq<Issue>, m: nat) {
    forall k :: 0 <= k < |r| ==> r[k].line == m
  }

  /** Every issue of `r` names a line after `m`. */
  predicate AfterLine(r: seq<Issue>, m: nat) {
    forall k :: 0 <= k < |r| ==> r[k].line > m
  }

  /** The lines `r` names never decrease. */
  predicate LineOrdered(r: seq<Issue>) {
    forall a, b :: 0 <= a < b < |r| ==> r[a].line <= r[b].line
  }

  lemma {:induction false} CategoriesFromOnLine(file: string, n: nat, line: string, quote: string, cats: seq<Category>,
                                                find: (string, Pattern) -> seq<Match>, k: nat)
    decreases |cats| - k
    ensures OnLine(CategoriesFrom(file, n, line, quote, cats, find, k), n + 1)
  {
    CategoriesFromSound(file, n, line, quote, cats, find, k);
    var r := CategoriesFrom(file, n, line, quote, cats, find, k);
    forall j | 0 <= j < |r| ensures r[j].line == n + 1 {
      assert r[j] in r;
    }
  }

  lemma ConcatOrdered(head: seq<Issue>, rest: seq<Issue>, m: nat)
    requires OnLine(head, m + 1) && AfterLine(rest, m + 1) && LineOrdered(rest)
    ensures AfterLine(head + rest, m) && LineOrdered(head + rest)
  {
    var r := head + rest;
    forall a, b | 0 <= a < b < |r| ensures r[a].line <= r[b].line {
      if b < |head| {
        assert r[a] == head[a] && r[b] == head[b];
      } else if a < |head| {
        assert r[a] == head[a] && r[b] == rest[b - |head|];
      } else {
        assert r[a] == rest[a - |head|] && r[b] == rest[b - |head|];
      }
    }
    forall k | 0 <= k < |r| ensures r[k].line > m {
      if k < |head| {
        assert r[k] == head[k];
      } else {
        assert r[k] == rest[k - |head|];
      }
    }
  }

  /** Issues come in line order. */
  lemma {:induction false} LinesFromOrdered(file: string, lines: seq<string>, cats: seq<Category>,
                                            find: (string, Pattern) -> seq<Match>, n: nat)
    decreases |lines| - n
    ensures AfterLine(LinesFrom(file, lines, cats, find, n), n) && LineOrdered(LinesFrom(file, lines, cats, find, n))
  {
    if n < |lines| {
      LinesFromOrdered(file, lines, cats, find, n + 1);
      CategoriesFromOnLine(file, n, lines[n], Quote(lines[n]), cats, find, 0);
      ConcatOrdered(CategoriesFrom(file, n, lines[n], Quote(lines[n]), cats, find, 0), LinesFrom(file, lines, cats, find, n + 1), n);
    }
  }

  /**
   * `checkFile` over a whole file: each issue is a kept match on a non-comment
   * line, each kept match is an issue, and issues come in line order.
   */
  lemma FileIssuesProperties(content: string, file: string, find: (string, Pattern) -> seq<Match>)
    ensures var lines := Split(content, '\n');
      var r := FileIssues(content, file, find);
      (forall issue :: issue in r ==>
        1 <= issue.line <= |lines| && !CommentLine(lines[issue.line - 1]) &&
        IssueOf(issue, file, issue.line - 1, lines[issue.line - 1], Quote(lines[issue.line - 1]), Categories, find)) &&
      (forall i, a, q, m ::
        (0 <= i < |lines| && 0 <= a < |Categories| && 0 <= q < |Categories[a].patterns| &&
         m in find(lines[i], Categories[a].patterns[q]) && Kept(lines[i], m)) ==>
        Issue(file, i + 1, Categories[a].name, m.text, Quote(lines[i])) in r) &&
      LineOrdered(r)
  {
    var lines := Split(content, '\n');
    LinesFromSound(file, lines, Categories, find, 0);
    LinesFromOrdered(file, lines, Categories, find, 0);
    forall i, a, q, m | 0 <= i < |lines| && 0 <= a < |Categories| && 0 <= q < |Categories[a].patterns| &&
      m in find(lines[i], Categories[a].patterns[q]) && Kept(lines[i], m)
      ensures Issue(file, i + 1, Categories[a].name, m.text, Quote(lines[i])) in FileIssues(content, file, find)
    {
      LinesFromComplete(file, lines, Categories, find, 0, i, a, q, m);
    }
  }

  // ---------------------------------------------------------------- the scanner

  /** The matches of one pattern: each kept match is pushed. */
  method ScanMatches(file: string, n: nat, line: string, quote: string, category: string, ms: seq<Match>)
    returns (issues: seq<Issue>)
    ensures issues == MatchIssues(file, n, line, quote, category, ms)
  {
    issues := [];
    var j := 0;
    while j < |ms|
      invariant j <= |ms|
      invariant issues + MatchIssues(file, n, line, quote, category, ms[j..]) == MatchIssues(file, n, line, quote, category, ms)
      decreases |ms| - j
    {
      var m := ms[j];
      var pushed := if Kept(line, m) then [Issue(file, n + 1, category, m.text, quote)] else [];
      var later := MatchIssues(file, n, line, quote, category, ms[j + 1..]);
      assert ms[j..][1..] == ms[j + 1..];
      assert MatchIssues(file, n, line, quote, category, ms[j..]) == pushed + later;
      AppendAssociative(issues, pushed, later);
      issues := issues + pushed;
      j := j + 1;
    }
    assert ms[j..] == [];
    assert issues + [] == issues;
  }

  /** The patterns of one category, in order. */
  method ScanCategory(file: string, n: nat, line: string, quote: string, c: Category, find: (string, Pattern) -> seq<Match>)
    returns (issues: seq<Issue>)
    ensures issues == PatternsFrom(file, n, line, quote, c, find, 0)
  {
    issues := [];
    var p := 0;
    while p < |c.patterns|
      invariant p <= |c.patterns|
      invariant issues + PatternsFrom(file, n, line, quote, c, find, p) == PatternsFrom(file, n, line, quote, c, find, 0)
      decreases |c.patterns| - p
    {
      var found := ScanMatches(file, n, line, quote, c.name, find(line, c.patterns[p]));
      AppendAssociative(issues, found, PatternsFrom(file, n, line, quote, c, find, p + 1));
      issues := issues + found;
      p := p + 1;
    }
    assert issues + [] == issues;
  }

  /** One line: each category in order, each quoting the trimmed line. */
  method ScanLine(file: string, n: nat, line: string, cats: seq<Category>, find: (string, Pattern) -> seq<Match>)
    returns (issues: seq<Issue>)
    ensures issues == CategoriesFrom(file, n, line, Quote(line), cats, find, 0)
  {
    var quote := Quote(line);
    issues := [];
    var k := 0;
    while k < |cats|
      invariant k <= |cats|
      invariant issues + CategoriesFrom(file, n, line, quote, cats, find, k) == CategoriesFrom(file, n, line, quote, cats, find, 0)
      decreases |cats| - k
    {
      var found := ScanCategory(file, n, line, quote, cats[k], find);
      AppendAssociative(issues, found, CategoriesFrom(file, n, line, quote, cats, find, k + 1));
      issues := issues + found;
      k := k + 1;
    }
    assert issues + [] == issues;
  }

  /** `checkFile`: the nested loops over lines, categories, patterns and matches. */
  method CheckFile(content: string, file: string, find: (string, Pattern) -> seq<Match>) returns (issues: seq<Issue>)
    ensures issues == FileIssues(content, file, find)
  {
    var lines := Split(content, '\n');
    issues := [];
    var n := 0;
    while n < |lines|
      invariant n <= |lines|
      invariant issues + LinesFrom(file, lines, Categories, find, n) == LinesFrom(file, lines, Categories, find, 0)
      decreases |lines| - n
    {
      var found := ScanLine(file, n, lines[n], Categories, find);
      AppendAssociative(issues, found, LinesFrom(file, lines, Categories, find, n + 1));
      issues := issues + found;
      n := n + 1;
    }
    assert issues + [] == issues;
  }
}
