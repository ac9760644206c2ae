/**
 * The ubiquitous-language lint: every source line that is not a comment is
 * searched, term by term, for the generic words the domain vocabulary replaces,
 * with the case-insensitive whole-word pattern `\bterm\b` and the global flag.
 * Each match becomes an issue naming the line, the text matched, the domain terms
 * to use instead and the quoted line.
 */
module LintLanguage {
  import opened JsString
  import opened ScriptText

  /** An entry of the forbidden-term table: the generic term and the domain terms that replace it. */
  datatype Term = Term(name: string, alternatives: seq<string>)

  /** The forbidden terms, in the table's declaration order. */
  const TermNames: seq<string> := [
    "query", "processQuery", "runQuery", "model", "AI model", "chat", "chat message",
    "discussion", "conversation", "summary", "create summary", "reference", "citation",
    "link", "response", "output", "phase", "step", "stage", "job", "task", "request",
    "input", "prompt", "analysis", "investigation"
  ]

  /** The domain terms to use instead, entry by entry. */
  const TermAlternatives: seq<seq<string>> := [
    ["research", "question"], ["startResearch"], ["startResearch"], ["agent"], ["agent"],
    ["debate"], ["agent message", "message"], ["debate"], ["debate"], ["synthesis"],
    ["synthesize"], ["source"], ["source"], ["source"], ["message", "answer"],
    ["message", "answer"], ["round"], ["round"], ["round"], ["session"], ["session"],
    ["session"], ["question"], ["question"], ["research"], ["research"]
  ]

  /** Pairs each term with its alternatives. */
  function Entries(names: seq<string>, alternatives: seq<seq<string>>): (terms: seq<Term>)
    requires |names| == |alternatives|
    ensures |terms| == |names|
    ensures forall k :: 0 <= k < |terms| ==> terms[k] == Term(names[k], alternatives[k])
  {
    if names == [] then [] else [Term(names[0], alternatives[0])] + Entries(names[1..], alternatives[1..])
  }

  /** The forbidden-term table, in its declaration order. */
  const ForbiddenTerms: seq<Term> := Entries(TermNames, TermAlternatives)

  /** Path fragments that exclude a file or directory from the scan. */
  const IgnorePatterns: seq<string> :=
    ["node_modules", "dist", "build", "coverage", ".test.", ".spec.", "ubiquitousLanguage.ts", "test", "scripts"]

  /** A path is skipped exactly when one of the fragments occurs in it. */
  function ShouldIgnoreFile(path: string): (ignored: bool)
    ensures ignored <==> exists k, j :: 0 <= k < |IgnorePatterns| && OccursAt(path, IgnorePatterns[k], j)
  {
    forall k | 0 <= k < |IgnorePatterns| {
      ContainsIff(path, IgnorePatterns[k]);
    }
    ContainsAny(path, IgnorePatterns)
  }

  /** Test helpers and the scripts themselves are never scanned. */
  lemma TestsAndScriptsIgnored(path: string)
    requires Contains(path, "test") || Contains(path, "scripts")
    ensures ShouldIgnoreFile(path)
  {
    assert IgnorePatterns[7] == "test" && IgnorePatterns[8] == "scripts";
  }

  // ---------------------------------------------------------------- matching

  /** `\b` at position `p`: a word character on exactly one side. */
  predicate BoundaryAt(s: string, p: nat) {
    (0 < p <= |s| && IsWordChar(s[p - 1])) != (p < |s| && IsWordChar(s[p]))
  }

  /** `a` equals `b` once ASCII case is ignored, as the `i` flag compares these literals. */
  predicate SameIgnoringCase(a: string, b: string) {
    |a| == |b| && forall k :: 0 <= k < |a| ==> LowerChar(a[k]) == LowerChar(b[k])
  }

  /** The characters of `name` from index `k` on appear at `i + k` on, ignoring ASCII case. */
  predicate FoldsFrom(line: string, name: string, i: nat, k: nat)
    requires i + |name| <= |line| && k <= |name|
    decreases |name| - k
  {
    k == |name| || (LowerChar(line[i + k]) == LowerChar(name[k]) && FoldsFrom(line, name, i, k + 1))
  }

  lemma {:induction false} FoldsFromChars(line: string, name: string, i: nat, k: nat)
    requires i + |name| <= |line| && k <= |name|
    decreases |name| - k
    ensures FoldsFrom(line, name, i, k) <==> forall m :: k <= m < |name| ==> LowerChar(line[i + m]) == LowerChar(name[m])
  {
    if k < |name| {
      FoldsFromChars(line, name, i, k + 1);
    }
  }

  /** `\b<name>\b` with the `i` flag matches at `i`. */
  predicate WordMatchAt(line: string, name: string, i: nat) {
    i + |name| <= |line| && FoldsFrom(line, name, i, 0) && BoundaryAt(line, i) && BoundaryAt(line, i + |name|)
  }

  /** How far `lastIndex` moves past a match: its length, or one for an empty match. */
  function Step(lit: string): nat {
    if lit == [] then 1 else |lit|
  }

  /**
   * The match positions `matchAll` yields when the search starts at `from`: the
   * leftmost match, then the search resumes past it.
   */
  function Matches(line: string, lit: string, from: nat): (ps: seq<nat>)
    decreases |line| + 1 - from
    ensures forall k :: 0 <= k < |ps| ==> from <= ps[k] && WordMatchAt(line, lit, ps[k])
  {
    if from > |line| then []
    else if WordMatchAt(line, lit, from) then [from] + Matches(line, lit, from + Step(lit))
    else Matches(line, lit, from + 1)
  }

  /** Each position starts at least `step` after the one before it. */
  predicate Apart(ps: seq<nat>, step: nat) {
    forall k :: 0 <= k < |ps| - 1 ==> ps[k] + step <= ps[k + 1]
  }

  /** Matches never overlap: each starts at least one match length after the one before it. */
  lemma {:induction false} MatchesApart(line: string, lit: string, from: nat)
    decreases |line| + 1 - from
    ensures Apart(Matches(line, lit, from), Step(lit))
  {
    if from <= |line| {
      if WordMatchAt(line, lit, from) {
        var rest := Matches(line, lit, from + Step(lit));
        MatchesApart(line, lit, from + Step(lit));
        var ps := [from] + rest;
        forall k | 0 <= k < |ps| - 1 ensures ps[k] + Step(lit) <= ps[k + 1] {
          if k > 0 {
            assert ps[k] == rest[k - 1] && ps[k + 1] == rest[k];
          } else {
            assert ps[1] == rest[0];
          }
        }
        assert Matches(line, lit, from) == ps;
      } else {
        MatchesApart(line, lit, from + 1);
      }
    }
  }

  /** `i` lies strictly inside the match starting at some position of `ps`. */
  predicate Covered(ps: seq<nat>, i: nat, step: nat) {
    exists p :: p in ps && p < i < p + step
  }

  /**
   * Every place the pattern matches at or after `from` is reported, unless it lies
   * inside a match reported before it.
   */
  lemma {:induction false} MatchesComplete(line: string, lit: string, from: nat, i: nat)
    requires from <= i && WordMatchAt(line, lit, i)
    decreases |line| + 1 - from
    ensures i in Matches(line, lit, from) || Covered(Matches(line, lit, from), i, Step(lit))
  {
    if from == i {
      assert Matches(line, lit, from) == [from] + Matches(line, lit, from + Step(lit));
    } else if WordMatchAt(line, lit, from) {
      if from + Step(lit) <= i {
        MatchesComplete(line, lit, from + Step(lit), i);
      }
      MatchesAfterHit(line, lit, from, i);
    } else {
      assert Matches(line, lit, from) == Matches(line, lit, from + 1);
      MatchesComplete(line, lit, from + 1, i);
    }
  }

  /** After a match at `from`, a later place is reported or covered if the rest of the search reports or covers it. */
  lemma MatchesAfterHit(line: string, lit: string, from: nat, i: nat)
    requires from < i && from <= |line| && WordMatchAt(line, lit, from)
    requires from + Step(lit) <= i ==>
      var rest := Matches(line, lit, from + Step(lit)); i in rest || Covered(rest, i, Step(lit))
    ensures i in Matches(line, lit, from) || Covered(Matches(line, lit, from), i, Step(lit))
  {
    var rest := Matches(line, lit, from + Step(lit));
    var ps := [from] + rest;
    assert Matches(line, lit, from) == ps;
    if from + Step(lit) <= i {
      if i !in rest {
        var p :| p in rest && p < i < p + Step(lit);
        assert p in ps;
      }
    } else {
      assert from in ps && from < i < from + Step(lit);
    }
  }

  /** No match of `lit` starts within one match length before `i`. */
  predicate NoMatchJustBefore(line: string, lit: string, i: nat) {
    forall p: nat :: p < i < p + Step(lit) ==> !WordMatchAt(line, lit, p)
  }

  /** A match that no earlier match overlaps is always found. */
  lemma FirstMatchFound(line: string, lit: string, i: nat)
    requires WordMatchAt(line, lit, i) && NoMatchJustBefore(line, lit, i)
    ensures i in Matches(line, lit, 0)
  {
    MatchesComplete(line, lit, 0, i);
  }

  // ---------------------------------------------------------------- the compound-word filter

  /**
   * The filter that drops a match taken to be part of a compound word: the forty
   * characters around it hold a letter, and a letter immediately precedes or
   * follows it.
   */
  predicate Compound(line: string, i: nat, len: nat) {
    var lo := if i >= 20 then i - 20 else 0;
    var hi := if i + len + 20 <= |line| then i + len + 20 else |line|;
    HasLetter(line, lo, hi) &&
    ((0 < i <= |line| && IsAsciiLetter(line[i - 1])) || (i + len < |line| && IsAsciiLetter(line[i + len])))
  }

  /** `line.substring(lo, hi)` holds an ASCII letter (`/[a-zA-Z]/`). */
  predicate HasLetter(line: string, lo: nat, hi: nat)
    requires hi <= |line|
    decreases hi - lo
  {
    lo < hi && (IsAsciiLetter(line[lo]) || HasLetter(line, lo + 1, hi))
  }

  /** A term that starts and ends with a letter, as every entry of the table does. */
  predicate LetterEnds(name: string) {
    |name| >= 1 && IsAsciiLetter(name[0]) && IsAsciiLetter(name[|name| - 1])
  }

  lemma ForbiddenTermsLetterEnds()
    ensures forall k :: 0 <= k < |ForbiddenTerms| ==> LetterEnds(ForbiddenTerms[k].name)
  {
    TermNamesLetterEnds();
    EntriesLetterEnds(TermNames, TermAlternatives);
  }

  lemma EntriesLetterEnds(names: seq<string>, alternatives: seq<seq<string>>)
    requires |names| == |alternatives| && forall k :: 0 <= k < |names| ==> LetterEnds(names[k])
    ensures forall k :: 0 <= k < |names| ==> LetterEnds(Entries(names, alternatives)[k].name)
  {
  }

  lemma TermNamesLetterEnds()
    ensures forall k :: 0 <= k < |TermNames| ==> LetterEnds(TermNames[k])
  {
    forall k | 0 <= k < |TermNames| ensures LetterEnds(TermNames[k]) {
    }
  }

  /** Whole-word matching already rules out a neighbouring letter, so the filter never drops a match. */
  lemma CompoundNeverFires(line: string, name: string, i: nat)
    requires LetterEnds(name) && WordMatchAt(line, name, i)
    ensures !Compound(line, i, |name|)
  {
    FoldsFromChars(line, name, i, 0);
    assert LowerChar(line[i]) == LowerChar(name[0]);
    assert LowerChar(line[i + |name| - 1]) == LowerChar(name[|name| - 1]);
  }

  // ---------------------------------------------------------------- issues

  /** One reported use of a forbidden term; `kind` is always "forbidden". */
  datatype Issue = Issue(file: string, line: nat, kind: string, term: string, alternatives: seq<string>, context: string)

  /** The issue for a match of `t` at `i` on the line with index `n`, quoted as `quote`. */
  function IssueAt(file: string, n: nat, line: string, quote: string, t: Term, i: nat): Issue
    requires WordMatchAt(line, t.name, i)
  {
    Issue(file, n + 1, "forbidden", line[i..i + |t.name|], t.alternatives, quote)
  }

  /** The issues for the match positions `ps` of `t`, less those the compound-word filter drops. */
  function Reported(file: string, n: nat, line: string, quote: string, t: Term, ps: seq<nat>): seq<Issue>
    requires forall k :: 0 <= k < |ps| ==> WordMatchAt(line, t.name, ps[k])
  {
    if ps == [] then []
    else
      (if Compound(line, ps[0], |t.name|) then [] else [IssueAt(file, n, line, quote, t, ps[0])]) +
      Reported(file, n, line, quote, t, ps[1..])
  }

  /** The issues one term raises on one line. */
  function TermIssues(file: string, n: nat, line: string, quote: string, t: Term): seq<Issue> {
    Reported(file, n, line, quote, t, Matches(line, t.name, 0))
  }

  /** The issues of the terms from index `j` on, in table order. */
  function TermsFrom(file: string, n: nat, line: string, quote: string, terms: seq<Term>, j: nat): seq<Issue>
    decreases |terms| - j
  {
    if j >= |terms| then []
    else TermIssues(file, n, line, quote, terms[j]) + TermsFrom(file, n, line, quote, terms, j + 1)
  }

  /** The issues of one line: none for a comment line; every issue quotes the trimmed line. */
  function LineIssues(file: string, n: nat, line: string, terms: seq<Term>): seq<Issue> {
    if CommentLine(line) then [] else TermsFrom(file, n, line, Quote(line), terms, 0)
  }

  /** The issues of the lines from index `n` on, in line order. */
  function LinesFrom(file: string, lines: seq<string>, terms: seq<Term>, n: nat): seq<Issue>
    decreases |lines| - n
  {
    if n >= |lines| then [] else LineIssues(file, n, lines[n], terms) + LinesFrom(file, lines, terms, n + 1)
  }

  /** `checkForbiddenTerms(content, filePath)`. */
  function ForbiddenIssues(content: string, file: string): seq<Issue> {
    LinesFrom(file, Split(content, '\n'), ForbiddenTerms, 0)
  }

  // ---------------------------------------------------------------- properties

  /** For a term with letters at both ends every match position gives exactly one issue, in order. */
  lemma {:induction false} EveryMatchReported(file: string, n: nat, line: string, quote: string, t: Term, ps: seq<nat>)
    requires LetterEnds(t.name)
    requires forall k :: 0 <= k < |ps| ==> WordMatchAt(line, t.name, ps[k])
    ensures var r := Reported(file, n, line, quote, t, ps);
      |r| == |ps| && forall k :: 0 <= k < |ps| ==> r[k] == IssueAt(file, n, line, quote, t, ps[k])
  {
    if ps != [] {
      CompoundNeverFires(line, t.name, ps[0]);
      EveryMatchReported(file, n, line, quote, t, ps[1..]);
    }
  }

  /** The issues of one term are its matches, one each. */
  lemma TermIssuesAreMatches(file: string, n: nat, line: string, quote: string, t: Term)
    requires LetterEnds(t.name)
    ensures var ps := Matches(line, t.name, 0);
      var r := TermIssues(file, n, line, quote, t);
      |r| == |ps| && forall k :: 0 <= k < |ps| ==> r[k] == IssueAt(file, n, line, quote, t, ps[k])
  {
    EveryMatchReported(file, n, line, quote, t, Matches(line, t.name, 0));
  }

  /**
   * What an issue raised on the line with index `n` says: the file, the 1-based
   * line, the kind, the quote, and a table term it spells (ignoring ASCII case)
   * together with that term's alternatives.
   */
  predicate IssueOf(issue: Issue, file: string, n: nat, quote: string, terms: seq<Term>) {
    issue.file == file && issue.line == n + 1 && issue.kind == "forbidden" && issue.context == quote &&
    exists k :: 0 <= k < |terms| && issue.alternatives == terms[k].alternatives && SameIgnoringCase(issue.term, terms[k].name)
  }

  lemma MatchSpellsTerm(line: string, name: string, i: nat)
    requires WordMatchAt(line, name, i)
    ensures SameIgnoringCase(line[i..i + |name|], name)
  {
    FoldsFromChars(line, name, i, 0);
    var m := line[i..i + |name|];
    forall k | 0 <= k < |m| ensures LowerChar(m[k]) == LowerChar(name[k]) {
      assert m[k] == line[i + k];
    }
  }

  lemma {:induction false} ReportedSound(file: string, n: nat, line: string, quote: string, terms: seq<Term>, j: nat, ps: seq<nat>)
    requires j < |terms|
    requires forall k :: 0 <= k < |ps| ==> WordMatchAt(line, terms[j].name, ps[k])
    ensures forall issue :: issue in Reported(file, n, line, quote, terms[j], ps) ==> IssueOf(issue, file, n, quote, terms)
  {
    if ps != [] {
      var t := terms[j];
      ReportedSound(file, n, line, quote, terms, j, ps[1..]);
      MatchSpellsTerm(line, t.name, ps[0]);
      var head := IssueAt(file, n, line, quote, t, ps[0]);
      assert IssueOf(head, file, n, quote, terms);
    }
  }

  lemma {:induction false} TermsFromSound(file: string, n: nat, line: string, quote: string, terms: seq<Term>, j: nat)
    decreases |terms| - j
    ensures forall issue :: issue in TermsFrom(file, n, line, quote, terms, j) ==> IssueOf(issue, file, n, quote, terms)
  {
    if j < |terms| {
      ReportedSound(file, n, line, quote, terms, j, Matches(line, terms[j].name, 0));
      TermsFromSound(file, n, line, quote, terms, j + 1);
    }
  }

  /**
   * Every issue names a line that exists and is not a comment, quotes that line,
   * and matches a table term (ignoring ASCII case) whose alternatives it carries.
   */
  lemma {:induction false} LinesFromSound(file: string, lines: seq<string>, terms: seq<Term>, n: nat)
    decreases |lines| - n
    ensures forall issue :: issue in LinesFrom(file, lines, terms, n) ==>
      n < issue.line <= |lines| && !CommentLine(lines[issue.line - 1]) &&
      IssueOf(issue, file, issue.line - 1, Quote(lines[issue.line - 1]), terms)
  {
    if n < |lines| {
      var head := LineIssues(file, n, lines[n], terms);
      var rest := LinesFrom(file, lines, terms, n + 1);
      TermsFromSound(file, n, lines[n], Quote(lines[n]), terms, 0);
      LinesFromSound(file, lines, terms, n + 1);
      forall issue: Issue | issue in head + rest
        ensures n < issue.line <= |lines| && !CommentLine(lines[issue.line - 1]) &&
          IssueOf(issue, file, issue.line - 1, Quote(lines[issue.line - 1]), terms)
      {
        if issue in head {
          assert IssueOf(issue, file, n, Quote(lines[n]), terms);
        }
      }
    }
  }

  /** Every issue of `r` names line `m`. */
  predicate OnLine(r: seq<Issue>, m: nat) {
    forall k :: 0 <= k < |r| ==> r[k].line == m
  }

  /** Every issue of `r` names a line after `m`. */
  predicate AfterLine(r: seq<Issue>, m: nat) {
    forall k :: 0 <= k < |r| ==> r[k].line > m
  }

  /** The lines `r` names never decrease. */
  predicate LineOrdered(r: seq<Issue>) {
    forall a, b :: 0 <= a < b < |r| ==> r[a].line <= r[b].line
  }

  lemma {:induction false} ReportedOnLine(file: string, n: nat, line: string, quote: string, t: Term, ps: seq<nat>)
    requires forall k :: 0 <= k < |ps| ==> WordMatchAt(line, t.name, ps[k])
    ensures OnLine(Reported(file, n, line, quote, t, ps), n + 1)
  {
    if ps != [] {
      ReportedOnLine(file, n, line, quote, t, ps[1..]);
    }
  }

  lemma {:induction false} TermsFromOnLine(file: string, n: nat, line: string, quote: string, terms: seq<Term>, j: nat)
    decreases |terms| - j
    ensures OnLine(TermsFrom(file, n, line, quote, terms, j), n + 1)
  {
    if j < |terms| {
      ReportedOnLine(file, n, line, quote, terms[j], Matches(line, terms[j].name, 0));
      TermsFromOnLine(file, n, line, quote, terms, j + 1);
    }
  }

  /** The issues of one line followed by those of later lines stay in line order. */
  lemma ConcatOrdered(head: seq<Issue>, rest: seq<Issue>, m: nat)
    requires OnLine(head, m + 1) && AfterLine(rest, m + 1) && LineOrdered(rest)
    ensures AfterLine(head + rest, m) && LineOrdered(head + rest)
  {
    var r := head + rest;
    forall a, b | 0 <= a < b < |r| ensures r[a].line <= r[b].line {
      if b < |head| {
        assert r[a] == head[a] && r[b] == head[b];
      } else if a < |head| {
        assert r[a] == head[a] && r[b] == rest[b - |head|];
      } else {
        assert r[a] == rest[a - |head|] && r[b] == rest[b - |head|];
      }
    }
    forall k | 0 <= k < |r| ensures r[k].line > m {
      if k < |head| {
        assert r[k] == head[k];
      } else {
        assert r[k] == rest[k - |head|];
      }
    }
  }

  /** Issues come in line order, all after the line the scan starts from. */
  lemma {:induction false} LinesFromOrdered(file: string, lines: seq<string>, terms: seq<Term>, n: nat)
    decreases |lines| - n
    ensures AfterLine(LinesFrom(file, lines, terms, n), n) && LineOrdered(LinesFrom(file, lines, terms, n))
  {
    if n < |lines| {
      LinesFromOrdered(file, lines, terms, n + 1);
      var head := LineIssues(file, n, lines[n], terms);
      if !CommentLine(lines[n]) {
        TermsFromOnLine(file, n, lines[n], Quote(lines[n]), terms, 0);
      }
      assert OnLine(head, n + 1);
      ConcatOrdered(head, LinesFrom(file, lines, terms, n + 1), n);
    }
  }

  /** Each term of the table is reported on its own: a match of one term hides no match of another. */
  lemma {:induction false} TermsReportedSeparately(file: string, n: nat, line: string, quote: string, terms: seq<Term>, j: nat, a: nat, i: nat)
    requires j <= a < |terms| && LetterEnds(terms[a].name)
    requires WordMatchAt(line, terms[a].name, i) && NoMatchJustBefore(line, terms[a].name, i)
    decreases a - j
    ensures IssueAt(file, n, line, quote, terms[a], i) in TermsFrom(file, n, line, quote, terms, j)
  {
    var here := TermIssues(file, n, line, quote, terms[j]);
    var later := TermsFrom(file, n, line, quote, terms, j + 1);
    assert TermsFrom(file, n, line, quote, terms, j) == here + later;
    if j < a {
      TermsReportedSeparately(file, n, line, quote, terms, j + 1, a, i);
    } else {
      var t := terms[a];
      var ps := Matches(line, t.name, 0);
      FirstMatchFound(line, t.name, i);
      TermIssuesAreMatches(file, n, line, quote, t);
      var k :| 0 <= k < |ps| && ps[k] == i;
      assert here[k] == IssueAt(file, n, line, quote, t, i);
    }
  }

  /**
   * On a line that is not a comment, every match of every table term that no
   * earlier match of the same term overlaps is reported, so "chat" and "chat
   * message" at the same place give two issues.
   */
  lemma LineReportsEveryTerm(file: string, n: nat, line: string, a: nat, i: nat)
    requires a < |ForbiddenTerms| && !CommentLine(line)
    requires WordMatchAt(line, ForbiddenTerms[a].name, i)
    requires NoMatchJustBefore(line, ForbiddenTerms[a].name, i)
    ensures IssueAt(file, n, line, Quote(line), ForbiddenTerms[a], i) in LineIssues(file, n, line, ForbiddenTerms)
  {
    ForbiddenTermsLetterEnds();
    TermsReportedSeparately(file, n, line, Quote(line), ForbiddenTerms, 0, a, i);
  }

  /** Soundness and order of `checkForbiddenTerms` over a whole file. */
  lemma ForbiddenIssuesProperties(content: string, file: string)
    ensures var lines := Split(content, '\n');
      var r := ForbiddenIssues(content, file);
      (forall issue :: issue in r ==>
        1 <= issue.line <= |lines| && !CommentLine(lines[issue.line - 1]) &&
        IssueOf(issue, file, issue.line - 1, Quote(lines[issue.line - 1]), ForbiddenTerms)) &&
      LineOrdered(r)
  {
    LinesFromSound(file, Split(content, '\n'), ForbiddenTerms, 0);
    LinesFromOrdered(file, Split(content, '\n'), ForbiddenTerms, 0);
  }

  // ---------------------------------------------------------------- the scanner

  /** What is still to be reported once `issues` holds what the scan pushed before `from`. */
  predicate ScannedTo(file: string, n: nat, line: string, quote: string, t: Term, issues: seq<Issue>, from: nat) {
    issues + Reported(file, n, line, quote, t, Matches(line, t.name, from)) == TermIssues(file, n, line, quote, t)
  }

  /** A match at `from` is pushed unless the filter drops it, and the scan resumes past it. */
  lemma ScanMatch(file: string, n: nat, line: string, quote: string, t: Term, issues: seq<Issue>, from: nat)
    requires from <= |line| && WordMatchAt(line, t.name, from) && ScannedTo(file, n, line, quote, t, issues, from)
    ensures Compound(line, from, |t.name|) ==> ScannedTo(file, n, line, quote, t, issues, from + Step(t.name))
    ensures !Compound(line, from, |t.name|) ==>
      ScannedTo(file, n, line, quote, t, issues + [IssueAt(file, n, line, quote, t, from)], from + Step(t.name))
  {
    var rest := Matches(line, t.name, from + Step(t.name));
    var head := if Compound(line, from, |t.name|) then [] else [IssueAt(file, n, line, quote, t, from)];
    assert Matches(line, t.name, from) == [from] + rest;
    assert ([from] + rest)[1..] == rest;
    assert Reported(file, n, line, quote, t, Matches(line, t.name, from)) == head + Reported(file, n, line, quote, t, rest);
    AppendAssociative(issues, head, Reported(file, n, line, quote, t, rest));
    if head == [] {
      assert issues + head == issues;
    }
  }

  lemma ScanDrop(file: string, n: nat, line: string, quote: string, t: Term, issues: seq<Issue>, from: nat)
    requires from <= |line| && WordMatchAt(line, t.name, from) && ScannedTo(file, n, line, quote, t, issues, from)
    requires Compound(line, from, |t.name|)
    ensures ScannedTo(file, n, line, quote, t, issues, from + Step(t.name))
  {
    ScanMatch(file, n, line, quote, t, issues, from);
  }

  lemma ScanPush(file: string, n: nat, line: string, quote: string, t: Term, issues: seq<Issue>, from: nat)
    requires from <= |line| && WordMatchAt(line, t.name, from) && ScannedTo(file, n, line, quote, t, issues, from)
    requires !Compound(line, from, |t.name|)
    ensures ScannedTo(file, n, line, quote, t, issues + [IssueAt(file, n, line, quote, t, from)], from + Step(t.name))
  {
    ScanMatch(file, n, line, quote, t, issues, from);
  }

  lemma ScanStart(file: string, n: nat, line: string, quote: string, t: Term)
    ensures ScannedTo(file, n, line, quote, t, [], 0)
  {
    assert [] + TermIssues(file, n, line, quote, t) == TermIssues(file, n, line, quote, t);
  }

  /** Without a match at `from` the scan moves one place on and nothing is pushed. */
  lemma ScanSkip(file: string, n: nat, line: string, quote: string, t: Term, issues: seq<Issue>, from: nat)
    requires from <= |line| && !WordMatchAt(line, t.name, from) && ScannedTo(file, n, line, quote, t, issues, from)
    ensures ScannedTo(file, n, line, quote, t, issues, from + 1)
  {
    assert Matches(line, t.name, from) == Matches(line, t.name, from + 1);
  }

  /** Past the end of the line nothing is left to report. */
  lemma ScanEnd(file: string, n: nat, line: string, quote: string, t: Term, issues: seq<Issue>, from: nat)
    requires from > |line| && ScannedTo(file, n, line, quote, t, issues, from)
    ensures issues == TermIssues(file, n, line, quote, t)
  {
    assert Matches(line, t.name, from) == [];
    assert issues + [] == issues;
  }

  /** One step of `matchAll`: a match at `from` is pushed unless filtered and skipped, otherwise the scan moves on. */
  method ScanStep(file: string, n: nat, line: string, quote: string, t: Term, issues: seq<Issue>, from: nat)
    returns (issues': seq<Issue>, from': nat)
    requires from <= |line| && ScannedTo(file, n, line, quote, t, issues, from)
    ensures from < from' && ScannedTo(file, n, line, quote, t, issues', from')
  {
    if WordMatchAt(line, t.name, from) {
      if Compound(line, from, |t.name|) {
        ScanDrop(file, n, line, quote, t, issues, from);
        issues' := issues;
      } else {
        ScanPush(file, n, line, quote, t, issues, from);
        issues' := issues + [IssueAt(file, n, line, quote, t, from)];
      }
      from' := from + Step(t.name);
    } else {
      ScanSkip(file, n, line, quote, t, issues, from);
      issues', from' := issues, from + 1;
    }
  }

  /** `matchAll` of one term over one line, each match that survives the filter pushed. */
  method ScanTerm(file: string, n: nat, line: string, quote: string, t: Term) returns (issues: seq<Issue>)
    ensures issues == TermIssues(file, n, line, quote, t)
  {
    issues := [];
    var from := 0;
    ScanStart(file, n, line, quote, t);
    while from <= |line|
      invariant ScannedTo(file, n, line, quote, t, issues, from)
      decreases |line| + 1 - from
    {
      issues, from := ScanStep(file, n, line, quote, t, issues, from);
    }
    ScanEnd(file, n, line, quote, t, issues, from);
  }

  /** One line: nothing for a comment, otherwise each term of the table in order. */
  method ScanLine(file: string, n: nat, line: string, terms: seq<Term>) returns (issues: seq<Issue>)
    ensures issues == LineIssues(file, n, line, terms)
  {
    issues := [];
    if CommentLine(line) {
      return;
    }
    issues := ScanTerms(file, n, line, Quote(line), terms);
  }

  /** The loop over the table for one line, with the line's quote already taken. */
  method ScanTerms(file: string, n: nat, line: string, quote: string, terms: seq<Term>) returns (issues: seq<Issue>)
    ensures issues == TermsFrom(file, n, line, quote, terms, 0)
  {
    issues := [];
    var j := 0;
    while j < |terms|
      invariant j <= |terms|
      invariant issues + TermsFrom(file, n, line, quote, terms, j) == TermsFrom(file, n, line, quote, terms, 0)
      decreases |terms| - j
    {
      var found := ScanTerm(file, n, line, quote, terms[j]);
      ghost var rest := TermsFrom(file, n, line, quote, terms, j + 1);
      assert TermsFrom(file, n, line, quote, terms, j) == found + rest;
      AppendAssociative(issues, found, rest);
      issues := issues + found;
      j := j + 1;
    }
  }

  /**
   * The script's nested loops: for each line that is not a comment, for each
   * term, `matchAll` walks the line and every match that survives the filter is
   * pushed.
   */
  method CheckTerms(content: string, file: string, terms: seq<Term>) returns (issues: seq<Issue>)
    ensures issues == LinesFrom(file, Split(content, '\n'), terms, 0)
  {
    var lines := Split(content, '\n');
    issues := [];
    var n := 0;
    while n < |lines|
      invariant n <= |lines|
      invariant issues + LinesFrom(file, lines, terms, n) == LinesFrom(file, lines, terms, 0)
      decreases |lines| - n
    {
      var found := ScanLine(file, n, lines[n], terms);
      AppendAssociative(issues, found, LinesFrom(file, lines, terms, n + 1));
      issues := issues + found;
      n := n + 1;
    }
  }

  /** `checkForbiddenTerms(content, filePath)` with the script's table. */
  method CheckForbiddenTerms(content: string, file: string) returns (issues: seq<Issue>)
    ensures issues == ForbiddenIssues(content, file)
  {
    issues := CheckTerms(content, file, ForbiddenTerms);
  }
}
