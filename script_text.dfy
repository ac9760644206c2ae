/**
 * Line handling shared by the two repository lint scripts: both test a path or a
 * line prefix against a list of literal fragments, both treat a line whose
 * trimmed text starts with `//` or `*` as a comment, and both quote a line as the
 * first 80 code units of its trimmed text.
 */
module ScriptText {
  import opened JsString

  /** `fragments.some((f) => s.includes(f))`; a pattern without metacharacters tests the same way. */
  predicate ContainsAny(s: string, fragments: seq<string>) {
    exists k :: 0 <= k < |fragments| && Contains(s, fragments[k])
  }

  /** `line.trim().startsWith("//") || line.trim().startsWith("*")`. */
  predicate CommentLine(line: string) {
    StartsWith(Trim(line), "//") || StartsWith(Trim(line), "*")
  }

  /** `line.trim().substring(0, 80)`. */
  function Quote(line: string): (q: string)
    ensures |q| <= |Trim(line)| && q == Trim(line)[..|q|]
    ensures Length(q) <= 80
    ensures Length(Trim(line)) <= 80 ==> q == Trim(line)
    ensures Length(Trim(line)) > 80 ==>
      |q| < |Trim(line)| && (Length(q) == 80 || (Length(q) == 79 && Width(Trim(line)[|q|]) == 2))
  {
    if Length(Trim(line)) > 80 then
      PrefixCut(Trim(line), 80);
      Prefix(Trim(line), 80)
    else
      Prefix(Trim(line), 80)
  }

  /** `ContainsAny` spelt out: some fragment occurs at some index of `s`. */
  lemma ContainsAnyIff(s: string, fragments: seq<string>)
    ensures ContainsAny(s, fragments) <==> exists k, j :: 0 <= k < |fragments| && OccursAt(s, fragments[k], j)
  {
    if ContainsAny(s, fragments) {
      var k :| 0 <= k < |fragments| && Contains(s, fragments[k]);
      ContainsIff(s, fragments[k]);
      var j: nat :| OccursAt(s, fragments[k], j);
    }
    forall k, j | 0 <= k < |fragments| && OccursAt(s, fragments[k], j) ensures ContainsAny(s, fragments) {
      ContainsIff(s, fragments[k]);
    }
  }

  /** A text containing a fragment still contains it when more is appended. */
  lemma ContainsAnyExtends(s: string, t: string, fragments: seq<string>)
    requires ContainsAny(s, fragments)
    ensures ContainsAny(s + t, fragments)
  {
    var k :| 0 <= k < |fragments| && Contains(s, fragments[k]);
    ContainsIff(s, fragments[k]);
    var j: nat :| OccursAt(s, fragments[k], j);
    assert (s + t)[j..j + |fragments[k]|] == s[j..j + |fragments[k]|];
    assert OccursAt(s + t, fragments[k], j);
    ContainsIff(s + t, fragments[k]);
    assert Contains(s + t, fragments[k]);
  }
}
