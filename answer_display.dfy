/**
 * The citation scan of the research answer view: the answer is searched for
 * bracketed numbers `[n]` with the global pattern `\[(\d+)\]`, and each number is
 * recorded the first time it is seen. A missing or empty answer shows the
 * placeholder instead and is not scanned.
 */
module AnswerDisplay {
  import opened Wrappers
  import opened JsString

  /**
   * The match of `\[(\d+)\]` that starts at `i`, if one does: the number the digits
   * spell and the index just past the closing bracket. The digit run is greedy and a
   * digit is never `]`, so a shorter run never matches either.
   */
  function CitationAt(s: string, i: nat): (r: Option<(nat, nat)>)
    ensures r.Some? ==> i + 3 <= r.value.1 <= |s| && s[i] == '[' && s[r.value.1 - 1] == ']'
    ensures r.Some? ==> forall j :: i < j < r.value.1 ==> s[j] != '['
  {
    if i < |s| && s[i] == '[' then
      var d := DigitRun(s, i + 1);
      if d >= 1 && i + 1 + d < |s| && s[i + 1 + d] == ']' then
        var digits := s[i + 1..i + 1 + d];
        assert AllDigits(digits) by {
          forall k | 0 <= k < |digits| ensures IsDigit(digits[k]) {
            assert digits[k] == s[i + 1 + k];
          }
        }
        Some((DigitsValue(digits), i + 2 + d))
      else None
    else None
  }

  /** The text `[n]`, with `n` written in some run of decimal digits, starts at `i`. */
  predicate CitesAt(s: string, i: nat, n: nat) {
    CitationAt(s, i).Some? && CitationAt(s, i).value.0 == n
  }

  /**
   * The numbers `exec` reports, in order, when the search starts at `from`: after a
   * match the search resumes just past it (`lastIndex`), otherwise one index later.
   */
  function Occurrences(s: string, from: nat): seq<nat>
    decreases |s| - from
  {
    if from >= |s| then []
    else match CitationAt(s, from)
      case Some((n, next)) => [n] + Occurrences(s, next)
      case None => Occurrences(s, from + 1)
  }

  /** Every number reported from `from` on is spelt by a `[n]` that starts at or after `from`. */
  lemma {:induction false} OccurrencesSound(s: string, from: nat, n: nat) returns (i: nat)
    requires n in Occurrences(s, from)
    decreases |s| - from
    ensures from <= i && CitesAt(s, i, n)
  {
    match CitationAt(s, from)
    case Some((m, next)) =>
      if n == m {
        i := from;
      } else {
        i := OccurrencesSound(s, next, n);
      }
    case None =>
      i := OccurrencesSound(s, from + 1, n);
  }

  /** Every `[n]` that starts at or after `from` is reported. */
  lemma {:induction false} OccurrencesComplete(s: string, from: nat, i: nat, n: nat)
    requires from <= i && CitesAt(s, i, n)
    decreases |s| - from
    ensures n in Occurrences(s, from)
  {
    if from < i {
      match CitationAt(s, from)
      case Some((m, next)) =>
        if next <= i {
          OccurrencesComplete(s, next, i, n);
        }
      case None =>
        OccurrencesComplete(s, from + 1, i, n);
    }
  }

  /** A number is reported from `from` on exactly when `[n]` starts at or after `from`. */
  lemma OccurrencesIff(s: string, from: nat, n: nat)
    ensures n in Occurrences(s, from) <==> exists i :: from <= i && CitesAt(s, i, n)
  {
    if n in Occurrences(s, from) {
      var i := OccurrencesSound(s, from, n);
    }
    forall i | from <= i && CitesAt(s, i, n) ensures n in Occurrences(s, from) {
      OccurrencesComplete(s, from, i, n);
    }
  }

  // ---------------------------------------------------------------- first occurrences

  /** The elements of `xs` in the order they first appear, each once. */
  function FirstOccurrences(xs: seq<nat>): seq<nat> {
    if xs == [] then []
    else
      var init := FirstOccurrences(xs[..|xs| - 1]);
      if xs[|xs| - 1] in xs[..|xs| - 1] then init else init + [xs[|xs| - 1]]
  }

  lemma {:induction false} FirstOccurrencesMembers(xs: seq<nat>)
    ensures forall x :: x in FirstOccurrences(xs) <==> x in xs
  {
    if xs != [] {
      var init := xs[..|xs| - 1];
      FirstOccurrencesMembers(init);
      assert xs == init + [xs[|xs| - 1]];
    }
  }

  predicate NoDuplicates(xs: seq<nat>) {
    forall i, j :: 0 <= i < j < |xs| ==> xs[i] != xs[j]
  }

  lemma {:induction false} FirstOccurrencesDistinct(xs: seq<nat>)
    ensures NoDuplicates(FirstOccurrences(xs))
  {
    if xs != [] {
      var init := xs[..|xs| - 1];
      FirstOccurrencesDistinct(init);
      FirstOccurrencesMembers(init);
    }
  }

  /** The index at which `x` first appears in `xs`. */
  function FirstIndex(xs: seq<nat>, x: nat): (p: nat)
    requires x in xs
    ensures p < |xs| && xs[p] == x && x !in xs[..p]
  {
    if xs[0] == x then 0
    else
      var p := 1 + FirstIndex(xs[1..], x);
      assert xs[..p] == [xs[0]] + xs[1..][..p - 1];
      p
  }

  lemma FirstIndexOfPrefix(xs: seq<nat>, n: nat, x: nat)
    requires n <= |xs| && x in xs[..n]
    ensures FirstIndex(xs, x) == FirstIndex(xs[..n], x)
  {
    var q := FirstIndex(xs[..n], x);
    assert xs[..n][..q] == xs[..q];
  }

  /** Every entry of `r` occurs in `xs`, and earlier entries first appear earlier in `xs`. */
  predicate InFirstSeenOrder(r: seq<nat>, xs: seq<nat>) {
    forall i, j :: 0 <= i < j < |r| ==> r[i] in xs && r[j] in xs && FirstIndex(xs, r[i]) < FirstIndex(xs, r[j])
  }

  /** Earlier entries of `FirstOccurrences(xs)` first appear earlier in `xs`. */
  lemma {:induction false} FirstOccurrencesOrdered(xs: seq<nat>)
    ensures InFirstSeenOrder(FirstOccurrences(xs), xs)
  {
    if xs != [] {
      var n := |xs| - 1;
      var init := xs[..n];
      FirstOccurrencesOrdered(init);
      FirstOccurrencesMembers(init);
      FirstOccurrencesMembers(xs);
      var r := FirstOccurrences(xs);
      var r0 := FirstOccurrences(init);
      assert r == r0 || (r == r0 + [xs[n]] && xs[n] !in init);
      forall i, j | 0 <= i < j < |r|
        ensures r[i] in xs && r[j] in xs && FirstIndex(xs, r[i]) < FirstIndex(xs, r[j])
      {
        assert r[i] == r0[i] && r[i] in r0 && r[i] in init;
        FirstIndexOfPrefix(xs, n, r[i]);
        if j < |r0| {
          assert r[j] == r0[j] && r[j] in r0 && r[j] in init;
          FirstIndexOfPrefix(xs, n, r[j]);
          assert InFirstSeenOrder(r0, init);
        } else {
          var x := xs[n];
          assert r[j] == x && x !in init;
          var p := FirstIndex(xs, x);
          assert p == n by {
            assert xs[..n] == init;
          }
          assert FirstIndex(xs[..n], r[i]) < n;
        }
      }
    }
  }

  // ---------------------------------------------------------------- the scan

  /**
   * What the component computes: the placeholder (`None`) or the distinct citation
   * numbers in first-seen order. The list is computed but never rendered.
   */
  function Citations(answer: Option<string>): Option<seq<nat>> {
    if answer.None? || answer.value == "" then None
    else Some(FirstOccurrences(Occurrences(answer.value, 0)))
  }

  /**
   * The citation list: no number twice, a number is listed exactly when `[n]`
   * occurs in the answer, and numbers are listed in the order of their first
   * occurrence.
   */
  lemma CitationsProperties(answer: string, n: nat)
    requires answer != ""
    ensures var r := Citations(Some(answer)).value;
      NoDuplicates(r) &&
      (n in r <==> exists i :: CitesAt(answer, i, n)) &&
      InFirstSeenOrder(r, Occurrences(answer, 0))
  {
    var xs := Occurrences(answer, 0);
    FirstOccurrencesDistinct(xs);
    FirstOccurrencesMembers(xs);
    OccurrencesIff(answer, 0, n);
    FirstOccurrencesOrdered(xs);
  }

  lemma FirstOccurrencesSnoc(xs: seq<nat>, x: nat)
    ensures FirstOccurrences(xs + [x]) == FirstOccurrences(xs) + (if x in FirstOccurrences(xs) then [] else [x])
  {
    FirstOccurrencesMembers(xs);
    assert (xs + [x])[..|xs|] == xs;
  }

  /**
   * The component's scan: a missing or empty answer is not scanned; otherwise the
   * `exec` loop walks the answer, and a number not yet in `citations` is pushed.
   */
  method ExtractCitations(answer: Option<string>) returns (citations: Option<seq<nat>>)
    ensures citations == Citations(answer)
  {
    if answer.None? || answer.value == "" {
      return None;
    }
    var s := answer.value;
    var list: seq<nat> := [];
    ghost var found: seq<nat> := [];
    var i := 0;
    while i < |s|
      invariant i <= |s|
      invariant found + Occurrences(s, i) == Occurrences(s, 0)
      invariant list == FirstOccurrences(found)
      decreases |s| - i
    {
      match CitationAt(s, i)
      case Some((n, next)) =>
        FirstOccurrencesSnoc(found, n);
        if n !in list {
          list := list + [n];
        }
        assert Occurrences(s, i) == [n] + Occurrences(s, next);
        assert found + [n] + Occurrences(s, next) == found + Occurrences(s, i);
        found := found + [n];
        i := next;
      case None =>
        i := i + 1;
    }
    assert Occurrences(s, i) == [];
    assert found == Occurrences(s, 0);
    citations := Some(list);
  }
}
