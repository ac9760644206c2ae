/**
 * Participant selection for a debate: the session id is hashed with FNV-1a, the hash
 * seeds a Mulberry32 generator, the generator drives a Fisher-Yates shuffle of a copy
 * of the persona pool, and the first four shuffled personas become three core
 * participants and one wildcard.
 */
module DebateSelection {
  import opened Wrappers
  import opened JsString
  import opened Personas
  import opened SessionTypes

  const FnvOffsetBasis: bv32 := 0x811C9DC5
  const FnvPrime: bv32 := 0x0100_0193

  predicate CodeUnits(units: seq<int>) {
    forall k :: 0 <= k < |units| ==> 0 <= units[k] < 0x10000
  }

  /** A 16-bit code unit as the 32-bit value `^` combines it with. */
  function UnitBits(u: int): bv32
    requires 0 <= u < 0x10000
  {
    u as bv32
  }

  /** One FNV-1a round: xor in the unit, then `Math.imul` by the prime (wrapping at 2^32). */
  function FnvStep(hash: bv32, unit: bv32): bv32 {
    (hash ^ unit) * FnvPrime
  }

  /** FNV-1a over UTF-16 code units. */
  function Fnv1a(units: seq<int>): bv32
    requires CodeUnits(units)
  {
    if units == [] then FnvOffsetBasis
    else FnvStep(Fnv1a(units[..|units| - 1]), UnitBits(units[|units| - 1]))
  }

  /** The hash of a string, over the code units `charCodeAt` reads. */
  function HashOf(text: string): bv32 {
    Fnv1a(Utf16(text))
  }

  /** `hashToUint32`: the loop computes the FNV-1a hash of the text's code units. */
  method HashToUint32(text: string) returns (hash: bv32)
    ensures hash == HashOf(text)
  {
    var units := Utf16(text);
    hash := FnvOffsetBasis;
    var i := 0;
    while i < |units|
      invariant 0 <= i <= |units|
      invariant hash == Fnv1a(units[..i])
    {
      assert units[..i + 1][..i] == units[..i];
      hash := FnvStep(hash, UnitBits(units[i]));
      i := i + 1;
    }
    assert units[..|units|] == units;
  }

  /** Hashing a text extended by one character continues from the hash of the text. */
  lemma {:induction false} HashOfAppend(text: string, c: char)
    ensures |Utf16Units(c)| == 1 ==> HashOf(text + [c]) == FnvStep(HashOf(text), UnitBits(Utf16Units(c)[0]))
  {
    Utf16Append(text, [c]);
    var u := Utf16(text);
    if |Utf16Units(c)| == 1 {
      assert Utf16([c]) == Utf16Units(c) by {
        assert [c][1..] == [];
      }
      assert (u + Utf16Units(c))[..|u|] == u;
    }
  }

  lemma {:induction false} Utf16Append(a: string, b: string)
    ensures Utf16(a + b) == Utf16(a) + Utf16(b)
  {
    if a != [] {
      Utf16Append(a[1..], b);
      assert (a + b)[1..] == a[1..] + b;
    } else {
      assert a + b == b;
    }
  }

  /** Published FNV-1a test vectors: the empty text and "a". */
  lemma Fnv1aVectors()
    ensures HashOf("") == 0x811C9DC5
    ensures HashOf("a") == 0xE40C292C
  {
    HashOfAppend("", 'a');
    assert "" + ['a'] == "a";
    FnvStepOfA();
  }

  lemma FnvStepOfA()
    ensures FnvStep(FnvOffsetBasis, UnitBits(0x61)) == 0xE40C292C
  {
  }

  /** The amount the Mulberry32 state advances by on every draw. */
  const MulberryIncrement: bv32 := 0x6D2B79F5

  /**
   * The output of Mulberry32 for state `t`: the unsigned 32-bit `x`, the numerator
   * of the fraction `x / 2^32` the generator returns.
   */
  function Mix(t: bv32): bv32 {
    var x1 := (t ^ (t >> 15)) * (t | 1);
    var x2 := x1 ^ (x1 + (x1 ^ (x1 >> 7)) * (x1 | 61));
    x2 ^ (x2 >> 14)
  }

  /**
   * The generator `createRng` returns. Its closure state is a JavaScript number that
   * only the bitwise operators read, and they read it modulo 2^32, so the field holds
   * the state modulo 2^32 and advances with 32-bit wrap-around.
   */
  class Mulberry32 {
    var t: bv32

    /** `createRng(seed)`: the state starts at the hash of the seed text. */
    constructor (seed: string)
      ensures t == HashOf(seed)
    {
      var h := HashToUint32(seed);
      t := h;
    }

    /** One draw: the state advances and the output is mixed from the new state. */
    method Next() returns (x: bv32)
      modifies this
      ensures t == old(t) + MulberryIncrement
      ensures x == Mix(t)
    {
      t := t + MulberryIncrement;
      x := Mix(t);
    }
  }

  lemma DivBelow(p: int, n: int, m: int)
    requires n > 0 && 0 <= p < n * m
    ensures p / n < m
  {
    var q := p / n;
    MulMonotone(n, m, q);
  }

  lemma MulMonotone(n: int, m: int, q: int)
    requires n > 0
    ensures m <= q ==> n * m <= n * q
  {
  }

  lemma MulBelow(x: int, n: int, m: int)
    requires 0 <= x < n && m > 0
    ensures x * m < n * m
  {
  }

  function Numerator(x: bv32): (v: int)
    ensures 0 <= v < 0x1_0000_0000
  {
    x as int
  }

  /**
   * `Math.floor(rng() * (i + 1))`, computed exactly on the integer numerator; the
   * index never exceeds `i` because the fraction is below 1.
   */
  function SwapIndex(x: bv32, i: nat): (j: nat)
    ensures j <= i
  {
    var n := Numerator(x);
    MulBelow(n, 0x1_0000_0000, i + 1);
    DivBelow(n * (i + 1), 0x1_0000_0000, i + 1);
    (n * (i + 1)) / 0x1_0000_0000
  }

  /** The sequence with the elements at `i` and `j` exchanged. */
  function Swap<T>(s: seq<T>, i: nat, j: nat): (r: seq<T>)
    requires i < |s| && j < |s|
    ensures |r| == |s| && r[i] == s[j] && r[j] == s[i]
    ensures forall k :: 0 <= k < |s| && k != i && k != j ==> r[k] == s[k]
  {
    s[i := s[j]][j := s[i]]
  }

  /** Swap indices valid for the steps `i`, `i - 1`, ..., 1 of the shuffle. */
  predicate IndicesFor(js: seq<nat>, i: nat) {
    |js| == i && forall k :: 0 <= k < i ==> js[k] <= i - k
  }

  /** The swap indices the generator draws, from state `t`, for steps `i` down to 1. */
  function SwapIndices(t: bv32, i: nat): (js: seq<nat>)
    ensures IndicesFor(js, i)
    decreases i
  {
    if i == 0 then []
    else
      var t' := t + MulberryIncrement;
      [SwapIndex(Mix(t'), i)] + SwapIndices(t', i - 1)
  }

  /** The swaps of steps `i` down to 1, with the indices `js`. */
  function ApplySwaps<T>(s: seq<T>, js: seq<nat>, i: nat): seq<T>
    requires i < |s| && IndicesFor(js, i)
    decreases i
  {
    if i == 0 then s else ApplySwaps(Swap(s, i, js[0]), js[1..], i - 1)
  }

  /** The swaps of steps `i` down to 1 that the generator draws from state `t`. */
  function ShuffleFrom<T>(s: seq<T>, t: bv32, i: nat): seq<T>
    requires i < |s|
  {
    ApplySwaps(s, SwapIndices(t, i), i)
  }

  /** `shuffleWithSeed(s, seed)`, as a function of its inputs. */
  function Shuffle<T>(s: seq<T>, seed: string): seq<T> {
    if |s| == 0 then s else ShuffleFrom(s, HashOf(seed), |s| - 1)
  }

  /** `shuffleWithSeed`: Fisher-Yates on a fresh copy of the input, driven by Mulberry32. */
  method ShuffleWithSeed<T>(s: seq<T>, seed: string) returns (r: seq<T>)
    ensures r == Shuffle(s, seed)
  {
    var rng := new Mulberry32(seed);
    var a := new T[|s|](k requires 0 <= k < |s| => s[k]);
    assert a[..] == s;
    if |s| == 0 {
      return a[..];
    }
    ShuffleArray(a, rng);
    r := a[..];
  }

  /** The loop of `shuffleWithSeed`: from the last index down to 1, swap with a drawn index. */
  method ShuffleArray<T>(a: array<T>, rng: Mulberry32)
    requires a.Length > 0
    modifies a, rng
    ensures a[..] == ShuffleFrom(old(a[..]), old(rng.t), a.Length - 1)
  {
    var i := a.Length - 1;
    ghost var goal := ShuffleFrom(a[..], rng.t, i);
    while i > 0
      invariant 0 <= i < a.Length
      invariant ShuffleFrom(a[..], rng.t, i) == goal
      modifies a, rng
    {
      DrawAndSwap(a, rng, i);
      i := i - 1;
    }
  }

  /** One pass of the loop: draw `j` in 0..i and exchange `a[i]` and `a[j]`. */
  method DrawAndSwap<T>(a: array<T>, rng: Mulberry32, i: nat)
    requires 0 < i < a.Length
    modifies a, rng
    ensures rng.t == old(rng.t) + MulberryIncrement
    ensures a[..] == Swap(old(a[..]), i, SwapIndex(Mix(rng.t), i))
    ensures ShuffleFrom(a[..], rng.t, i - 1) == ShuffleFrom(old(a[..]), old(rng.t), i)
  {
    ghost var before, t := a[..], rng.t;
    var x := rng.Next();
    var j := SwapIndex(x, i);
    var tmp := a[i];
    a[i] := a[j];
    a[j] := tmp;
    ghost var after := a[..];
    assert after == Swap(before, i, j);
    ShuffleFromStep(before, t, i);
  }

  /** The first index drawn from state `t` comes from the next state, the rest from there on. */
  lemma SwapIndicesStep(t: bv32, i: nat)
    requires i > 0
    ensures SwapIndices(t, i) == [SwapIndex(Mix(t + MulberryIncrement), i)] + SwapIndices(t + MulberryIncrement, i - 1)
  {
  }

  /** The first swap of a shuffle from state `t` uses the next state's draw; the rest continue from there. */
  lemma ShuffleFromStep<T>(s: seq<T>, t: bv32, i: nat)
    requires 0 < i < |s|
    ensures ShuffleFrom(s, t, i) == ShuffleFrom(Swap(s, i, SwapIndex(Mix(t + MulberryIncrement), i)), t + MulberryIncrement, i - 1)
  {
    SwapIndicesStep(t, i);
  }

  /** One swap keeps the multiset of elements. */
  lemma SwapPermutes<T>(s: seq<T>, i: nat, j: nat)
    requires i < |s| && j < |s|
    ensures multiset(Swap(s, i, j)) == multiset(s)
  {
    var r := s[i := s[j]];
    assert multiset(r) == multiset(s) - multiset{s[i]} + multiset{s[j]};
    assert multiset(r[j := s[i]]) == multiset(r) - multiset{r[j]} + multiset{s[i]};
  }

  lemma {:induction false} SwapsPermute<T>(s: seq<T>, js: seq<nat>, i: nat)
    requires i < |s| && IndicesFor(js, i)
    ensures |ApplySwaps(s, js, i)| == |s|
    ensures multiset(ApplySwaps(s, js, i)) == multiset(s)
    decreases i
  {
    if i > 0 {
      SwapPermutes(s, i, js[0]);
      SwapsPermute(Swap(s, i, js[0]), js[1..], i - 1);
    }
  }

  /** The shuffle is a permutation of its input. */
  lemma ShufflePermutes<T>(s: seq<T>, seed: string)
    ensures |Shuffle(s, seed)| == |s|
    ensures multiset(Shuffle(s, seed)) == multiset(s)
  {
    if |s| > 0 {
      SwapsPermute(s, SwapIndices(HashOf(seed), |s| - 1), |s| - 1);
    }
  }

  predicate DistinctKeys<T>(s: seq<T>, key: T -> string) {
    forall p, q :: 0 <= p < q < |s| ==> key(s[p]) != key(s[q])
  }

  lemma SwapKeepsDistinctKeys<T>(s: seq<T>, i: nat, j: nat, key: T -> string)
    requires i < |s| && j < |s| && DistinctKeys(s, key)
    ensures DistinctKeys(Swap(s, i, j), key)
  {
    var r := Swap(s, i, j);
    forall p, q | 0 <= p < q < |r|
      ensures key(r[p]) != key(r[q])
    {
      var p' := if p == i then j else if p == j then i else p;
      var q' := if q == i then j else if q == j then i else q;
      assert r[p] == s[p'] && r[q] == s[q'] && p' != q';
      if p' > q' {
        assert key(s[q']) != key(s[p']);
      }
    }
  }

  lemma {:induction false} SwapsKeepDistinctKeys<T>(s: seq<T>, js: seq<nat>, i: nat, key: T -> string)
    requires i < |s| && IndicesFor(js, i) && DistinctKeys(s, key)
    ensures DistinctKeys(ApplySwaps(s, js, i), key)
    decreases i
  {
    if i > 0 {
      SwapKeepsDistinctKeys(s, i, js[0], key);
      SwapsKeepDistinctKeys(Swap(s, i, js[0]), js[1..], i - 1, key);
    }
  }

  /** A key that tells the input's elements apart also tells the shuffled elements apart. */
  lemma ShuffleKeepsDistinctKeys<T>(s: seq<T>, seed: string, key: T -> string)
    requires DistinctKeys(s, key)
    ensures DistinctKeys(Shuffle(s, seed), key)
  {
    if |s| > 0 {
      SwapsKeepDistinctKeys(s, SwapIndices(HashOf(seed), |s| - 1), |s| - 1, key);
    }
  }

  datatype Selection = Selection(core: seq<Persona>, wildcard: Persona)

  /** What `selectDebateParticipants` does with the shuffled pool. */
  function SelectionOf(shuffled: seq<Persona>): Result<Selection> {
    if |shuffled| < 4 then Failure("Not enough personas in the pool to start a debate")
    else Success(Selection(shuffled[..3], shuffled[3]))
  }

  /** The seed text a session's selection is shuffled with. */
  function SelectionSeed(sessionId: string): string {
    sessionId + ":personas"
  }

  /** `selectDebateParticipants` over a pool, as a function of the pool and the session id. */
  function Select(pool: seq<Persona>, sessionId: string): Result<Selection> {
    SelectionOf(Shuffle(pool, SelectionSeed(sessionId)))
  }

  /**
   * `selectDebateParticipants`. The source always passes the persona pool; here the
   * pool is a parameter so that the size check can be exercised.
   */
  method SelectDebateParticipants(pool: seq<Persona>, sessionId: string) returns (r: Result<Selection>)
    ensures r == Select(pool, sessionId)
  {
    var shuffled := ShuffleWithSeed(pool, SelectionSeed(sessionId));
    if |shuffled| < 4 {
      return Failure("Not enough personas in the pool to start a debate");
    }
    return Success(Selection(shuffled[..3], shuffled[3]));
  }

  /**
   * Selection fails exactly for a pool shorter than four. Otherwise the three core
   * participants and the wildcard are four entries of the pool, at distinct positions
   * of a permutation of it, so ids and roles that are distinct in the pool stay
   * distinct among the four.
   */
  lemma SelectProperties(pool: seq<Persona>, sessionId: string)
    ensures Select(pool, sessionId).Failure? <==> |pool| < 4
    ensures Select(pool, sessionId).Success? ==>
      var sel := Select(pool, sessionId).value;
      var four := sel.core + [sel.wildcard];
      |sel.core| == 3 &&
      multiset(four) <= multiset(pool) &&
      (DistinctIds(pool) ==> DistinctIds(four) && sel.wildcard !in sel.core) &&
      (DistinctRoles(pool) ==> DistinctRoles(four))
  {
    var seed := SelectionSeed(sessionId);
    ShufflePermutes(pool, seed);
    if |pool| >= 4 {
      var shuffled := Shuffle(pool, seed);
      SelectedFour(pool, sessionId);
      PrefixSubMultiset(shuffled, 4);
      if DistinctIds(pool) {
        ShuffleKeepsDistinctKeys(pool, seed, (p: Persona) => p.id);
        DistinctIdsPrefix(shuffled, 4);
        WildcardNotInCore(Select(pool, sessionId).value);
      }
      if DistinctRoles(pool) {
        ShuffleKeepsDistinctKeys(pool, seed, (p: Persona) => p.role);
        DistinctRolesPrefix(shuffled, 4);
      }
    }
  }

  /** The four selected personas are the first four of the shuffled pool. */
  lemma SelectedFour(pool: seq<Persona>, sessionId: string)
    requires |pool| >= 4
    ensures |Shuffle(pool, SelectionSeed(sessionId))| == |pool|
    ensures Select(pool, sessionId).Success?
    ensures var sel := Select(pool, sessionId).value;
      |sel.core| == 3 && sel.core + [sel.wildcard] == Shuffle(pool, SelectionSeed(sessionId))[..4]
  {
    ShufflePermutes(pool, SelectionSeed(sessionId));
  }

  lemma PrefixSubMultiset<T>(s: seq<T>, n: nat)
    requires n <= |s|
    ensures multiset(s[..n]) <= multiset(s)
  {
    assert s == s[..n] + s[n..];
  }

  lemma DistinctIdsPrefix(s: seq<Persona>, n: nat)
    requires n <= |s| && DistinctKeys(s, (p: Persona) => p.id)
    ensures DistinctIds(s[..n])
  {
  }

  lemma DistinctRolesPrefix(s: seq<Persona>, n: nat)
    requires n <= |s| && DistinctKeys(s, (p: Persona) => p.role)
    ensures DistinctRoles(s[..n])
  {
  }

  lemma WildcardNotInCore(sel: Selection)
    requires DistinctIds(sel.core + [sel.wildcard])
    ensures sel.wildcard !in sel.core
  {
    var four := sel.core + [sel.wildcard];
    assert forall k :: 0 <= k < |sel.core| ==> four[k] == sel.core[k] && four[|sel.core|] == sel.wildcard;
  }

  /** With the persona pool selection never fails, and the four personas are different. */
  lemma PoolSelection(sessionId: string)
    ensures Select(PersonaPool, sessionId).Success?
    ensures var sel := Select(PersonaPool, sessionId).value;
      DistinctIds(sel.core + [sel.wildcard]) && DistinctRoles(sel.core + [sel.wildcard]) &&
      sel.wildcard !in sel.core
  {
    PoolFacts();
    SelectProperties(PersonaPool, sessionId);
  }

  /** A participant with the provider chosen for it and its display label. */
  datatype AssignedParticipant = AssignedParticipant(persona: Persona, providerId: string, agent: string, isWildcard: bool)

  /**
   * `selectProviderIdForPersona` and `getAgentLabel`, which are not part of this model,
   * as functions of their arguments.
   */
  datatype Directory = Directory(
    selectProviderId: (Persona, string) -> string,
    agentLabel: (string, string) -> string)

  function AssignParticipant(dir: Directory, sessionId: string, persona: Persona, isWildcard: bool): AssignedParticipant {
    var providerId := dir.selectProviderId(persona, sessionId);
    AssignedParticipant(persona, providerId, dir.agentLabel(persona.name, providerId), isWildcard)
  }

  function ToSessionParticipant(p: AssignedParticipant): SessionParticipant {
    SessionParticipant(p.persona.id, p.persona.name, p.persona.role, p.persona.description,
                       p.providerId, p.agent, p.isWildcard)
  }

  datatype Assignment = Assignment(
    core: seq<AssignedParticipant>,
    wildcard: AssignedParticipant,
    all: seq<AssignedParticipant>,
    sessionParticipants: seq<SessionParticipant>)

  /** The assignment built from a selection. */
  function AssignmentOf(dir: Directory, sessionId: string, sel: Selection): (a: Assignment)
    ensures |a.core| == |sel.core| && a.all == a.core + [a.wildcard]
    ensures |a.sessionParticipants| == |a.all|
    ensures forall k :: 0 <= k < |sel.core| ==> a.core[k].persona == sel.core[k] && !a.core[k].isWildcard
    ensures a.wildcard.persona == sel.wildcard && a.wildcard.isWildcard
    ensures forall k :: 0 <= k < |a.all| ==>
      var sp := a.sessionParticipants[k];
      sp.personaId == a.all[k].persona.id && sp.role == a.all[k].persona.role &&
      sp.providerId == a.all[k].providerId && sp.isWildcard == a.all[k].isWildcard
  {
    var core := seq(|sel.core|, k requires 0 <= k < |sel.core| => AssignParticipant(dir, sessionId, sel.core[k], false));
    var wildcard := AssignParticipant(dir, sessionId, sel.wildcard, true);
    var all := core + [wildcard];
    Assignment(core, wildcard, all, seq(|all|, k requires 0 <= k < |all| => ToSessionParticipant(all[k])))
  }

  /** `assignDebateParticipants`. */
  method AssignDebateParticipants(dir: Directory, pool: seq<Persona>, sessionId: string) returns (r: Result<Assignment>)
    ensures Select(pool, sessionId).Failure? ==> r == Failure(Select(pool, sessionId).error)
    ensures Select(pool, sessionId).Success? ==>
      r == Success(AssignmentOf(dir, sessionId, Select(pool, sessionId).value))
  {
    var sel := SelectDebateParticipants(pool, sessionId);
    if sel.Failure? {
      return Failure(sel.error);
    }
    return Success(AssignmentOf(dir, sessionId, sel.value));
  }
}
