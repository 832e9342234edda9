/**
 * The nine energy centers and the simulated center definition: a map from
 * each center to whether it is defined, filled in from a seed (the MD5
 * digest of the birth minute, which is a parameter here).
 */
module Centers {

  datatype Center = Head | Ajna | Throat | G | Ego | Spleen | Sacral | SolarPlexus | Root

  /** `CENTERS`, in the order every map over the centers is built. */
  const CENTERS: seq<Center> := [Head, Ajna, Throat, G, Ego, Spleen, Sacral, SolarPlexus, Root]

  /** The key a center has in the result maps. */
  function CenterName(c: Center): string
  {
    match c
    case Head => "Head"
    case Ajna => "Ajna"
    case Throat => "Throat"
    case G => "G"
    case Ego => "Ego"
    case Spleen => "Spleen"
    case Sacral => "Sacral"
    case SolarPlexus => "Solar_Plexus"
    case Root => "Root"
  }

  /** The position of a center in CENTERS. */
  function CenterIndex(c: Center): (i: nat)
    ensures i < |CENTERS| && CENTERS[i] == c
  {
    match c
    case Head => 0
    case Ajna => 1
    case Throat => 2
    case G => 3
    case Ego => 4
    case Spleen => 5
    case Sacral => 6
    case SolarPlexus => 7
    case Root => 8
  }

  /** Every center appears in CENTERS exactly once, and the names are distinct. */
  lemma CentersEnumerated()
    ensures forall i | 0 <= i < |CENTERS| :: CenterIndex(CENTERS[i]) == i
    ensures forall c, d :: CenterName(c) == CenterName(d) ==> c == d
  {
  }

  /** Which centers are defined; Python's dict keyed by the center names. */
  type CenterState = map<Center, bool>

  /** `defined_centers.get(c, False)`. */
  predicate IsDefined(state: CenterState, c: Center)
  {
    c in state && state[c]
  }

  /** `any(defined_centers.values())`. */
  predicate AnyDefined(state: CenterState)
  {
    exists c | c in state :: state[c]
  }

  /** The number of centers, taken in CENTERS order, that the state defines. */
  function DefinedCount(state: CenterState): nat
  {
    |set i | 0 <= i < |CENTERS| && IsDefined(state, CENTERS[i])|
  }

  /**
   * `[name for name, is_defined in defined_centers.items() if is_defined]`
   * over the first `n` centers, the dict being iterated in CENTERS order.
   */
  function DefinedUpTo(state: CenterState, n: nat): seq<Center>
    requires n <= |CENTERS|
  {
    if n == 0 then []
    else DefinedUpTo(state, n - 1) + (if IsDefined(state, CENTERS[n - 1]) then [CENTERS[n - 1]] else [])
  }

  /** The defined centers, in CENTERS order. */
  function DefinedList(state: CenterState): seq<Center>
  {
    DefinedUpTo(state, |CENTERS|)
  }

  /** The list over the first `n` centers holds exactly the defined ones among them. */
  lemma {:induction false} DefinedUpToMembers(state: CenterState, n: nat)
    requires n <= |CENTERS|
    ensures forall c :: c in DefinedUpTo(state, n) <==> IsDefined(state, c) && CenterIndex(c) < n
  {
    if n > 0 {
      DefinedUpToMembers(state, n - 1);
      forall c ensures c in DefinedUpTo(state, n) <==> IsDefined(state, c) && CenterIndex(c) < n {
        assert CenterIndex(c) == n - 1 <==> c == CENTERS[n - 1] by {
          CentersEnumerated();
        }
      }
    }
  }

  /** No center is listed twice. */
  lemma {:induction false} DefinedUpToDistinct(state: CenterState, n: nat)
    requires n <= |CENTERS|
    ensures forall i, j | 0 <= i < j < |DefinedUpTo(state, n)| :: DefinedUpTo(state, n)[i] != DefinedUpTo(state, n)[j]
  {
    if n > 0 {
      DefinedUpToDistinct(state, n - 1);
      DefinedUpToMembers(state, n - 1);
      assert CenterIndex(CENTERS[n - 1]) == n - 1 by {
        CentersEnumerated();
      }
    }
  }

  /** The list over the first `n` centers is as long as the set of defined indices below `n`. */
  lemma {:induction false} DefinedUpToCount(state: CenterState, n: nat)
    requires n <= |CENTERS|
    ensures |DefinedUpTo(state, n)| == |set i | 0 <= i < n && IsDefined(state, CENTERS[i])|
  {
    if n > 0 {
      DefinedUpToCount(state, n - 1);
      var before := set i | 0 <= i < n - 1 && IsDefined(state, CENTERS[i]);
      var after := set i | 0 <= i < n && IsDefined(state, CENTERS[i]);
      if IsDefined(state, CENTERS[n - 1]) {
        assert after == before + {n - 1};
      } else {
        assert after == before;
      }
    }
  }

  /** The defined list names every defined center once; its length is the defined count. */
  lemma DefinedListFacts(state: CenterState)
    ensures forall c :: c in DefinedList(state) <==> IsDefined(state, c)
    ensures forall i, j | 0 <= i < j < |DefinedList(state)| :: DefinedList(state)[i] != DefinedList(state)[j]
    ensures |DefinedList(state)| == DefinedCount(state)
  {
    DefinedUpToMembers(state, |CENTERS|);
    DefinedUpToDistinct(state, |CENTERS|);
    DefinedUpToCount(state, |CENTERS|);
  }

  // ---------------------------------------------------------------------------
  // simulate_gate_activations

  /** Every center present and undefined. */
  function AllUndefined(): CenterState
  {
    map c | c in CENTERS :: false
  }

  /** Every center present, defined exactly when its index is in `indices`. */
  function Marks(indices: set<int>): CenterState
  {
    map c | c in CENTERS :: CenterIndex(c) in indices
  }

  /** The next index round the nine, `(idx + 1) % 9`. */
  function Next(idx: int): (r: int)
    ensures 0 <= idx < 9 ==> r == if idx == 8 then 0 else idx + 1
  {
    (idx + 1) % 9
  }

  /** How many steps round the nine lead from `idx` to `free`. */
  function Steps(idx: int, free: int): int
  {
    if idx <= free then free - idx else free - idx + 9
  }

  /**
   * The probe `while idx in defined_indices: idx = (idx + 1) % 9`, for at
   * most `fuel` steps: the first index from `idx` on, cyclically, that is
   * not yet taken.
   */
  function Probe(taken: set<int>, idx: int, fuel: nat): int
    decreases fuel
  {
    if fuel == 0 || idx !in taken then idx else Probe(taken, Next(idx), fuel - 1)
  }

  /** The index one round claims: the probe from `start`, nine steps at most. */
  function Claimed(taken: set<int>, start: int): int
  {
    Probe(taken, start, 9)
  }

  /** Where round `i` starts probing: `(seed + i * 37) % 9`. */
  function ProbeStart(seed: nat, i: nat): (start: int)
    ensures 0 <= start < 9
  {
    (seed + i * 37) % 9
  }

  /** The start of each of the first `n` rounds. */
  function Starts(seed: nat, n: nat): (starts: seq<int>)
    ensures |starts| == n
  {
    if n == 0 then [] else Starts(seed, n - 1) + [ProbeStart(seed, n - 1)]
  }

  /** `defined_indices` after one probe from each start in turn. */
  function Taken(starts: seq<int>): set<int>
  {
    if starts == [] then {}
    else
      var taken := Taken(starts[..|starts| - 1]);
      taken + {Claimed(taken, starts[|starts| - 1])}
  }

  /** `defined_indices` after `n` rounds of the selection loop. */
  function Chosen(seed: nat, n: nat): set<int>
  {
    Taken(Starts(seed, n))
  }

  /** `simulate_gate_activations` for a seed. */
  function SimulatedCenters(seed: nat): CenterState
  {
    if seed % 100 < 5 then AllUndefined() else Marks(Chosen(seed, 3 + seed % 5))
  }

  predicate IndicesIn(taken: set<int>)
  {
    forall k | k in taken :: 0 <= k < 9
  }

  /** The smallest index from `k` to 8 that is not taken, or 9. */
  function FirstFree(taken: set<int>, k: nat): (r: nat)
    requires k <= 9
    ensures k <= r <= 9 && (r < 9 ==> r !in taken)
    ensures r == 9 ==> forall j | k <= j < 9 :: j in taken
    decreases 9 - k
  {
    if k == 9 || k !in taken then k else FirstFree(taken, k + 1)
  }

  /** Fewer than nine taken indices leave one free. */
  lemma {:induction false} FreeIndex(taken: set<int>) returns (free: int)
    requires IndicesIn(taken) && |taken| < 9
    ensures 0 <= free < 9 && free !in taken
  {
    free := FirstFree(taken, 0);
    if free == 9 {
      FullIndices(taken);
      assert false;
    }
  }

  /** The only set of indices below 9 that holds all of them has nine elements. */
  lemma FullIndices(taken: set<int>)
    requires IndicesIn(taken) && forall j | 0 <= j < 9 :: j in taken
    ensures |taken| == 9
  {
    var all := {0, 1, 2, 3, 4, 5, 6, 7, 8};
    assert forall j | j in all :: j in taken;
    assert forall j | j in taken :: j in all;
    assert taken == all;
  }

  /** Within `fuel` steps of a free index the probe stops on a free index. */
  lemma {:induction false} ProbeFinds(taken: set<int>, idx: int, fuel: nat, free: int)
    requires 0 <= idx < 9 && 0 <= free < 9 && free !in taken
    requires Steps(idx, free) < fuel
    ensures 0 <= Probe(taken, idx, fuel) < 9 && Probe(taken, idx, fuel) !in taken
    decreases fuel
  {
    if idx in taken {
      ProbeFinds(taken, Next(idx), fuel - 1, free);
    }
  }

  /** One round of the selection loop adds an index below nine not yet taken. */
  lemma ProbeAdds(taken: set<int>, start: int)
    requires IndicesIn(taken) && |taken| < 9 && 0 <= start < 9
    ensures IndicesIn(taken + {Claimed(taken, start)})
    ensures |taken + {Claimed(taken, start)}| == |taken| + 1
  {
    var free := FreeIndex(taken);
    ProbeFinds(taken, start, 9, free);
  }

  /** Round `i` starts from `ProbeStart(seed, i)`. */
  lemma {:induction false} StartsFacts(seed: nat, n: nat)
    ensures forall i | 0 <= i < n :: Starts(seed, n)[i] == ProbeStart(seed, i)
  {
    if n > 0 {
      StartsFacts(seed, n - 1);
    }
  }

  /** Probing from up to nine starts below nine takes one new index each time. */
  lemma {:induction false} TakenFacts(starts: seq<int>)
    requires |starts| <= 9 && forall i | 0 <= i < |starts| :: 0 <= starts[i] < 9
    ensures IndicesIn(Taken(starts)) && |Taken(starts)| == |starts|
  {
    if starts != [] {
      var earlier := starts[..|starts| - 1];
      TakenFacts(earlier);
      ProbeAdds(Taken(earlier), starts[|starts| - 1]);
    }
  }

  /** Each of the first `n` rounds, for n up to nine, takes a new index. */
  lemma ChosenFacts(seed: nat, n: nat)
    requires n <= 9
    ensures IndicesIn(Chosen(seed, n)) && |Chosen(seed, n)| == n
  {
    StartsFacts(seed, n);
    TakenFacts(Starts(seed, n));
  }

  /** The centers marked from a set of indices are those indices. */
  lemma {:induction false} MarksCount(indices: set<int>)
    requires IndicesIn(indices)
    ensures (set i | 0 <= i < |CENTERS| && IsDefined(Marks(indices), CENTERS[i])) == indices
  {
    CentersEnumerated();
  }

  /**
   * The simulation defines no center when seed % 100 < 5, and otherwise
   * exactly 3 + seed % 5 distinct centers; every center is a key either way.
   */
  lemma {:induction false} SimulatedCount(seed: nat)
    ensures SimulatedCenters(seed).Keys == set c | c in CENTERS
    ensures DefinedCount(SimulatedCenters(seed)) == if seed % 100 < 5 then 0 else 3 + seed % 5
    ensures AnyDefined(SimulatedCenters(seed)) <==> seed % 100 >= 5
  {
    var state := SimulatedCenters(seed);
    if seed % 100 < 5 {
      assert (set i | 0 <= i < |CENTERS| && IsDefined(state, CENTERS[i])) == {};
    } else {
      var chosen := Chosen(seed, 3 + seed % 5);
      ChosenFacts(seed, 3 + seed % 5);
      MarksCount(chosen);
      var k :| k in chosen;
      assert state[CENTERS[k]];
    }
  }

  /**
   * The inner probe of `simulate_gate_activations`: from `start`, step to
   * the next index modulo 9 while the index is taken.
   */
  method ProbeFree(taken: set<int>, start: int) returns (idx: int)
    requires IndicesIn(taken) && |taken| < 9 && 0 <= start < 9
    ensures idx == Claimed(taken, start)
    ensures 0 <= idx < 9 && idx !in taken
  {
    idx := start;
    ghost var fuel: nat := 9;
    ghost var free := FreeIndex(taken);
    ProbeFinds(taken, start, 9, free);
    while idx in taken
      invariant 0 <= idx < 9 && Steps(idx, free) < fuel
      invariant Probe(taken, idx, fuel) == Probe(taken, start, 9)
      decreases fuel
    {
      idx := (idx + 1) % 9;
      fuel := fuel - 1;
    }
  }

  /** Defining one more center marks one more index. */
  lemma MarkOne(indices: set<int>, idx: int, next: set<int>)
    requires 0 <= idx < 9 && next == indices + {idx}
    ensures Marks(indices)[CENTERS[idx] := true] == Marks(next)
  {
    CentersEnumerated();
  }

  /** One round of the selection loop adds the probed index. */
  lemma ChosenStep(seed: nat, i: nat, taken: set<int>, idx: int, next: set<int>)
    requires taken == Chosen(seed, i) && idx == Claimed(taken, ProbeStart(seed, i))
    requires next == taken + {idx}
    ensures next == Chosen(seed, i + 1)
  {
    var starts := Starts(seed, i + 1);
    assert starts == Starts(seed, i) + [ProbeStart(seed, i)];
    assert starts[..i] == Starts(seed, i) && starts[i] == ProbeStart(seed, i);
  }

  /** `m` with the centers before index `j` set to undefined. */
  function Cleared(m: CenterState, j: int): CenterState
  {
    map c | c in m :: m[c] && CenterIndex(c) >= j
  }

  /** Clearing the center at index `j` clears one more index. */
  lemma ClearOne(m: CenterState, j: int, previous: CenterState, next: CenterState)
    requires 0 <= j < 9 && CENTERS[j] in m
    requires previous == Cleared(m, j) && next == previous[CENTERS[j] := false]
    ensures next == Cleared(m, j + 1)
  {
    CentersEnumerated();
  }

  /** Clearing every index of a full state leaves every center undefined. */
  lemma ClearedAll(m: CenterState)
    requires m.Keys == set c | c in CENTERS
    ensures Cleared(m, 9) == AllUndefined()
  {
  }

  /**
   * `simulate_gate_activations`: every center starts undefined; round i
   * probes from (seed + 37 i) % 9 to the first index not yet taken and
   * defines that center; a seed with seed % 100 < 5 then clears them all.
   */
  method SimulateGateActivations(seed: nat) returns (state: CenterState)
    ensures state == SimulatedCenters(seed)
  {
    var numDefined := 3 + seed % 5;
    state := map c | c in CENTERS :: false;
    assert state == Marks({});
    var centerList := CENTERS;
    var definedIndices: set<int> := {};
    for i := 0 to numDefined
      invariant definedIndices == Chosen(seed, i)
      invariant state == Marks(definedIndices)
    {
      ChosenFacts(seed, i);
      var idx := ProbeFree(definedIndices, (seed + i * 37) % |centerList|);
      ghost var taken := definedIndices;
      definedIndices := definedIndices + {idx};
      state := state[centerList[idx] := true];
      ChosenStep(seed, i, taken, idx, definedIndices);
      MarkOne(taken, idx, definedIndices);
    }
    if seed % 100 < 5 {
      ghost var before := state;
      for j := 0 to |centerList|
        invariant state == Cleared(before, j)
      {
        ghost var previous := state;
        state := state[centerList[j] := false];
        ClearOne(before, j, previous, state);
      }
      ClearedAll(before);
    }
  }
}
