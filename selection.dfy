/**
 * Candidate selection: with more than three POIs the story service asks
 * the language model for the 1-based indices of three of them, resolves
 * the indices against the input, tops the pick up from the POIs not yet
 * picked, in input order, and keeps the first three.
 *
 * A POI is identified by its position in the input list: the source
 * compares POI objects by reference, and distinct positions of a decoded
 * JSON array are distinct objects even when their fields agree.
 */
module Selection {
  import opened Types
  import opened Prompts

  /**
   * What the language model call yields after the reply's first bracketed
   * array is parsed: the integers in it, or a failure (a failed request, a
   * non-OK status, no bracketed array, an array that does not parse).
   */
  datatype IndexReply = SelectionFailed | Indices(values: seq<int>)

  /** The language model as the selector sees it: a prompt in, a reply out. */
  type SelectionService = string -> IndexReply

  const SelectionSize: nat := 3

  /**
   * `selectedIndices.map(index => pois[index - 1]).filter(poi => poi !== undefined)`,
   * as positions: an index in 1..n names position index - 1, any other is dropped.
   */
  function ResolveIndices(indices: seq<int>, n: nat): (r: seq<nat>)
    ensures |r| <= |indices|
    ensures forall i :: 0 <= i < |r| ==> r[i] < n
  {
    if indices == [] then []
    else
      var last := indices[|indices| - 1];
      assert indices == indices[..|indices| - 1] + [last];
      ResolveIndices(indices[..|indices| - 1], n) + (if 1 <= last <= n then [last - 1] else [])
  }

  /** Position `j` is resolved exactly when `j + 1` is in the reply and names one of the `n` POIs. */
  lemma {:induction false} ResolvedMembers(indices: seq<int>, n: nat)
    ensures forall j: nat :: j in ResolveIndices(indices, n) <==> j < n && j + 1 in indices
  {
    if indices != [] {
      var init := indices[..|indices| - 1];
      ResolvedMembers(init, n);
      assert indices == init + [indices[|indices| - 1]];
    }
  }

  /** Indices resolve one by one, in reply order: resolving `a + b` resolves `a`, then `b`. */
  lemma {:induction false} ResolveIndicesAppend(a: seq<int>, b: seq<int>, n: nat)
    ensures ResolveIndices(a + b, n) == ResolveIndices(a, n) + ResolveIndices(b, n)
    decreases |b|
  {
    if b == [] {
      assert a + b == a;
    } else {
      var c := a + b;
      var init := b[..|b| - 1];
      assert c[..|c| - 1] == a + init;
      assert c[|c| - 1] == b[|b| - 1];
      ResolveIndicesAppend(a, init, n);
    }
  }

  /** A single index resolves to its position when it names one of the `n` POIs, and to nothing otherwise. */
  lemma ResolveIndicesOne(index: int, n: nat)
    ensures ResolveIndices([index], n) == if 1 <= index <= n then [index - 1] else []
  {
    assert [index][..0] == [];
  }

  /** `pois.filter(poi => !selectedPOIs.includes(poi))`, as positions below `n`, ascending. */
  function Unpicked(picked: seq<nat>, n: nat): (r: seq<nat>)
    ensures forall i :: 0 <= i < |r| ==> r[i] < n
  {
    if n == 0 then []
    else Unpicked(picked, n - 1) + (if n - 1 in picked then [] else [n - 1])
  }

  /** The unpicked positions are exactly those below `n` that `picked` does not hold. */
  lemma {:induction false} UnpickedMembers(picked: seq<nat>, n: nat)
    ensures forall j: nat :: j in Unpicked(picked, n) <==> j < n && j !in picked
  {
    if n > 0 {
      UnpickedMembers(picked, n - 1);
    }
  }

  /** The unpicked positions come in input order. */
  lemma {:induction false} UnpickedAscending(picked: seq<nat>, n: nat)
    ensures forall i, k :: 0 <= i < k < |Unpicked(picked, n)| ==> Unpicked(picked, n)[i] < Unpicked(picked, n)[k]
  {
    if n > 0 {
      UnpickedAscending(picked, n - 1);
    }
  }

  /** The positions below `n` that occur in `picked`, counted once each. */
  function CountIn(picked: seq<nat>, n: nat): nat {
    if n == 0 then 0
    else CountIn(picked, n - 1) + (if n - 1 in picked then 1 else 0)
  }

  lemma {:induction false} UnpickedCount(picked: seq<nat>, n: nat)
    ensures |Unpicked(picked, n)| + CountIn(picked, n) == n
  {
    if n > 0 {
      UnpickedCount(picked, n - 1);
    }
  }

  lemma {:induction false} CountInNone(n: nat)
    ensures CountIn([], n) == 0
  {
    if n > 0 {
      CountInNone(n - 1);
    }
  }

  /** Dropping the head of `picked` loses at most the head's own position. */
  lemma {:induction false} CountInCons(picked: seq<nat>, n: nat)
    requires picked != []
    ensures CountIn(picked, n) <= CountIn(picked[1..], n) + (if picked[0] < n then 1 else 0)
  {
    if n > 0 {
      CountInCons(picked, n - 1);
      assert n - 1 in picked <==> n - 1 == picked[0] || n - 1 in picked[1..] by {
        assert picked == [picked[0]] + picked[1..];
      }
    }
  }

  lemma {:induction false} CountInAtMostLength(picked: seq<nat>, n: nat)
    ensures CountIn(picked, n) <= |picked|
    decreases |picked|
  {
    if picked == [] {
      CountInNone(n);
    } else {
      CountInCons(picked, n);
      CountInAtMostLength(picked[1..], n);
    }
  }

  /** At least `n - |picked|` positions are left over. */
  lemma UnpickedAtLeast(picked: seq<nat>, n: nat)
    ensures |Unpicked(picked, n)| >= n - |picked|
  {
    UnpickedCount(picked, n);
    CountInAtMostLength(picked, n);
  }

  /** The repair step: top a short pick up from the unpicked positions, in order. */
  function Repaired(picked: seq<nat>, n: nat): seq<nat> {
    if |picked| < SelectionSize then picked + Take(Unpicked(picked, n), SelectionSize - |picked|)
    else picked
  }

  /** The POIs at the given positions, in that order. */
  function At(pois: seq<Poi>, positions: seq<nat>): (r: seq<Poi>)
    requires forall i :: 0 <= i < |positions| ==> positions[i] < |pois|
    ensures |r| == |positions|
    ensures forall i :: 0 <= i < |r| ==> r[i] == pois[positions[i]]
  {
    seq(|positions|, i requires 0 <= i < |positions| => pois[positions[i]])
  }

  /**
   * What `selectInterestingPOIs(pois)` returns when the model answers as
   * `service` does. Three or fewer POIs come back unchanged; more always
   * give exactly three, whatever the model answers; every selected POI is
   * one of the input POIs.
   */
  function Select(pois: seq<Poi>, service: SelectionService): (r: seq<Poi>)
    ensures |r| == Min(|pois|, SelectionSize)
    ensures |pois| <= SelectionSize ==> r == pois
    ensures forall p :: p in r ==> p in pois
  {
    if |pois| <= SelectionSize then pois
    else match service(SelectionPrompt(pois))
      case SelectionFailed => pois[..SelectionSize]
      case Indices(indices) =>
        UnpickedAtLeast(ResolveIndices(indices, |pois|), |pois|);
        PickByIndices(pois, indices)
  }

  /** The selection the parse-and-repair path makes from the parsed indices. */
  function PickByIndices(pois: seq<Poi>, indices: seq<int>): seq<Poi> {
    At(pois, Take(Repaired(ResolveIndices(indices, |pois|), |pois|), SelectionSize))
  }

  /**
   * `selectInterestingPOIs(pois)`. `prompt` is the text sent to the model,
   * `None` when the input is small enough that the model is not asked.
   */
  method SelectInterestingPois(pois: seq<Poi>, service: SelectionService)
    returns (selected: seq<Poi>, ghost prompt: Option<string>)
    ensures selected == Select(pois, service)
    ensures prompt == if |pois| <= SelectionSize then None else Some(SelectionPrompt(pois))
  {
    if |pois| <= SelectionSize {
      return pois, None;
    }
    var text := SelectionPrompt(pois);
    prompt := Some(text);
    var reply := service(text);
    if reply.SelectionFailed? {
      return pois[..SelectionSize], prompt;
    }
    selected := PickFromReply(pois, reply.values);
  }

  /** The parse-and-repair path: resolve, top up, keep the first three. */
  method PickFromReply(pois: seq<Poi>, indices: seq<int>) returns (selected: seq<Poi>)
    ensures selected == PickByIndices(pois, indices)
  {
    var n := |pois|;
    var picked := ResolvePicks(indices, n);
    if |picked| < SelectionSize {
      var remaining := RemainingPositions(picked, n);
      picked := picked + Take(remaining, SelectionSize - |picked|);
    }
    selected := At(pois, Take(picked, SelectionSize));
  }

  /** The map-and-filter over the parsed indices, one index at a time. */
  method ResolvePicks(indices: seq<int>, n: nat) returns (picked: seq<nat>)
    ensures picked == ResolveIndices(indices, n)
  {
    picked := [];
    var k := 0;
    while k < |indices|
      invariant 0 <= k <= |indices|
      invariant picked == ResolveIndices(indices[..k], n)
    {
      var index := indices[k];
      if 1 <= index <= n {
        picked := picked + [index - 1];
      }
      assert indices[..k + 1][..k] == indices[..k];
      k := k + 1;
    }
    assert indices[..k] == indices;
  }

  /** The filter over the input that keeps the positions not yet picked. */
  method RemainingPositions(picked: seq<nat>, n: nat) returns (remaining: seq<nat>)
    ensures remaining == Unpicked(picked, n)
  {
    remaining := [];
    var j := 0;
    while j < n
      invariant 0 <= j <= n
      invariant remaining == Unpicked(picked, j)
    {
      if j !in picked {
        remaining := remaining + [j];
      }
      j := j + 1;
    }
  }

  /** Picking position lists one after the other picks their POIs one after the other. */
  lemma AtAppend(pois: seq<Poi>, u: seq<nat>, v: seq<nat>)
    requires forall i :: 0 <= i < |u| ==> u[i] < |pois|
    requires forall i :: 0 <= i < |v| ==> v[i] < |pois|
    ensures At(pois, u + v) == At(pois, u) + At(pois, v)
  {
  }

  /** Three or more resolved picks: the first three of them, in reply order. */
  lemma LongPickIsKept(pois: seq<Poi>, indices: seq<int>)
    requires |ResolveIndices(indices, |pois|)| >= SelectionSize
    ensures PickByIndices(pois, indices) == At(pois, ResolveIndices(indices, |pois|)[..SelectionSize])
  {
  }

  /**
   * Fewer than three resolved picks: they come first, in reply order, and
   * are topped up with the first POIs they do not hold, in input order.
   */
  lemma ShortPickIsToppedUp(pois: seq<Poi>, indices: seq<int>)
    requires |pois| > SelectionSize
    requires |ResolveIndices(indices, |pois|)| < SelectionSize
    ensures var picked := ResolveIndices(indices, |pois|);
      var rest := Unpicked(picked, |pois|);
      && SelectionSize - |picked| <= |rest|
      && PickByIndices(pois, indices) == At(pois, picked) + At(pois, rest[..SelectionSize - |picked|])
      && (forall i :: 0 <= i < SelectionSize - |picked| ==> rest[i] !in picked)
  {
    var n := |pois|;
    var picked := ResolveIndices(indices, n);
    var rest := Unpicked(picked, n);
    UnpickedAtLeast(picked, n);
    UnpickedMembers(picked, n);
    var fill := rest[..SelectionSize - |picked|];
    assert Take(Repaired(picked, n), SelectionSize) == picked + fill;
    AtAppend(pois, picked, fill);
  }

  /** When the model call fails the selector falls back to the first three POIs. */
  lemma FailureFallsBackToFirstThree(pois: seq<Poi>, service: SelectionService)
    requires |pois| > SelectionSize && service(SelectionPrompt(pois)).SelectionFailed?
    ensures Select(pois, service) == [pois[0], pois[1], pois[2]]
  {
  }

  /** A reply of [2, 5, 9] for ten POIs picks the second, fifth and ninth. */
  lemma ThreeValidIndices(pois: seq<Poi>, service: SelectionService)
    requires |pois| == 10 && service(SelectionPrompt(pois)) == Indices([2, 5, 9])
    ensures Select(pois, service) == [pois[1], pois[4], pois[8]]
  {
    assert [2, 5, 9][..2] == [2, 5];
    assert [2, 5][..1] == [2];
    assert ResolveIndices([2, 5, 9], 10) == [1, 4, 8];
  }

  /** Repeated indices are kept as they are: [2, 2, 2] picks the second POI three times. */
  lemma RepeatedIndicesPassThrough(pois: seq<Poi>, service: SelectionService)
    requires |pois| == 5 && service(SelectionPrompt(pois)) == Indices([2, 2, 2])
    ensures Select(pois, service) == [pois[1], pois[1], pois[1]]
  {
    assert [2, 2, 2][..2] == [2, 2];
    assert [2, 2][..1] == [2];
    assert ResolveIndices([2, 2, 2], 5) == [1, 1, 1];
  }

  /** A reply with no index in 1..n tops the pick up from the first three POIs. */
  lemma NoUsableIndexFillsFromStart(pois: seq<Poi>, indices: seq<int>)
    requires |pois| > SelectionSize
    requires forall i :: 0 <= i < |indices| ==> indices[i] < 1 || indices[i] > |pois|
    ensures PickByIndices(pois, indices) == [pois[0], pois[1], pois[2]]
  {
    NothingResolved(indices, |pois|);
    UnpickedIsRange(|pois|);
  }

  lemma {:induction false} NothingResolved(indices: seq<int>, n: nat)
    requires forall i :: 0 <= i < |indices| ==> indices[i] < 1 || indices[i] > n
    ensures ResolveIndices(indices, n) == []
  {
    if indices != [] {
      NothingResolved(indices[..|indices| - 1], n);
    }
  }

  /** With nothing picked, the unpicked positions are 0, 1, ..., n - 1. */
  lemma {:induction false} UnpickedIsRange(n: nat)
    ensures |Unpicked([], n)| == n
    ensures forall i :: 0 <= i < n ==> Unpicked([], n)[i] == i
  {
    if n > 0 {
      UnpickedIsRange(n - 1);
    }
  }
}
