/** The logic-gate puzzle's board: the gate assembly in its seven slots, the
    15-node logic trail and the click-to-swap selection. */
module LogicGatePuzzle {
  import opened Gates
  import opened Circuit

  /** Slot `a` and slot `b` of `s` exchanged, as `swapGates` does it with a
      temporary: `s[a]` takes `s[b]`, then `s[b]` takes the saved `s[a]`. */
  function Swapped(s: seq<Logic>, a: nat, b: nat): (r: seq<Logic>)
    requires a < |s| && b < |s|
    ensures |r| == |s| && r[a] == s[b] && r[b] == s[a]
    ensures forall k :: 0 <= k < |s| && k != a && k != b ==> r[k] == s[k]
  {
    s[a := s[b]][b := s[a]]
  }

  /** Swapping twice restores the assembly, swapping a slot with itself
      changes nothing, and a swap only reorders the gates. */
  lemma SwappedFacts(s: seq<Logic>, a: nat, b: nat)
    requires a < |s| && b < |s|
    ensures Swapped(Swapped(s, a, b), a, b) == s
    ensures Swapped(s, a, a) == s
    ensures multiset(Swapped(s, a, b)) == multiset(s)
  {
    if a != b {
      var t := s[a := s[b]];
      assert multiset(t) == multiset(s) - multiset{s[a]} + multiset{s[b]};
      assert t[b] == s[b];
    }
  }

  /** The gates `setSubmissionGates` places, slot by slot. */
  function InitialAssembly(): (s: seq<Logic>)
    ensures |s| == Slots
  {
    [And, And, Or, And, Xnor, Or, Or]
  }

  /** The inputs `setRandomInput` gives the four-gate layout: all true. */
  function AllTrueInputs(): (s: seq<bool>)
    ensures |s| == InputNodes && forall k :: 0 <= k < InputNodes ==> s[k]
  {
    seq(InputNodes, _ => true)
  }

  /** With all inputs true, the initial assembly already lights the end
      node; so do seven AND gates, while seven XOR gates leave every
      computed node false. */
  lemma AllTrueScenarios()
    ensures Layered(AllTrueInputs(), InitialAssembly())[Nodes - 1]
    ensures Layered(AllTrueInputs(), seq(Slots, _ => And)) == seq(Nodes, _ => true)
    ensures Layered(AllTrueInputs(), seq(Slots, _ => Xor)) ==
            AllTrueInputs() + seq(Nodes - InputNodes, _ => false)
  {
  }

  class LogicGatePuzzle {
    /** The gate in each slot (`currentAssembly`). */
    var currentAssembly: seq<Logic>
    /** The value on each node of the circuit (`logicTrail`). */
    var logicTrail: array<bool>
    /** The slot armed for a swap, or -1 when none is (`swapping`). */
    var swapping: int

    /** Seven slots, 15 nodes, a selection that is -1 or a slot, and a trail
        that shows what the circuit computes from its inputs. */
    ghost predicate Valid()
      reads this, logicTrail
    {
      |currentAssembly| == Slots && logicTrail.Length == Nodes && -1 <= swapping < Slots &&
      logicTrail[..] == Layered(logicTrail[..InputNodes], currentAssembly)
    }

    /** The puzzle is solved when the end gate's node is true: exactly when
        the circuit, with the current gates, lights the end node from the
        current inputs. */
    predicate IsSolved()
      requires Valid()
      reads this, logicTrail
      ensures IsSolved() <==> Layered(logicTrail[..InputNodes], currentAssembly)[Nodes - 1]
    {
      logicTrail[Nodes - 1]
    }

    /** `initialize`: an empty assembly, nothing armed, a trail of 15 false
        nodes; then the inputs are set and the initial gates placed and
        evaluated. */
    constructor ()
      ensures Valid() && fresh(logicTrail)
      ensures swapping == -1 && currentAssembly == InitialAssembly()
      ensures logicTrail[..] == Layered(AllTrueInputs(), InitialAssembly())
      ensures IsSolved()
    {
      currentAssembly := [];
      swapping := -1;
      var trail := new bool[Nodes];
      for i := 0 to Nodes
        invariant forall k :: 0 <= k < i ==> !trail[k]
      {
        trail[i] := false;
      }
      logicTrail := trail;
      new;
      SetRandomInput();
      ghost var inputs := logicTrail[..];
      // before the first evaluation: inputs true, computed nodes still false
      assert inputs[..InputNodes] == AllTrueInputs();
      assert forall k :: InputNodes <= k < Nodes ==> !inputs[k];
      SetSubmissionGates();
      EvaluateIsLayered(inputs, InitialAssembly());
      AllTrueScenarios();
    }

    /** `setRandomInput` for the four-gate layout: every input node becomes
        true and the computed nodes are left as they were. */
    method SetRandomInput()
      requires logicTrail.Length == Nodes
      modifies logicTrail
      ensures forall k :: 0 <= k < InputNodes ==> logicTrail[k]
      ensures forall k :: InputNodes <= k < Nodes ==> logicTrail[k] == old(logicTrail[k])
    {
      for i := 0 to LayoutSize * 2
        invariant forall k :: 0 <= k < i ==> logicTrail[k]
        invariant forall k :: InputNodes <= k < Nodes ==> logicTrail[k] == old(logicTrail[k])
      {
        logicTrail[i] := true;
      }
    }

    /** `setSubmissionGates`: appends the seven initial gates to the empty
        assembly, then evaluates the trail. */
    method SetSubmissionGates()
      requires currentAssembly == [] && logicTrail.Length == Nodes
      modifies this, logicTrail
      ensures logicTrail == old(logicTrail) && swapping == old(swapping)
      ensures currentAssembly == InitialAssembly()
      ensures logicTrail[..] == Evaluate(old(logicTrail[..]), currentAssembly)
    {
      currentAssembly := currentAssembly + [And, And, Or, And, Xnor, Or, Or];
      UpdateLogicTrail();
    }

    /** `updateLogicTrail`: one pass over the slots in order; gate `i` reads
        nodes `2i` and `2i+1` and writes node `i*2 + (8-i)`. */
    method UpdateLogicTrail()
      requires |currentAssembly| == Slots && logicTrail.Length == Nodes
      modifies logicTrail
      ensures logicTrail[..] == Evaluate(old(logicTrail[..]), currentAssembly)
    {
      for i := 0 to |currentAssembly|
        invariant logicTrail[..] == EvaluateFirst(old(logicTrail[..]), currentAssembly, i)
      {
        ghost var before := logicTrail[..];
        var a := logicTrail[i * 2];
        var b := logicTrail[i * 2 + 1];
        var result := Compare(a, b, currentAssembly[i]);
        logicTrail[(i) * 2 + (8 - i)] := result;
        assert logicTrail[..] == Step(before, currentAssembly, i);
      }
    }

    /** `swapGates`: exchanges two slots, disarms the selection and
        re-evaluates the trail. */
    method SwapGates(a: nat, b: nat)
      requires Valid() && a < Slots && b < Slots
      modifies this, logicTrail
      ensures Valid() && logicTrail == old(logicTrail)
      ensures currentAssembly == Swapped(old(currentAssembly), a, b)
      ensures swapping == -1
      ensures logicTrail[..] == Evaluate(old(logicTrail[..]), currentAssembly)
      ensures logicTrail[..InputNodes] == old(logicTrail[..InputNodes])
    {
      ghost var before := logicTrail[..];
      var temp := currentAssembly[a];
      currentAssembly := currentAssembly[a := currentAssembly[b]];
      currentAssembly := currentAssembly[b := temp];
      swapping := -1;
      UpdateLogicTrail();
      EvaluateIsLayered(before, currentAssembly);
    }

    /** The seven `onGateNClicked` handlers as one: with nothing armed, or
        with the clicked slot itself armed, the clicked slot becomes armed;
        otherwise the armed slot and the clicked one are swapped. */
    method Click(slot: nat)
      requires Valid() && slot < Slots
      modifies this, logicTrail
      ensures Valid() && logicTrail == old(logicTrail)
      ensures old(swapping) == -1 || old(swapping) == slot ==>
        swapping == slot && currentAssembly == old(currentAssembly) &&
        logicTrail[..] == old(logicTrail[..])
      ensures old(swapping) != -1 && old(swapping) != slot ==>
        swapping == -1 &&
        currentAssembly == Swapped(old(currentAssembly), old(swapping), slot) &&
        logicTrail[..] == Evaluate(old(logicTrail[..]), currentAssembly)
    {
      if swapping == -1 || swapping == slot {
        swapping := slot;
      } else {
        SwapGates(swapping, slot);
      }
    }
  }
}
