/** The two-layer circuit of the logic-gate puzzle, for the four-gate layout.

    The logic trail holds 15 nodes: nodes 0..7 are the inputs, nodes 8..11
    the outputs of the first-row gates (slots 0..3), nodes 12..13 those of
    the second-row gates (slots 4..5) and node 14 that of the end gate
    (slot 6). Gate `i` reads nodes `2i` and `2i+1` and writes node `i+8`. */
module Circuit {
  import opened Gates

  /** Number of first-row gates; the controller fixes it at 4. */
  const LayoutSize: nat := 4
  /** Gates in the assembly: 4 + 2 + 1. */
  const Slots: nat := 7
  /** The input segment of the trail: two inputs per first-row gate. */
  const InputNodes: nat := LayoutSize * 2
  /** Trail length, `(int) (layoutSize * 3.5 + 1)`, exact for an even layout. */
  const Nodes: nat := LayoutSize * 7 / 2 + 1

  /** The node gate `i` writes, with the controller's formula `i*2 + (8-i)`. */
  function WriteNode(i: nat): (n: nat)
    requires i < Slots
    ensures n == InputNodes + i
    ensures 2 * i + 1 < n < Nodes
  {
    i * 2 + (8 - i)
  }

  /** One iteration of the evaluation loop: gate `i` reads its two nodes
      from the current trail and overwrites its output node. */
  function Step(trail: seq<bool>, assembly: seq<Logic>, i: nat): (r: seq<bool>)
    requires |trail| == Nodes && |assembly| == Slots && i < Slots
    ensures |r| == Nodes
    ensures r[InputNodes + i] == Compare(trail[2 * i], trail[2 * i + 1], assembly[i])
    ensures forall k :: 0 <= k < Nodes && k != InputNodes + i ==> r[k] == trail[k]
  {
    trail[WriteNode(i) := Compare(trail[2 * i], trail[2 * i + 1], assembly[i])]
  }

  /** The trail after the first `n` iterations of the evaluation loop: only
      the output nodes of the first `n` gates have been written. */
  function EvaluateFirst(trail: seq<bool>, assembly: seq<Logic>, n: nat): (r: seq<bool>)
    requires |trail| == Nodes && |assembly| == Slots && n <= Slots
    ensures |r| == Nodes
    ensures forall k :: 0 <= k < Nodes && !(InputNodes <= k < InputNodes + n) ==> r[k] == trail[k]
    decreases n
  {
    if n == 0 then trail else Step(EvaluateFirst(trail, assembly, n - 1), assembly, n - 1)
  }

  /** The trail after a full pass of the evaluation loop over all seven
      slots: the inputs are kept (`EvaluateGates` adds that every gate agrees
      with its input nodes). */
  function Evaluate(trail: seq<bool>, assembly: seq<Logic>): (r: seq<bool>)
    requires |trail| == Nodes && |assembly| == Slots
    ensures |r| == Nodes && r[..InputNodes] == trail[..InputNodes]
  {
    EvaluateFirst(trail, assembly, Slots)
  }

  /** Reference definition, layer by layer, with the wiring table written out:
      the trail the circuit should show for the given inputs. */
  function Layered(inputs: seq<bool>, assembly: seq<Logic>): (r: seq<bool>)
    requires |inputs| == InputNodes && |assembly| == Slots
    ensures |r| == Nodes && r[..InputNodes] == inputs
  {
    var first := [Compare(inputs[0], inputs[1], assembly[0]),
                  Compare(inputs[2], inputs[3], assembly[1]),
                  Compare(inputs[4], inputs[5], assembly[2]),
                  Compare(inputs[6], inputs[7], assembly[3])];
    var second := [Compare(first[0], first[1], assembly[4]),
                   Compare(first[2], first[3], assembly[5])];
    inputs + first + second + [Compare(second[0], second[1], assembly[6])]
  }

  /** Every gate of the reference trail agrees with its two input nodes. */
  lemma LayeredGates(inputs: seq<bool>, assembly: seq<Logic>)
    requires |inputs| == InputNodes && |assembly| == Slots
    ensures forall i :: 0 <= i < Slots ==>
      Layered(inputs, assembly)[InputNodes + i] ==
      Compare(Layered(inputs, assembly)[2 * i], Layered(inputs, assembly)[2 * i + 1], assembly[i])
  {
    FirstRowGates(inputs, assembly);
    UpperRowGates(inputs, assembly);
  }

  /** The first-row gates (slots 0..3) of the reference trail read inputs. */
  lemma FirstRowGates(inputs: seq<bool>, assembly: seq<Logic>)
    requires |inputs| == InputNodes && |assembly| == Slots
    ensures forall i :: 0 <= i < LayoutSize ==>
      Layered(inputs, assembly)[InputNodes + i] ==
      Compare(inputs[2 * i], inputs[2 * i + 1], assembly[i])
  {
  }

  /** The second-row gates and the end gate (slots 4..6) of the reference
      trail read outputs of the row below. */
  lemma UpperRowGates(inputs: seq<bool>, assembly: seq<Logic>)
    requires |inputs| == InputNodes && |assembly| == Slots
    ensures forall i :: LayoutSize <= i < Slots ==>
      Layered(inputs, assembly)[InputNodes + i] ==
      Compare(Layered(inputs, assembly)[2 * i], Layered(inputs, assembly)[2 * i + 1], assembly[i])
  {
  }

  /** After `n` iterations, the nodes of the first `n` gates hold their
      reference values and every other node is as it was. */
  lemma {:induction false} EvaluateFirstAt(trail: seq<bool>, assembly: seq<Logic>, n: nat)
    requires |trail| == Nodes && |assembly| == Slots && n <= Slots
    ensures forall k :: 0 <= k < Nodes ==>
      EvaluateFirst(trail, assembly, n)[k] ==
      (if InputNodes <= k < InputNodes + n then Layered(trail[..InputNodes], assembly)[k] else trail[k])
  {
    if n > 0 {
      EvaluateFirstAt(trail, assembly, n - 1);
      LayeredGates(trail[..InputNodes], assembly);
      var prev := EvaluateFirst(trail, assembly, n - 1);
      var ref := Layered(trail[..InputNodes], assembly);
      var i := n - 1;
      assert prev[2 * i] == ref[2 * i] && prev[2 * i + 1] == ref[2 * i + 1] by {
        if 2 * i + 1 < InputNodes {
          assert ref[2 * i] == ref[..InputNodes][2 * i] == trail[2 * i];
          assert ref[2 * i + 1] == ref[..InputNodes][2 * i + 1] == trail[2 * i + 1];
        }
      }
      assert EvaluateFirst(trail, assembly, n) == Step(prev, assembly, i);
    }
  }

  /** The evaluation loop computes exactly the reference trail of its inputs. */
  lemma EvaluateIsLayered(trail: seq<bool>, assembly: seq<Logic>)
    requires |trail| == Nodes && |assembly| == Slots
    ensures Evaluate(trail, assembly) == Layered(trail[..InputNodes], assembly)
  {
    EvaluateFirstAt(trail, assembly, Slots);
    var ref := Layered(trail[..InputNodes], assembly);
    forall k | 0 <= k < Nodes
      ensures Evaluate(trail, assembly)[k] == ref[k]
    {
      if k < InputNodes {
        assert ref[k] == ref[..InputNodes][k];
      }
    }
  }

  /** After a full pass the trail keeps its length and its inputs, and every
      gate's output node agrees with the final values of its input nodes. */
  lemma EvaluateGates(trail: seq<bool>, assembly: seq<Logic>)
    requires |trail| == Nodes && |assembly| == Slots
    ensures |Evaluate(trail, assembly)| == Nodes
    ensures Evaluate(trail, assembly)[..InputNodes] == trail[..InputNodes]
    ensures forall i :: 0 <= i < Slots ==>
      Evaluate(trail, assembly)[InputNodes + i] ==
      Compare(Evaluate(trail, assembly)[2 * i], Evaluate(trail, assembly)[2 * i + 1], assembly[i])
  {
    EvaluateIsLayered(trail, assembly);
    LayeredGates(trail[..InputNodes], assembly);
  }

  /** Conversely, a trail whose gates all agree with their input nodes is the
      one the evaluation computes from its inputs. */
  lemma EvaluateUnique(trail: seq<bool>, assembly: seq<Logic>, other: seq<bool>)
    requires |trail| == Nodes && |assembly| == Slots && |other| == Nodes
    requires other[..InputNodes] == trail[..InputNodes]
    requires forall i :: 0 <= i < Slots ==>
      other[InputNodes + i] == Compare(other[2 * i], other[2 * i + 1], assembly[i])
    ensures other == Evaluate(trail, assembly)
  {
    EvaluateIsLayered(trail, assembly);
    var inputs := trail[..InputNodes];
    var ref := Layered(inputs, assembly);
    assert other == inputs + other[InputNodes..];
    assert forall k :: 0 <= k < InputNodes ==> other[k] == inputs[k];
    var gate := other[InputNodes..];
    assert gate[0] == other[8] && gate[1] == other[9] && gate[2] == other[10];
    assert gate[3] == other[11] && gate[4] == other[12] && gate[5] == other[13];
    assert gate[6] == other[14];
  }

  /** Evaluation is idempotent: a second pass over an unchanged assembly and
      unchanged inputs leaves the trail as the first pass left it. */
  lemma EvaluateIdempotent(trail: seq<bool>, assembly: seq<Logic>)
    requires |trail| == Nodes && |assembly| == Slots
    ensures Evaluate(Evaluate(trail, assembly), assembly) == Evaluate(trail, assembly)
  {
    var once := Evaluate(trail, assembly);
    EvaluateIsLayered(trail, assembly);
    EvaluateIsLayered(once, assembly);
  }
}
