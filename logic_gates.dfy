/** The six gate kinds of the logic-gate puzzle and the rule each one applies. */
module Gates {

  /** LogicGate.Logic: the kinds a slot of the circuit may hold. */
  datatype Logic = And | Nand | Or | Nor | Xor | Xnor

  /** How many of the two inputs are true. */
  function TrueInputs(a: bool, b: bool): (n: nat)
    ensures n <= 2
  {
    (if a then 1 else 0) + (if b then 1 else 0)
  }

  /** The gate rule, written as the controller's `compare` switch writes it.
      The contract gives the truth table by the number of true inputs. */
  function Compare(a: bool, b: bool, logic: Logic): (output: bool)
    ensures logic == And  ==> (output <==> TrueInputs(a, b) == 2)
    ensures logic == Nand ==> (output <==> TrueInputs(a, b) < 2)
    ensures logic == Or   ==> (output <==> TrueInputs(a, b) >= 1)
    ensures logic == Nor  ==> (output <==> TrueInputs(a, b) == 0)
    ensures logic == Xor  ==> (output <==> TrueInputs(a, b) == 1)
    ensures logic == Xnor ==> (output <==> TrueInputs(a, b) != 1)
  {
    match logic
    case And => a && b
    case Nand => !(a && b)
    case Or => a || b
    case Nor => !(a || b)
    case Xor => (a || b) && !(a && b)
    case Xnor => a == b
  }

  /** The gate that computes the negation of the given gate. */
  function Complement(logic: Logic): (c: Logic)
    ensures c != logic
  {
    match logic
    case And => Nand
    case Nand => And
    case Or => Nor
    case Nor => Or
    case Xor => Xnor
    case Xnor => Xor
  }

  /** The XOR expression `(a || b) && !(a && b)` is inequality, XNOR is
      equality, and each kind is the negation of its complement. */
  lemma CompareFacts(a: bool, b: bool, logic: Logic)
    ensures Compare(a, b, Xor) == (a != b)
    ensures Compare(a, b, Xnor) == (a == b)
    ensures Compare(a, b, Complement(logic)) == !Compare(a, b, logic)
    ensures Complement(Complement(logic)) == logic
  {
  }
}
