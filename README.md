# Escape-room puzzle logic in Dafny

This project models the game logic inside two JavaFX puzzle controllers of a
point-and-click escape-room game, with the UI, chat and speech plumbing taken
away.

**Logic-gate puzzle** (`LogicGatePuzzleController`). The board has seven gate
slots (`currentAssembly`) and a 15-node boolean logic trail (`logicTrail`).
Nodes 0..7 are inputs. Gate `i` reads nodes `2i` and `2i+1` and writes node
`i*2 + (8-i)`, which is node `i+8`. So slots 0..3 feed slots 4..5, which feed
the end gate in slot 6. The end gate's node 14 says whether the puzzle is
solved. The player clicks one slot to arm it and a second slot to swap the
two. After each swap the trail is evaluated again in one in-order pass.

- `logic_gates.dfy` (module `Gates`): the six gate kinds and `Compare`.
- `circuit.dfy` (module `Circuit`): the evaluation pass as a function over
  sequences (`Evaluate`). It also gives a layer-by-layer reference
  definition of the wiring (`Layered`). Lemmas connect the two and show that
  every gate agrees with its inputs, that the pass keeps the inputs, and
  that it is idempotent.
- `logic_gate_puzzle.dfy` (module `LogicGatePuzzle`): the board as a class
  with the assembly as a `seq` field, the trail as a `bool` array and the
  `swapping` selection. Its methods are proved against `Evaluate` and
  `Swapped`.

**Decryption puzzle** (`DecryptionPuzzleController`). The player must type
the four-digit code of a pseudocode listing. A chat line counts as a guess
when it holds exactly `maxSequence` (four) digits and the four characters
from its first digit on match `-?\d+(\.\d+)?`. A blank line is ignored.
Every other line goes to the chat assistant, and so does a guess typed once
the puzzle is solved. Hints walk through the code's positions, cycling modulo four.

- `guess_recognition.dfy` (module `GuessRecognition`): the digit count, the
  scan to the first digit, the window that `substring` takes, and the number
  pattern. The scans are read-only methods with loops, proved against
  functions. Lemmas show:
  - the `substring` is in bounds once the digit count is four;
  - the recognizer accepts exactly what the pattern matches;
  - four contiguous digits are accepted.
- `decryption_puzzle.dfy` (module `DecryptionPuzzle`): the hint index, the
  solved flag and the routing of a key press, as a class.

The model follows the code as written:
- Clicking the slot that is already armed keeps it armed. It does not
  deselect it (`onGateNClicked`, e.g. lines 346-352).
- Failures are Java exceptions. Two of them are modelled as `None`:
  `substring` past the end of the line (which the four-digit check in front
  of it rules out, `WindowOfFourDigits`), and `charAt` past the end of the
  code when a hint is asked for (`GetUserHint`).
- The initial assembly and the inputs are fixed, not random: the gates of
  `setSubmissionGates` and all-true inputs.

Two behaviours of the code are stated as they are:
- The window need not be all digits. `"1.234"` is a guess whose window is
  `"1.23"` (`WindowMayHoldADot`).
- The hint's line number is the code point of the code's character, not its
  digit value (`GetUserHint`).

## Model

| member | source | states |
|---|---|---|
| `Gates.Compare` | src/main/java/nz/ac/auckland/se206/controllers/puzzles/LogicGatePuzzleController.java:200-226 | each of the six gate kinds gives the truth table stated by the number of true inputs: AND two, NAND fewer than two, OR at least one, NOR none, XOR exactly one, XNOR not exactly one |
| `Gates.CompareFacts` | src/main/java/nz/ac/auckland/se206/controllers/puzzles/LogicGatePuzzleController.java:205-222 | the XOR expression, (a or b) and not (a and b), is `a != b`, XNOR is `a == b`, and each kind is the negation of its complement (AND/NAND, OR/NOR, XOR/XNOR) |
| `Circuit.WriteNode` | src/main/java/nz/ac/auckland/se206/controllers/puzzles/LogicGatePuzzleController.java:185-188 | the write index `i*2 + (8-i)` is node `i+8`: inside the 15-node trail and past both nodes the gate reads |
| `Circuit.Step` | src/main/java/nz/ac/auckland/se206/controllers/puzzles/LogicGatePuzzleController.java:179-188 | one loop iteration: gate `i`'s output node `i+8` becomes the gate applied to nodes `2i` and `2i+1`; every other node is unchanged |
| `Circuit.EvaluateFirst` | src/main/java/nz/ac/auckland/se206/controllers/puzzles/LogicGatePuzzleController.java:175-189 | after the first `n` iterations only the output nodes of gates `0..n-1` can differ from the starting trail, which keeps its 15 nodes |
| `Circuit.Evaluate` | src/main/java/nz/ac/auckland/se206/controllers/puzzles/LogicGatePuzzleController.java:171-190 | a full pass keeps the 15 nodes and leaves the input nodes 0..7 as they were |
| `Circuit.Layered` | src/main/java/nz/ac/auckland/se206/controllers/puzzles/LogicGatePuzzleController.java:73-79 | reference wiring: 15 nodes whose first eight are the inputs, then four first-row, two second-row and one end output |
| `Circuit.LayeredGates` | src/main/java/nz/ac/auckland/se206/controllers/puzzles/LogicGatePuzzleController.java:175-189 | in the reference trail every slot `i` satisfies `trail[i+8] == compare(trail[2i], trail[2i+1], assembly[i])` |
| `Circuit.EvaluateFirstAt` | src/main/java/nz/ac/auckland/se206/controllers/puzzles/LogicGatePuzzleController.java:175-189 | after `n` loop iterations the nodes of the first `n` gates hold their reference values and every other node is unchanged |
| `Circuit.EvaluateIsLayered` | src/main/java/nz/ac/auckland/se206/controllers/puzzles/LogicGatePuzzleController.java:171-190 | one in-order pass computes exactly the reference trail of the inputs; the loop order is what makes slots 4-6 see fresh outputs |
| `Circuit.EvaluateGates` | src/main/java/nz/ac/auckland/se206/controllers/puzzles/LogicGatePuzzleController.java:175-189 | after a pass the trail still has 15 nodes, inputs 0..7 are unchanged, and every gate's output agrees with the final values of its input nodes |
| `Circuit.EvaluateUnique` | src/main/java/nz/ac/auckland/se206/controllers/puzzles/LogicGatePuzzleController.java:175-189 | conversely, any 15-node trail with the same inputs in which every gate agrees with its inputs is the trail the pass computes |
| `Circuit.EvaluateIdempotent` | src/main/java/nz/ac/auckland/se206/controllers/puzzles/LogicGatePuzzleController.java:175-189 | a second pass on an unchanged assembly and unchanged inputs gives the same trail |
| `LogicGatePuzzle.Swapped` | src/main/java/nz/ac/auckland/se206/controllers/puzzles/LogicGatePuzzleController.java:316-319 | the swap exchanges slots `a` and `b`, keeps the length and leaves every other slot as it was |
| `LogicGatePuzzle.SwappedFacts` | src/main/java/nz/ac/auckland/se206/controllers/puzzles/LogicGatePuzzleController.java:312-332 | swapping twice restores the assembly, swapping a slot with itself changes nothing, and a swap is a permutation (same multiset of gates) |
| `LogicGatePuzzle.InitialAssembly` | src/main/java/nz/ac/auckland/se206/controllers/puzzles/LogicGatePuzzleController.java:137-143 | the seven gates placed before play, AND, AND, OR, AND, XNOR, OR, OR, one per slot |
| `LogicGatePuzzle.AllTrueInputs` | src/main/java/nz/ac/auckland/se206/controllers/puzzles/LogicGatePuzzleController.java:233-237 | the four-gate layout's inputs: eight nodes, all true |
| `LogicGatePuzzle.LogicGatePuzzle.IsSolved` | src/main/java/nz/ac/auckland/se206/controllers/puzzles/LogicGatePuzzleController.java:75-78 | the puzzle reads as solved exactly when the circuit, with the current gates, lights the end node 14 from the current inputs (using the trail invariant of `Valid`) |
| `LogicGatePuzzle.AllTrueScenarios` | src/main/java/nz/ac/auckland/se206/controllers/puzzles/LogicGatePuzzleController.java:134-150 | with all inputs true, the initial assembly AND, AND, OR, AND, XNOR, OR, OR sets node 14; seven ANDs make every node true; seven XORs leave every computed node false |
| `LogicGatePuzzle.LogicGatePuzzle.constructor` | src/main/java/nz/ac/auckland/se206/controllers/puzzles/LogicGatePuzzleController.java:243-264 | `initialize`: at the end nothing is armed, the assembly is the initial one, the trail is its evaluation (so `Valid` holds: the trail is what the circuit computes from its inputs), and the puzzle reads as solved; the body asserts that before the first pass nodes 0..7 are true and 8..14 false |
| `LogicGatePuzzle.LogicGatePuzzle.SetRandomInput` | src/main/java/nz/ac/auckland/se206/controllers/puzzles/LogicGatePuzzleController.java:229-240 | for the four-gate layout every input node 0..7 becomes true and nodes 8..14 keep their values |
| `LogicGatePuzzle.LogicGatePuzzle.SetSubmissionGates` | src/main/java/nz/ac/auckland/se206/controllers/puzzles/LogicGatePuzzleController.java:134-150 | the empty assembly receives the seven initial gates in order, then the trail is evaluated; the selection is untouched |
| `LogicGatePuzzle.LogicGatePuzzle.UpdateLogicTrail` | src/main/java/nz/ac/auckland/se206/controllers/puzzles/LogicGatePuzzleController.java:171-190 | the in-place loop leaves the trail equal to `Evaluate` of the old trail, every read and write index in bounds; the lemmas above give that trail's meaning |
| `LogicGatePuzzle.LogicGatePuzzle.SwapGates` | src/main/java/nz/ac/auckland/se206/controllers/puzzles/LogicGatePuzzleController.java:312-332 | the assembly becomes the swap of the old one, the selection returns to -1, the inputs are kept and the trail is re-evaluated on the new assembly, so it again shows what the circuit computes (`Valid`) |
| `LogicGatePuzzle.LogicGatePuzzle.Click` | src/main/java/nz/ac/auckland/se206/controllers/puzzles/LogicGatePuzzleController.java:342-358 | with nothing armed or the clicked slot armed, the clicked slot becomes armed and assembly and trail are unchanged; otherwise the armed and clicked slots are swapped, the trail re-evaluated and the selection reset; the selection stays in {-1, 0..6} and the trail keeps showing what the circuit computes from its inputs, so `IsSolved` after any click has that meaning |
| `GuessRecognition.DigitCount` | src/main/java/nz/ac/auckland/se206/controllers/puzzles/DecryptionPuzzleController.java:596-601 | the digit count is at most the length, zero exactly when there are no digits, and the full length exactly when every character is a digit |
| `GuessRecognition.DigitCountAppend` | src/main/java/nz/ac/auckland/se206/controllers/puzzles/DecryptionPuzzleController.java:596-601 | the digits of a concatenation are the digits of its two parts |
| `GuessRecognition.FirstDigit` | src/main/java/nz/ac/auckland/se206/controllers/puzzles/DecryptionPuzzleController.java:351-356 | the scan stops at the first digit, or at the end when there is none: nothing before it is a digit |
| `GuessRecognition.WindowInBounds` | src/main/java/nz/ac/auckland/se206/controllers/puzzles/DecryptionPuzzleController.java:612-625 | first-digit position plus digit count never exceeds the length, so with four digits `substring(p, p+4)` is in bounds |
| `GuessRecognition.Window` | src/main/java/nz/ac/auckland/se206/controllers/puzzles/DecryptionPuzzleController.java:358-359 | the `substring(position, position + maxSequence)` window exists exactly when four characters remain from the first digit on; it then has four characters, starts with a digit and directly follows the digit-free prefix of the line |
| `GuessRecognition.WindowOfFourDigits` | src/main/java/nz/ac/auckland/se206/controllers/puzzles/DecryptionPuzzleController.java:346-362 | with four digits the window exists, has four characters and starts with the input's first digit |
| `GuessRecognition.LeadingDigits` | src/main/java/nz/ac/auckland/se206/controllers/puzzles/DecryptionPuzzleController.java:636-638 | the leading run of digits: all of it digits, and the next character (if any) not a digit |
| `GuessRecognition.IsUserSequenceNumeric` | src/main/java/nz/ac/auckland/se206/controllers/puzzles/DecryptionPuzzleController.java:636-638 | the left-to-right reading of `-?\d+(\.\d+)?`: an accepted string is non-empty, starts with a minus or a digit and ends with a digit |
| `GuessRecognition.NumericMatchesPattern` | src/main/java/nz/ac/auckland/se206/controllers/puzzles/DecryptionPuzzleController.java:636-638 | the left-to-right check accepts a string exactly when it matches `-?\d+(\.\d+)?` in full (both directions) |
| `GuessRecognition.IsGuess` | src/main/java/nz/ac/auckland/se206/controllers/puzzles/DecryptionPuzzleController.java:573-585 | a guess holds four digits, its window is in bounds, and the window starts and ends with a digit |
| `GuessRecognition.GuessShape` | src/main/java/nz/ac/auckland/se206/controllers/puzzles/DecryptionPuzzleController.java:573-585 | a line is a guess exactly when it holds four digits and the four characters from its first digit match `-?\d+(\.\d+)?` |
| `GuessRecognition.ContiguousDigitsAccepted` | src/main/java/nz/ac/auckland/se206/controllers/puzzles/DecryptionPuzzleController.java:573-585 | a line whose only digits are four contiguous ones is a guess, and its window is exactly those digits |
| `GuessRecognition.WindowMayHoldADot` | src/main/java/nz/ac/auckland/se206/controllers/puzzles/DecryptionPuzzleController.java:612-638 | `"1.234"` is accepted with window `"1.23"`; `"12 34"` is rejected because its window `"12 3"` is not a number |
| `GuessRecognition.IsUserSequenceFourDigits` | src/main/java/nz/ac/auckland/se206/controllers/puzzles/DecryptionPuzzleController.java:593-604 | the counting loop returns true exactly when the line holds `maxSequence` digits |
| `GuessRecognition.ScanToFirstDigit` | src/main/java/nz/ac/auckland/se206/controllers/puzzles/DecryptionPuzzleController.java:617-622 | the loop with `break` stops at the first digit, or at the end when there is none |
| `GuessRecognition.GetUserSequence` | src/main/java/nz/ac/auckland/se206/controllers/puzzles/DecryptionPuzzleController.java:346-362 | returns the window (or the out-of-bounds failure); with four digits it is a four-character string starting with the first digit |
| `GuessRecognition.IsUserSequenceContiguous` | src/main/java/nz/ac/auckland/se206/controllers/puzzles/DecryptionPuzzleController.java:612-628 | returns whether the window is numeric, failing only when the window is out of bounds, which four digits rule out |
| `GuessRecognition.IsUserInputSequence` | src/main/java/nz/ac/auckland/se206/controllers/puzzles/DecryptionPuzzleController.java:573-585 | checks the digit count before the window, so the window is never out of bounds, and returns exactly whether the line is a guess |
| `DecryptionPuzzle.TrimStart` | src/main/java/nz/ac/auckland/se206/controllers/puzzles/DecryptionPuzzleController.java:141-142 | the first scan of `trim`: the index of the first character above U+0020 (or the length); every character before it is at most U+0020 |
| `DecryptionPuzzle.TrimEnd` | src/main/java/nz/ac/auckland/se206/controllers/puzzles/DecryptionPuzzleController.java:141-142 | the second scan of `trim`: counting down from the end and not past the start index, where the last character above U+0020 ends; every character from there on is at most U+0020 |
| `DecryptionPuzzle.Trim` | src/main/java/nz/ac/auckland/se206/controllers/puzzles/DecryptionPuzzleController.java:141-146 | the trimmed line is the piece of the line between a leading and a trailing run of characters at most U+0020; it is empty exactly when every character is at most U+0020, and otherwise starts and ends with a character above U+0020 |
| `DecryptionPuzzle.NextHintIndex` | src/main/java/nz/ac/auckland/se206/controllers/puzzles/DecryptionPuzzleController.java:382 | the next hint index is in `[0, maxSequence)`: the following position, or 0 after the last |
| `DecryptionPuzzle.HintIndexAfter` | src/main/java/nz/ac/auckland/se206/controllers/puzzles/DecryptionPuzzleController.java:365-383 | the hint index after any number of hints stays in `[0, maxSequence)` |
| `DecryptionPuzzle.HintIndexCycles` | src/main/java/nz/ac/auckland/se206/controllers/puzzles/DecryptionPuzzleController.java:365-383 | starting from 0, the `n`-th hint reads position `n % maxSequence`: the hints walk the code in order and start over |
| `DecryptionPuzzle.DecryptionPuzzle.constructor` | src/main/java/nz/ac/auckland/se206/controllers/puzzles/DecryptionPuzzleController.java:205-227 | the hint index starts at 0 and the selected code is stored |
| `DecryptionPuzzle.DecryptionPuzzle.GetUserHint` | src/main/java/nz/ac/auckland/se206/controllers/puzzles/DecryptionPuzzleController.java:365-383 | counts the hint; the line number is the code point of the code's character at the hint index, and the index moves to the next position; if the code is too short, `charAt` fails after the count and the index stays |
| `DecryptionPuzzle.DecryptionPuzzle.OnHintClicked` | src/main/java/nz/ac/auckland/se206/controllers/puzzles/DecryptionPuzzleController.java:111-118 | on HARD the hint index and the hint count are unchanged and no hint is given; otherwise the hint is counted and, as in `GetUserHint`, either the code point at the hint index is returned and the index advances, or (code shorter than the index) `charAt` fails and the index stays |
| `DecryptionPuzzle.DecryptionPuzzle.HandleCorrectSequence` | src/main/java/nz/ac/auckland/se206/controllers/puzzles/DecryptionPuzzleController.java:503-514 | sets the solved flag and changes nothing else |
| `DecryptionPuzzle.DecryptionPuzzle.HandleUserSequence` | src/main/java/nz/ac/auckland/se206/controllers/puzzles/DecryptionPuzzleController.java:480-496 | the guess is the window of the line; the solved flag becomes true exactly when it equals the code and is otherwise unchanged |
| `DecryptionPuzzle.DecryptionPuzzle.OnKeyPressed` | src/main/java/nz/ac/auckland/se206/controllers/puzzles/DecryptionPuzzleController.java:133-166 | a non-ENTER key or a blank line changes nothing; a guess while unsolved is checked and solves exactly when its window equals the code; every other line goes to the chat unchanged; hint index and hint count never change |

## Left out

- JavaFX rendering and hover styling are UI side effects only:
  - `updateGateLayout`, `updateActiveBackgrounds`, `setHelperGateImgs`;
  - the `onGateNEnter`/`onGateNExit` handlers;
  - `setDigit`, `setDigitPaneColor`, `setDigitLabelColor`, `updateUserSequence`;
  - the hint and back-pane overlays and the scene lookups;
  - the `System.out` traces.
- `setUpLogicGates` builds the list of the six gate kinds, which only feeds the side-bar images.
- Scene switching (`onBackToBreaker`, `onBackPaneClicked`) is UI navigation.
- The assistant chat is a background `Task` on its own thread plus an external API. This covers `initializeChat`, `getChatResponse`, `setChatResponse`, `removePreviousMessage`, `setUserResponse`, and enabling and disabling the text field and hint pane.
- Text-to-speech, `Timer`, `HintManager` and the `GameState` statics are not part of this model:
  - the difficulty is a parameter of `OnHintClicked`;
  - the solved flag and the code are fields;
  - `HintManager.updateHintCounter` is modelled only as a call count (`hintsRequested`).
- `GptPromptEngineering.getDecryptionHint` is not part of this model. `GetUserHint` returns the line number it would be given.
- The reflection-based loading of `sequence<N>`, `algorithm<N>` and `description<N>`, and the `Math.random` index choice, are runtime lookups of constants of the `Sequence`, `Algorithm` and `Description` classes. The constructor takes the selected code as a parameter, and the description, algorithm and pseudocode text are not modelled.
- The two-gate layout (`layoutSize == 2`) is left out because `setRandomInput` does nothing for it. The model fixes four first-row gates, seven slots and 15 nodes. The trail size `(int) (layoutSize * 3.5 + 1)` is computed exactly for that layout.
- Digits are ASCII `'0'..'9'`. `Character.isDigit` also accepts other Unicode digits, which the regular expression's `\d` does not.
- `maxSequence` is the constant 4, as the code's comments state. Its definition is not part of this model.
- `LogicGatePuzzle.LogicGatePuzzle.SwapGates`: slots outside 0..6 are excluded by its requires. Its only callers pass the armed slot and a handler's own slot. `List.get` would throw for anything else.
- `DecryptionPuzzle.DecryptionPuzzle.HandleUserSequence`: requires the four-digit count. Its only caller guarantees it; for some lines without it (fewer than four characters from the first digit on) `substring` throws.
- `DecryptionPuzzle.DecryptionPuzzle.OnKeyPressed`: the chat branch returns the trimmed line as `Chat(...)` instead of sending it to the assistant.
