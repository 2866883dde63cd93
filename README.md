# Three-valued combinational circuit simulator — Dafny model

This project models the core of a logic-circuit simulator whose signals take
three values: TRUE, FALSE and UNDEF. A circuit (`Circuito`) has `Nin` inputs and
a list of output sources `id_out`. It also has a list of gate slots `ports`, and
each slot is empty or holds a gate (`Port`).

A gate has one of seven variants: NOT, AND, NAND, OR, NOR, XOR, NXOR (mnemonics
NT, AN, NA, OR, NO, XO, NX). It holds one signed source id per input pin and a
cached output. Source id `-k` is circuit input `k` and source id `k` is gate
`k`. Id 0 names nothing.

`simular` first resets every gate output to UNDEF. It then makes passes over
the gates in index order. Each pass re-evaluates only the gates that are still
UNDEF, and a later gate sees the values computed earlier in the same pass. The
passes stop when every gate is defined or when a pass defines nothing new.

Files:

- `bool3s.dfy` (module `TriState`): the signal type and the operators `~ & | ^`.
  Their bodies (in `bool3S.h`) are not part of this model. The operators are
  taken to be Kleene's strong three-valued logic, and every fact below about
  `&`, `|` and `^` rests on that assumption.
- `ports.dfy` (module `Ports`): `port.cpp`.
  - `Port` is a class with the mutable fields `pins` (`id_in`) and `out` (`out_port`).
  - The variant is a `const kind`, and each variant's `simular` is a method with its own loop.
  - Beside the port code it holds the n-ary Kleene operators as independent left
    folds, and lemmas that say exactly where the port code agrees with them.
- `fixpoint.dfy` (module `Fixpoint`): the propagation of `simular` stated on values.
  - The functions are one gate step, one pass, the repeated passes (`Fix`) and their count (`Passes`).
  - The termination measure is the number of UNDEF gates.
- `circuito.dfy` (module `Circuits`): `circuito.cpp`.
  - `validType` and `allocPort`.
  - Class `Circuito` with its validators, accessors, setters, `clear` and `resize`.
  - `simular`, proved against `Fixpoint.Fix`.
- `scenarios.dfy` (module `Scenarios`): small circuits worked through the model.
  - a single AND gate, built through the setters and then simulated;
  - a two-pin gate fed by its own output, for each variant;
  - a gate that reads a later gate, so it needs two passes.

Behaviour kept as written (it is well defined, only surprising):

- AND, NAND, OR and NOR leave their loop with `break; return;`, so the `return`
  is never reached. Control falls to the final assignment, which overwrites the
  short-circuit value. For example, AND on [TRUE, FALSE] ends TRUE.
  `Ports.ShortCircuitOverwritten` gives such inputs, and the `*AgreesIff` lemmas
  give the exact inputs on which each gate agrees with three-valued logic.
  One consequence: an OR gate fed by its own output and by a TRUE input ends
  FALSE (`Scenarios.SelfLoopOrNor`).
- NAND's first-pin test sends UNDEF to TRUE, as it does FALSE. So a NAND gate
  fed by its own output on pin 0 becomes TRUE in the first pass, whatever its
  other input (`Scenarios.NandSelfLoopAsWritten`). The simulation uses NAND as
  written (`Ports.NandAsWritten`). The corrected first-pin test
  (`Ports.NandRepaired`) is stated beside it, and is recorded under Findings.
- In `resize`, the guard `!Nentradas > 0 && ...` parses as `(!Nentradas) > 0 && ...`.
  So only the call whose three arguments are all 0 is rejected.

Repairs, where the source reads out of range (each is also marked in a comment):

- NXOR guards its loop with `validIndex(i)` but reads `in_port[i + 1]`. The model
  uses XOR's guard `validIndex(i + 1)`.
- In the inner loop of `simular`, the loop increments `i` instead of `j`, and it
  writes into `in_port`, which is never sized. The model advances `j` and builds
  one value per pin.
- `resize` writes `out_circ[i]` right after `clear` has emptied it. The model sizes
  `out_circ` to `Nout`, filled with UNDEF.

## Model

| member | source | states |
|---|---|---|
| Ports.NameInjective | port.cpp:248-251 | two variants have the same two-letter name only if they are the same variant |
| Ports.DefaultArity | port.cpp:244 | the pin count a variant starts with is one the variant accepts: 1 for NOT (Port(1)), the default for the others |
| Ports.AndAllValue | port.cpp:305-316 | the n-ary three-valued AND is FALSE if any operand is FALSE, else UNDEF if any is UNDEF, else TRUE |
| Ports.OrAllValue | port.cpp:393-404 | the n-ary three-valued OR is TRUE if any operand is TRUE, else UNDEF if any is UNDEF, else FALSE |
| Ports.XorAllValue | port.cpp:480-493 | the XOR fold is UNDEF if any operand is UNDEF, else TRUE exactly when an odd number of operands are TRUE |
| Ports.AndAgreesIff | port.cpp:299-321 | Port_AND's output equals the three-valued AND of its inputs if and only if no FALSE appears unless pin 0 is FALSE |
| Ports.NandRepairedIsNotAnd | port.cpp:342-347 | the corrected NAND (an UNDEF pin 0 stays UNDEF), which the simulation does not use, is NOT of AND as the port code computes it; it agrees with NOT of the three-valued AND exactly where AND agrees with the three-valued AND; it differs from NAND as written exactly when pin 0 is UNDEF |
| Ports.NandAgreesIff | port.cpp:342-366 | Port_NAND as written equals NOT of the three-valued AND if and only if a TRUE pin 0 has no later FALSE and an UNDEF pin 0 has a later FALSE |
| Ports.OrAgreesIff | port.cpp:387-409 | Port_OR equals the three-valued OR if and only if no TRUE appears unless pin 0 is TRUE |
| Ports.NorAgreesIff | port.cpp:431-459 | Port_NOR equals NOT of the three-valued OR if and only if no TRUE appears unless pin 0 is TRUE |
| Ports.AndListedCases | port.cpp:299-321 | AND: pin 0 FALSE gives FALSE; pin 0 TRUE with all later TRUE gives TRUE; pin 0 TRUE with a later UNDEF and no later FALSE gives UNDEF; each agrees with three-valued AND |
| Ports.NandListedCases | port.cpp:342-366 | NAND as written: pin 0 FALSE gives TRUE and all pins TRUE gives FALSE, as three-valued NAND does |
| Ports.OrListedCases | port.cpp:387-409 | OR: pin 0 TRUE gives TRUE and all pins FALSE gives FALSE, as three-valued OR does |
| Ports.NorListedCases | port.cpp:431-459 | NOR: pin 0 TRUE gives FALSE and all pins FALSE gives TRUE, as three-valued NOR does |
| Ports.ShortCircuitOverwritten | port.cpp:310-321 | concrete inputs where the overwritten short-circuit departs from three-valued logic: AND [TRUE, FALSE] is TRUE, OR [FALSE, TRUE] is FALSE, and so on |
| Ports.NxorAsWrittenReadsPastEnd | port.cpp:521-527 | for every input vector that reaches the loop (as long as the pin list), some i passes NXOR's guard `i < n` while `i + 1` is not an index of the vector |
| Ports.XorParity | port.cpp:472-531 | XOR is UNDEF iff some pin is UNDEF, otherwise TRUE iff an odd number of pins are TRUE; NXOR is always the negation of XOR |
| Ports.Port.constructor | port.cpp:22-35 | a new port has exactly NI pins, all 0, and output UNDEF; NI is not checked |
| Ports.Port.ValidNumInputs | port.cpp:51-54 | a port accepts the pin counts its variant accepts (`AcceptsArity`: exactly 1 for NOT, port.cpp:253-256, and at least 2 otherwise); an accepted count is never 0 |
| Ports.Port.ValidIndex | port.cpp:57-60 | an accepted pin index lies inside the pin list |
| Ports.Port.Valid | port.cpp:65-73 | a port is valid iff its pin count is accepted (NOT exactly 1, others at least 2) and no pin is 0 |
| Ports.Port.GetNumInputs | port.cpp:80-83 | the pin count is the length of the pin list |
| Ports.Port.GetOutput | port.cpp:86-89 | the cached output |
| Ports.Port.GetId_in | port.cpp:93-98 | the source of an existing pin, and 0 for an index out of range |
| Ports.Port.GetName | port.cpp:286-289 | a two-letter name that identifies the variant: Name(k) equals it exactly for the port's own kind |
| Ports.Port.SetNumInputs | port.cpp:108-116 | a rejected count or the current count changes nothing; any other count leaves exactly NI pins, all 0; the output is untouched |
| Ports.Port.SetOutput | port.cpp:119-122 | the output becomes S and the pins do not change |
| Ports.Port.SetId_in | port.cpp:126-130 | only pin I changes, to Id, and only when I is an existing pin and Id is nonzero; otherwise nothing changes |
| Ports.Port.Simulate | port.cpp:270-531 | every variant keeps its pins, outputs UNDEF for a vector whose length is not the pin count, and otherwise outputs its truth function of the vector |
| Ports.Port.SimulateNot | port.cpp:270-278 | the output is UNDEF on a length mismatch, otherwise NOT of pin 0 |
| Ports.Port.SimulateAnd | port.cpp:291-322 | the AND loop leaves UNDEF on a length mismatch, otherwise the AND truth function as written |
| Ports.Port.SimulateNand | port.cpp:334-367 | the NAND loop leaves UNDEF on a length mismatch, otherwise the NAND truth function as written (TRUE for a pin 0 that is FALSE or UNDEF) |
| Ports.Port.SimulateOr | port.cpp:379-410 | the OR loop leaves UNDEF on a length mismatch, otherwise the OR truth function as written |
| Ports.Port.SimulateNor | port.cpp:422-460 | the NOR loop leaves UNDEF on a length mismatch, otherwise the NOR truth function as written |
| Ports.Port.SimulateXor | port.cpp:472-494 | the XOR loop leaves UNDEF on a length mismatch, otherwise the left fold of `^` over all pins |
| Ports.Port.SimulateNxor | port.cpp:507-531 | with the guard repaired, the NXOR loop leaves UNDEF on a length mismatch, otherwise NOT of the XOR fold over all pins |
| Fixpoint.Inputs | circuito.cpp:512-520 | the vector handed to a gate has one value per pin: the current output of gate k for pin id k, circuit input k for pin id -k |
| Fixpoint.Step | circuito.cpp:509-522 | visiting gate i changes at most entry i, and changes nothing when gate i is already defined |
| Fixpoint.PassPrefix | circuito.cpp:507-531 | after the first n gates of a pass, every output that was defined is unchanged and the gates from n on are untouched |
| Fixpoint.PassPrefixStep | circuito.cpp:507-531 | visiting gate i extends the pass by one gate; tudo_def stays true iff gate i ends defined, and alguma_def becomes true iff gate i was UNDEF and ends defined |
| Fixpoint.Pass | circuito.cpp:507-531 | a full pass never changes an output that was already defined |
| Fixpoint.CountUndefShrinks | circuito.cpp:534 | the number of UNDEF gates never grows across a pass, and drops strictly on a pass that defines a new gate, which is the only kind of pass after which the loop continues |
| Fixpoint.CountUndefBounds | circuito.cpp:502-534 | the UNDEF count is at most the number of gates, and at least 1 while some gate is UNDEF |
| Fixpoint.PassStable | circuito.cpp:534 | when a pass ends the loop (all defined, or nothing new defined), one more pass would change nothing |
| Fixpoint.Fix | circuito.cpp:502-534 | the repeated passes terminate; the result keeps every output that was defined before, and one more pass leaves it unchanged |
| Fixpoint.Passes | circuito.cpp:502-534 | the loop makes at least one pass, and no more passes than there were UNDEF gates (or exactly one) |
| Fixpoint.PassesBound | circuito.cpp:502-534 | from all-UNDEF, simular makes at most one pass per gate |
| Circuits.Upper | circuito.cpp:22-23 | upper-casing keeps the length and upper-cases each character |
| Circuits.ValidType | circuito.cpp:18-30 | accepts exactly the two-character strings whose upper-cased form names a variant, and leaves a two-character argument upper-cased |
| Circuits.AllocPort | circuito.cpp:36-58 | yields a variant exactly when validType accepts the mnemonic, and that variant's name is the upper-cased mnemonic |
| Circuits.AllocPortName | circuito.cpp:36-58 | allocPort inverts getName: the name of every variant selects that variant |
| Circuits.AllocPortIgnoresCase | circuito.cpp:18-58 | allocPort ignores case: every string whose upper-cased form is a variant's name selects that variant |
| Circuits.AllocPortExamples | circuito.cpp:18-58 | lower and mixed case select a variant ("an", "Nx"); "AND", "" and "XY" select none |
| Circuits.Circuito.constructor | circuito.cpp:68 | a new circuit has every count 0 and every list empty |
| Circuits.Circuito.Clear | circuito.cpp:70-78 | clear zeroes every count and empties every list |
| Circuits.Circuito.Resize | circuito.cpp:82-104 | all-zero arguments change nothing; otherwise the counts become the arguments, every output source is 0 and every gate slot is empty |
| Circuits.Circuito.ValidIdInput | circuito.cpp:111-114 | with `-int(Nin)` computed on 32 bits: for Nin up to 2^31 an input id is valid iff -id-1 indexes the input vector; for a larger Nin no id is valid |
| Circuits.Circuito.ValidIdOutput | circuito.cpp:117-120 | with `int(getNumOutputs())` computed on 32 bits: for fewer than 2^31 outputs an output id is valid iff id-1 indexes id_out; from 2^31 outputs on no id is valid |
| Circuits.Circuito.ValidIdPort | circuito.cpp:123-126 | with `int(getNumPorts())` computed on 32 bits: for fewer than 2^31 slots a gate id is valid iff id-1 indexes the gate slots; from 2^31 slots on no id is valid |
| Circuits.Circuito.ValidIdOrig | circuito.cpp:131-134 | a source id is valid iff it is an accepted input id (-Nin <= id <= -1, none when Nin exceeds 2^31) or an accepted gate id (1 <= id <= the gate count, none from 2^31 gates on), so 0 is never a source |
| Circuits.Circuito.DefinedPort | circuito.cpp:138-145 | a gate is defined iff its id is accepted by validIdPort and its slot is not empty |
| Circuits.Circuito.ValidPortIff | circuito.cpp:149-159 | validPort holds iff the gate is defined and each of its pins names a circuit input or a gate |
| Circuits.Circuito.ValidIff | circuito.cpp:166-185 | valid holds iff there are inputs, between 1 and 2^31 - 1 outputs and gates, every slot holds a gate, every pin of every gate names an existing source, and every output names an existing source |
| Circuits.Circuito.ValidWires | circuito.cpp:512-519 | in a valid circuit every pin read by simular is in range: gate k exists for pin id k and input k exists for pin id -k |
| Circuits.Circuito.GetNumInputs | circuito.cpp:191-194 | the unsigned input count Nin |
| Circuits.Circuito.GetNumOutputs | circuito.cpp:196-199 | the length of id_out, which equals the output count Nout in a sized circuit |
| Circuits.Circuito.GetNumPorts | circuito.cpp:201-204 | the number of gate slots, which equals the gate count Nportas in a sized circuit |
| Circuits.Circuito.GetIdOutput | circuito.cpp:206-213 | the source of a valid output, and 0 for an invalid output id |
| Circuits.Circuito.GetOutput | circuito.cpp:215-222 | the value of a valid output, and UNDEF for an invalid output id |
| Circuits.Circuito.GetNamePort | circuito.cpp:224-231 | a defined gate's mnemonic, which allocPort maps back to its variant, and "??" otherwise |
| Circuits.Circuito.GetNumInputsPort | circuito.cpp:233-240 | a defined gate's pin count, and 0 otherwise |
| Circuits.Circuito.GetId_inPort | circuito.cpp:242-249 | the source of an existing pin of a defined gate, and 0 otherwise (an out-of-range pin as well) |
| Circuits.Circuito.SetIdOutput | circuito.cpp:255-261 | only output IdOut's source changes, to IdOrig, and only when both ids are valid; nothing else changes |
| Circuits.Circuito.SetPort | circuito.cpp:263-273 | as written, nothing changes for any arity below 2^31; a slot is replaced only when the arity, read as an int, is a circuit input id |
| Circuits.Circuito.SetPortChecked | circuito.cpp:263-273 | the slot gets a new port of the named variant with NIn pins, all 0, exactly when the slot id and mnemonic are valid and the variant accepts NIn; otherwise nothing changes |
| Circuits.Circuito.SetId_inPort | circuito.cpp:275-279 | only pin I of gate IdPort changes, and only when the gate is defined, I is one of its pins and IdOrig is a valid source; the circuit invariant is kept |
| Circuits.Circuito.ResetOutputs | circuito.cpp:497-500 | every gate output becomes UNDEF and no gate configuration changes |
| Circuits.Circuito.GatherInputs | circuito.cpp:512-520 | the vector built for gate i is, pin by pin, the current output of the gate or the circuit input the pin names |
| Circuits.Circuito.VisitGate | circuito.cpp:509-530 | a gate is re-evaluated only while UNDEF, from the current outputs; the cached outputs and both flags advance exactly as one more step of the pass |
| Circuits.Circuito.RunPass | circuito.cpp:504-531 | one pass leaves the gate outputs equal to Pass of the old outputs; tudo_def says all are defined and alguma_def that the pass defined a new one |
| Circuits.Circuito.Propagate | circuito.cpp:502-534 | from all outputs UNDEF, the do-while stops and leaves the outputs equal to Fix, after Passes passes, with every gate configuration unchanged |
| Circuits.Circuito.Simulate | circuito.cpp:492-535 | on a valid circuit with Nin inputs, simular terminates, keeps every gate configuration and the circuit valid, and leaves the gate outputs equal to Fix from all-UNDEF after Passes passes |
| Scenarios.AndCircuit | circuito.cpp:492-535 | a one-AND circuit gives TRUE on [TRUE, TRUE], FALSE on [FALSE, TRUE] and UNDEF on [TRUE, UNDEF], in one pass |
| Scenarios.AndCircuitValue | circuito.cpp:502-534 | one AND gate over inputs 1 and 2 settles in one pass on the gate's value for the two inputs, for every pair of inputs |
| Scenarios.SetPortAsWrittenLeavesSlotEmpty | circuito.cpp:263-273 | after resize(2, 1, 1) and setPort(1, "AN", 2) as written, the slot is still empty and the circuit is not valid |
| Scenarios.BuildAndCircuit | circuito.cpp:255-279 | resize, the checked setPort, setId_inPort and setIdOutput build a valid one-AND circuit over both inputs |
| Scenarios.RunAndCircuit | circuito.cpp:492-535 | simulating that circuit outputs the AND gate's value: FALSE when input 1 is FALSE, input 2 when input 1 is TRUE and input 2 is not FALSE |
| Scenarios.SelfLoopStaysUndef | circuito.cpp:502-534 | an AND, XOR or NXOR gate whose pin 0 is its own output stays UNDEF for every other input, and simular stops after one pass |
| Scenarios.SelfLoopOrNor | circuito.cpp:502-534 | an OR or NOR gate whose pin 0 is its own output stays UNDEF unless its other input is TRUE; then the overwritten short-circuit defines it, OR as FALSE and NOR as TRUE |
| Scenarios.NandSelfLoopAsWritten | port.cpp:342-347 | a NAND gate whose pin 0 is its own output ends TRUE after one pass for every other input x, where the three-valued NAND of [UNDEF, x] is UNDEF unless x is FALSE and the corrected NAND gives UNDEF |
| Scenarios.ForwardReferenceNeedsTwoPasses | circuito.cpp:502-534 | a NOT reading a later NOT is defined only in the second pass, giving the double negation of the input |

## Left out

- Console entry (`digitar` of the circuit and the ports), stream parsing (`ler`) and printing (`imprimir`, `operator<<`) are not modelled. They are interactive or stream I/O.
- Diagnostics written to `cout`/`cerr` are not modelled. They have no effect on state.
- Heap management is not modelled: `delete` in `setPort`, the destructors, `clone` and the copy constructor. A new gate is a freshly allocated `Port`. `clear` drops the slots without releasing the gates.
- The bodies of `~ & | ^` (`bool3S.h`) are not part of this model. They are assumed to be Kleene's strong three-valued logic.
- The default argument of `Port()` is declared in `port.h`, which is not part of this model. It is taken to be 2.
- Circuit outputs (`out_circ`) are never computed by the source. The model only sizes the buffer and reads it.
- The `bool` result of `simular` is never returned by the source. The model's `Simulate` returns only a ghost pass count.
- Integer widths: ids are unbounded integers, the input count `Nin` is a 32-bit unsigned value, and the output and gate counts are the lengths of their lists. The unsigned-to-int conversions in the id checks are modelled: `-int(getNumInputs())` in `validIdInput`, `int(getNumOutputs())` in `validIdOutput`, `int(getNumPorts())` in `validIdPort`, and the arity passed to `validIdInput` by `setPort`. The negation of `int(2^31)` overflows; it is taken to wrap, as on a two's-complement machine.
- Scenarios.SelfLoopStaysUndef: covers AND, XOR and NXOR only. The self-fed NAND, OR and NOR gates do not always stay UNDEF as written; their outcomes are stated by `Scenarios.NandSelfLoopAsWritten` (NAND ends TRUE) and `Scenarios.SelfLoopOrNor` (defined when the other input is TRUE).
- Circuits.Circuito.Valid: its loops run to the full list lengths, where the source's `unsigned` counts would truncate a list of 2^32 or more entries. Such a list cannot arise, since `resize` sizes both lists from 32-bit counts.
- Ports.Port.Simulate: requires a non-empty vector when the port has no pins, because every variant reads `in_port[0]` unchecked in that case. In a circuit this cannot arise, since every arity the variants accept is at least 1.
- Circuits.Circuito.GetOutput: requires `out_circ` to be as long as `id_out`. Every operation keeps that invariant (the source's `resize` does not; see the repairs above).
- Circuits.Circuito.Simulate: requires `valid()` and an input vector of length `Nin`. The source relies on both (its comment on `valid` says to check it before simulating), and without them it reads out of range.

## Findings

| source | as written | input that shows it | evidently intended | confidence | as-written member | corrected member |
|---|---|---|---|---|---|---|
| circuito.cpp:265 | `setPort` checks the arity with `validIdInput(NIn)`, a circuit-input-id check on an unsigned converted to int | `setPort(1, "AN", 2)` on a resized circuit: 2 is not in -Nin..-1, so the slot stays empty | check the arity with the new variant's `validNumInputs` | high (not executed) | Circuits.Circuito.SetPort | Circuits.Circuito.SetPortChecked |
| port.cpp:342-347 | NAND's first-pin test sends UNDEF to TRUE as well as FALSE | a NAND gate whose pin 0 is its own output: in the first pass it reads [UNDEF, x] and becomes TRUE for every x, so a direct self-cycle does not stay UNDEF | an UNDEF first pin gives UNDEF (NOT of AND's result, which keeps an UNDEF first pin) | medium (not executed) | Scenarios.NandSelfLoopAsWritten | Ports.NandRepairedIsNotAnd |
| port.cpp:521-527 | NXOR guards with `validIndex(i)` and reads `in_port[i + 1]` | any NXOR port with n pins: at i = n - 1 it reads `in_port[n]` | guard with `validIndex(i + 1)`, as XOR does | high (not executed) | Ports.NxorAsWrittenReadsPastEnd | Ports.Port.SimulateNxor |
