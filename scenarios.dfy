/**
 * Small circuits worked through the propagation of simular: a single AND
 * gate, a two-pin gate of each variant fed by its own output, and a gate
 * that reads a later gate and so needs a second pass.
 */
module Scenarios {
  import opened TriState
  import opened Ports
  import opened Fixpoint
  import opened Circuits

  /** One AND gate reading circuit inputs 1 and 2. */
  function AndNet(): (g: seq<Gate>)
    ensures Wired(g, 2)
  {
    var g := [Gate(AN, [-1, -2])];
    assert PinsWired(g[0].pins, 2, 1);
    g
  }

  /** The AND circuit settles in one pass on the value of its gate. */
  lemma AndCircuit()
    ensures Fix(AndNet(), [TRUE, TRUE], Undefs(1)) == [TRUE]
    ensures Fix(AndNet(), [FALSE, TRUE], Undefs(1)) == [FALSE]
    ensures Fix(AndNet(), [TRUE, UNDEF], Undefs(1)) == [UNDEF]
    ensures Passes(AndNet(), [TRUE, TRUE], Undefs(1)) == 1
    ensures Passes(AndNet(), [FALSE, TRUE], Undefs(1)) == 1
    ensures Passes(AndNet(), [TRUE, UNDEF], Undefs(1)) == 1
  {
    var g := AndNet();
    assert Inputs(g[0].pins, [TRUE, TRUE], Undefs(1)) == [TRUE, TRUE];
    assert Inputs(g[0].pins, [FALSE, TRUE], Undefs(1)) == [FALSE, TRUE];
    assert Inputs(g[0].pins, [TRUE, UNDEF], Undefs(1)) == [TRUE, UNDEF];
    assert Pass(g, [TRUE, TRUE], Undefs(1)) == [TRUE];
    assert Pass(g, [FALSE, TRUE], Undefs(1)) == [FALSE];
    assert Pass(g, [TRUE, UNDEF], Undefs(1)) == [UNDEF];
  }

  /** A single AND gate over inputs 1 and 2 settles in one pass on the gate's value for them. */
  lemma AndCircuitValue(a: Bool3S, b: Bool3S)
    ensures Fix(AndNet(), [a, b], Undefs(1)) == [Evaluate(AN, 2, [a, b])]
    ensures Passes(AndNet(), [a, b], Undefs(1)) == 1
  {
    var g := AndNet();
    assert Inputs(g[0].pins, [a, b], Undefs(1)) == [a, b];
    var p := Pass(g, [a, b], Undefs(1));
    assert p == [Evaluate(AN, 2, [a, b])];
    if p[0] == UNDEF {
      assert !Progress(Undefs(1), p);
    } else {
      assert AllDefined(p);
    }
  }

  /**
   * With the arity check of setPort as written, a resized circuit keeps its
   * gate slot empty after setPort(1, "AN", 2), so it is not valid.
   */
  method SetPortAsWrittenLeavesSlotEmpty() returns (c: Circuito)
    ensures fresh(c) && c.Consistent()
    ensures c.ports == [null] && !c.Valid()
  {
    c := new Circuito();
    c.Resize(2, 1, 1);
    c.SetPort(1, "AN", 2);
    assert !c.ValidPort(1);
  }

  /** The AND circuit built through the setters with the checked setPort. */
  method BuildAndCircuit() returns (c: Circuito)
    ensures c.Consistent() && c.Valid() && c.Nin == 2 && c.id_out == [1]
    ensures c.AllAllocated() && c.Net() == AndNet()
    ensures fresh(c) && fresh(c.ports[0])
  {
    c := new Circuito();
    c.Resize(2, 1, 1);
    c.SetPortChecked(1, "an", 2);
    assert c.ports[0].pins == [0, 0];
    c.SetId_inPort(1, 0, -1);
    c.SetId_inPort(1, 1, -2);
    assert c.ports[0].pins == [-1, -2];
    c.SetIdOutput(1, 1);
    assert c.Configured(AndNet()) && c.OutputsWired();
    c.ConfiguredValid(AndNet());
    c.ConfiguredNet(AndNet());
  }

  /** Building the AND circuit and simulating it yields the AND gate's value on the inputs. */
  method RunAndCircuit(a: Bool3S, b: Bool3S) returns (r: Bool3S)
    ensures r == Evaluate(AN, 2, [a, b])
    ensures a == FALSE ==> r == FALSE
    ensures a == TRUE && b != FALSE ==> r == b
  {
    var c := BuildAndCircuit();
    ghost var passes := c.Simulate([a, b]);
    AndCircuitValue(a, b);
    assert c.Outs()[0] == c.ports[0].out;
    r := c.ports[0].GetOutput();
  }

  /** One two-pin gate whose first pin is its own output and whose second pin is circuit input 1. */
  function LoopNet(k: Kind): (g: seq<Gate>)
    requires k != NT
    ensures Wired(g, 1)
  {
    var g := [Gate(k, [1, -1])];
    assert PinsWired(g[0].pins, 1, 1);
    g
  }

  /**
   * An AND, XOR or NXOR gate fed by its own output on pin 0 stays UNDEF
   * whatever the other input: the first pass defines nothing and simular stops.
   */
  lemma SelfLoopStaysUndef(k: Kind, x: Bool3S)
    requires k == AN || k == XO || k == NX
    ensures Fix(LoopNet(k), [x], Undefs(1)) == [UNDEF]
    ensures Passes(LoopNet(k), [x], Undefs(1)) == 1
  {
    var g := LoopNet(k);
    assert Inputs(g[0].pins, [x], Undefs(1)) == [UNDEF, x];
    assert [UNDEF, x][1..] == [x];
    XorAllValue([UNDEF, x]);
    assert Evaluate(g[0].kind, |g[0].pins|, [UNDEF, x]) == UNDEF;
    assert PassPrefix(g, [x], Undefs(1), 0) == Undefs(1);
    assert Pass(g, [x], Undefs(1)) == Step(g, [x], Undefs(1), 0) == [UNDEF];
  }

  /**
   * An OR or NOR gate fed by its own output on pin 0 stays UNDEF unless the
   * other input is TRUE; then the overwritten short-circuit defines it in the
   * first pass, OR as FALSE and NOR as TRUE.
   */
  lemma SelfLoopOrNor(x: Bool3S)
    ensures Fix(LoopNet(OR), [x], Undefs(1)) == [if x == TRUE then FALSE else UNDEF]
    ensures Fix(LoopNet(NO), [x], Undefs(1)) == [if x == TRUE then TRUE else UNDEF]
  {
    assert Inputs(LoopNet(OR)[0].pins, [x], Undefs(1)) == [UNDEF, x];
    assert Inputs(LoopNet(NO)[0].pins, [x], Undefs(1)) == [UNDEF, x];
    assert [UNDEF, x][1..] == [x];
    var p := Pass(LoopNet(OR), [x], Undefs(1));
    var q := Pass(LoopNet(NO), [x], Undefs(1));
    if x == TRUE {
      assert p == [FALSE] && AllDefined(p);
      assert q == [TRUE] && AllDefined(q);
    } else {
      assert p == [UNDEF] && !Progress(Undefs(1), p);
      assert q == [UNDEF] && !Progress(Undefs(1), q);
    }
  }

  /**
   * A NAND gate fed by its own output on pin 0 does not stay UNDEF: in the
   * first pass it reads [UNDEF, x], for which NAND's first-pin test gives
   * TRUE, although the three-valued NAND of [UNDEF, x] is UNDEF unless x is
   * FALSE. With the corrected first-pin test it would read UNDEF and stay so.
   */
  lemma NandSelfLoopAsWritten(x: Bool3S)
    ensures Fix(LoopNet(NA), [x], Undefs(1)) == [TRUE]
    ensures Passes(LoopNet(NA), [x], Undefs(1)) == 1
    ensures x != FALSE ==> Not(AndAll([UNDEF, x])) == UNDEF
    ensures NandRepaired([UNDEF, x]) == UNDEF
  {
    var g := LoopNet(NA);
    assert Inputs(g[0].pins, [x], Undefs(1)) == [UNDEF, x];
    assert [UNDEF, x][..1] == [UNDEF];
    assert PassPrefix(g, [x], Undefs(1), 0) == Undefs(1);
    var p := Pass(g, [x], Undefs(1));
    assert p == Step(g, [x], Undefs(1), 0) == [TRUE];
    assert AllDefined(p);
  }

  /** Gate 1 negates gate 2, gate 2 negates circuit input 1. */
  function ChainNet(): (g: seq<Gate>)
    ensures Wired(g, 1)
  {
    var g := [Gate(NT, [2]), Gate(NT, [-1])];
    assert PinsWired(g[0].pins, 1, 2) && PinsWired(g[1].pins, 1, 2);
    g
  }

  /**
   * A gate reading a later gate sees UNDEF in the first pass and is defined
   * in the second: the circuit computes the double negation of its input.
   */
  lemma ForwardReferenceNeedsTwoPasses(x: Bool3S)
    requires x != UNDEF
    ensures Fix(ChainNet(), [x], Undefs(2)) == [x, Not(x)]
    ensures Passes(ChainNet(), [x], Undefs(2)) == 2
  {
    var g := ChainNet();
    var u := Undefs(2);
    assert Inputs(g[0].pins, [x], u) == [UNDEF];
    var s1 := PassPrefix(g, [x], u, 1);
    assert s1 == [UNDEF, UNDEF];
    assert Inputs(g[1].pins, [x], s1) == [x];
    var p1 := Pass(g, [x], u);
    assert p1 == [UNDEF, Not(x)];
    assert Progress(u, p1) by {
      assert u[1] == UNDEF && p1[1] != UNDEF;
    }
    assert !AllDefined(p1) by {
      assert p1[0] == UNDEF;
    }
    assert Inputs(g[0].pins, [x], p1) == [Not(x)];
    var p2 := Pass(g, [x], p1);
    assert PassPrefix(g, [x], p1, 1) == [x, Not(x)];
    assert p2 == [x, Not(x)];
    assert AllDefined(p2);
  }
}
