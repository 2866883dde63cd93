/**
 * The propagation performed by Circuito::simular, stated on values.
 *
 * A network is a sequence of gate configurations; gate k (1-based) is the
 * source id k and circuit input k is the source id -k. `outs` holds the
 * cached output of every gate. One pass visits the gates in index order and
 * re-evaluates only those whose output is still UNDEF, each seeing the
 * outputs already updated earlier in the same pass. Passes repeat until every
 * output is defined or a pass defines no new output.
 */
module Fixpoint {
  import opened TriState
  import opened Ports

  /** validIdOrig: a circuit input -nin..-1 or a gate 1..nports; never 0. */
  predicate IsSource(id: int, nin: nat, nports: nat)
  {
    (-(nin as int) <= id <= -1) || (1 <= id <= nports)
  }

  /** Every pin names an existing source. */
  predicate PinsWired(pins: seq<int>, nin: nat, nports: nat)
  {
    forall j :: 0 <= j < |pins| ==> IsSource(pins[j], nin, nports)
  }

  /** Every pin of every gate names an existing source, and every pin count is accepted. */
  predicate Wired(gates: seq<Gate>, nin: nat)
  {
    forall i :: 0 <= i < |gates| ==>
      AcceptsArity(gates[i].kind, |gates[i].pins|) && PinsWired(gates[i].pins, nin, |gates|)
  }

  /** The value on a pin whose source is `id`: a gate's cached output or a circuit input. */
  function PinValue(inc: seq<Bool3S>, outs: seq<Bool3S>, id: int): Bool3S
    requires IsSource(id, |inc|, |outs|)
  {
    if id > 0 then outs[id - 1] else inc[-1 * id - 1]
  }

  /** The vector in_port handed to a gate: one value per pin, in pin order. */
  function Inputs(pins: seq<int>, inc: seq<Bool3S>, outs: seq<Bool3S>): (v: seq<Bool3S>)
    requires PinsWired(pins, |inc|, |outs|)
    ensures |v| == |pins|
    ensures forall j :: 0 <= j < |pins| ==> v[j] == PinValue(inc, outs, pins[j])
  {
    seq(|pins|, j requires 0 <= j < |pins| => PinValue(inc, outs, pins[j]))
  }

  function Undefs(n: nat): (s: seq<Bool3S>)
    ensures |s| == n
    ensures forall k :: 0 <= k < n ==> s[k] == UNDEF
  {
    seq(n, _ => UNDEF)
  }

  predicate AllDefined(outs: seq<Bool3S>)
  {
    forall k :: 0 <= k < |outs| ==> outs[k] != UNDEF
  }

  /** Some output that was UNDEF in `before` is defined in `after`. */
  predicate Progress(before: seq<Bool3S>, after: seq<Bool3S>)
    requires |before| == |after|
  {
    exists k :: 0 <= k < |before| && before[k] == UNDEF && after[k] != UNDEF
  }

  /** `after` differs from `before` only where `before` is UNDEF. */
  predicate KeepsDefined(before: seq<Bool3S>, after: seq<Bool3S>)
  {
    |before| == |after| &&
    forall k :: 0 <= k < |before| && before[k] != UNDEF ==> after[k] == before[k]
  }

  /** The number of outputs still UNDEF: the termination measure of simular. */
  function CountUndef(s: seq<Bool3S>): nat
  {
    if s == [] then 0 else (if s[0] == UNDEF then 1 else 0) + CountUndef(s[1..])
  }

  /** A network wired to the first a circuit inputs is wired to the first b >= a. */
  lemma WiredMore(gates: seq<Gate>, a: nat, b: nat)
    requires Wired(gates, a) && a <= b
    ensures Wired(gates, b)
  {
    forall i | 0 <= i < |gates|
      ensures PinsWired(gates[i].pins, b, |gates|)
    {
      assert PinsWired(gates[i].pins, a, |gates|);
    }
  }

  /** Visiting gate i: re-evaluated only while its output is UNDEF. */
  function Step(gates: seq<Gate>, inc: seq<Bool3S>, outs: seq<Bool3S>, i: nat): (r: seq<Bool3S>)
    requires Wired(gates, |inc|) && |outs| == |gates| && i < |gates|
    ensures |r| == |outs|
    ensures forall k :: 0 <= k < |outs| && k != i ==> r[k] == outs[k]
    ensures outs[i] != UNDEF ==> r == outs
  {
    if outs[i] == UNDEF then
      var g := gates[i];
      outs[i := Evaluate(g.kind, |g.pins|, Inputs(g.pins, inc, outs))]
    else
      outs
  }

  /** The outputs after visiting gates 0..n-1 of one pass. */
  function PassPrefix(gates: seq<Gate>, inc: seq<Bool3S>, outs: seq<Bool3S>, n: nat): (r: seq<Bool3S>)
    requires Wired(gates, |inc|) && |outs| == |gates| && n <= |gates|
    ensures KeepsDefined(outs, r)
    ensures forall k :: n <= k < |outs| ==> r[k] == outs[k]
  {
    if n == 0 then outs
    else Step(gates, inc, PassPrefix(gates, inc, outs, n - 1), n - 1)
  }

  /** One full pass over the gates. */
  function Pass(gates: seq<Gate>, inc: seq<Bool3S>, outs: seq<Bool3S>): (r: seq<Bool3S>)
    requires Wired(gates, |inc|) && |outs| == |gates|
    ensures KeepsDefined(outs, r)
  {
    PassPrefix(gates, inc, outs, |gates|)
  }

  /** The first n outputs are all defined. */
  predicate DefinedUpTo(s: seq<Bool3S>, n: nat)
    requires n <= |s|
  {
    forall k :: 0 <= k < n ==> s[k] != UNDEF
  }

  /** Some output among the first n went from UNDEF to defined. */
  predicate ProgressUpTo(before: seq<Bool3S>, s: seq<Bool3S>, n: nat)
    requires n <= |before| && n <= |s|
  {
    exists k :: 0 <= k < n && before[k] == UNDEF && s[k] != UNDEF
  }

  /**
   * Visiting gate i extends the pass by one gate, and the two flags of the
   * pass (all defined so far, some newly defined so far) extend by gate i.
   */
  lemma PassPrefixStep(gates: seq<Gate>, inc: seq<Bool3S>, before: seq<Bool3S>, i: nat, cur: seq<Bool3S>)
    requires Wired(gates, |inc|) && |before| == |gates| && i < |gates|
    requires cur == PassPrefix(gates, inc, before, i)
    ensures |cur| == |gates| && cur[i] == before[i]
    ensures Step(gates, inc, cur, i) == PassPrefix(gates, inc, before, i + 1)
    ensures DefinedUpTo(Step(gates, inc, cur, i), i + 1) <==>
              DefinedUpTo(cur, i) && Step(gates, inc, cur, i)[i] != UNDEF
    ensures ProgressUpTo(before, Step(gates, inc, cur, i), i + 1) <==>
              ProgressUpTo(before, cur, i) || (cur[i] == UNDEF && Step(gates, inc, cur, i)[i] != UNDEF)
  {
    var next := Step(gates, inc, cur, i);
    if ProgressUpTo(before, next, i + 1) && !(cur[i] == UNDEF && next[i] != UNDEF) {
      var k :| 0 <= k < i + 1 && before[k] == UNDEF && next[k] != UNDEF;
      assert k < i && cur[k] == next[k];
    }
    if ProgressUpTo(before, cur, i) {
      var k :| 0 <= k < i && before[k] == UNDEF && cur[k] != UNDEF;
      assert next[k] == cur[k];
    }
  }

  /**
   * The UNDEF count never grows across a step that keeps defined outputs,
   * and shrinks when some output becomes defined.
   */
  lemma {:induction false} CountUndefShrinks(a: seq<Bool3S>, b: seq<Bool3S>)
    requires KeepsDefined(a, b)
    ensures CountUndef(b) <= CountUndef(a)
    ensures Progress(a, b) ==> CountUndef(b) < CountUndef(a)
  {
    if a != [] {
      CountUndefShrinks(a[1..], b[1..]);
      if Progress(a, b) && !(a[0] == UNDEF && b[0] != UNDEF) {
        var k :| 0 <= k < |a| && a[k] == UNDEF && b[k] != UNDEF;
        assert a[1..][k - 1] == UNDEF && b[1..][k - 1] != UNDEF;
      }
    }
  }

  /** An output vector that is not all defined has at least one UNDEF, and never more than its length. */
  lemma {:induction false} CountUndefBounds(s: seq<Bool3S>)
    ensures CountUndef(s) <= |s|
    ensures !AllDefined(s) ==> CountUndef(s) >= 1
  {
    if s != [] {
      CountUndefBounds(s[1..]);
      if !AllDefined(s) && s[0] != UNDEF {
        var k :| 0 <= k < |s| && s[k] == UNDEF;
        assert s[1..][k - 1] == UNDEF;
      }
    }
  }

  /** When a pass ends the loop, one more pass would change nothing. */
  lemma PassStable(gates: seq<Gate>, inc: seq<Bool3S>, outs: seq<Bool3S>)
    requires Wired(gates, |inc|) && |outs| == |gates|
    requires var next := Pass(gates, inc, outs); AllDefined(next) || !Progress(outs, next)
    ensures Pass(gates, inc, Pass(gates, inc, outs)) == Pass(gates, inc, outs)
  {
    var next := Pass(gates, inc, outs);
    if !Progress(outs, next) {
      assert next == outs by {
        forall k | 0 <= k < |outs|
          ensures next[k] == outs[k]
        {
        }
      }
    } else {
      var again := Pass(gates, inc, next);
      assert again == next by {
        forall k | 0 <= k < |next|
          ensures again[k] == next[k]
        {
        }
      }
    }
  }

  /**
   * The do-while of simular: run a pass; stop if every output is defined or
   * the pass defined none; otherwise run again. The result keeps every
   * output that was already defined and is stable under one more pass.
   */
  function Fix(gates: seq<Gate>, inc: seq<Bool3S>, outs: seq<Bool3S>): (r: seq<Bool3S>)
    requires Wired(gates, |inc|) && |outs| == |gates|
    ensures KeepsDefined(outs, r)
    ensures Pass(gates, inc, r) == r
    decreases CountUndef(outs)
  {
    var next := Pass(gates, inc, outs);
    if AllDefined(next) || !Progress(outs, next) then
      PassStable(gates, inc, outs);
      next
    else
      CountUndefShrinks(outs, next);
      Fix(gates, inc, next)
  }

  /** The number of passes simular makes from `outs`. */
  function Passes(gates: seq<Gate>, inc: seq<Bool3S>, outs: seq<Bool3S>): (n: nat)
    requires Wired(gates, |inc|) && |outs| == |gates|
    ensures 1 <= n
    ensures n <= CountUndef(outs) || n == 1
    decreases CountUndef(outs)
  {
    var next := Pass(gates, inc, outs);
    if AllDefined(next) || !Progress(outs, next) then
      1
    else
      CountUndefShrinks(outs, next);
      CountUndefBounds(next);
      1 + Passes(gates, inc, next)
  }

  /** The flags of a whole pass are the all-defined and progress tests of Pass. */
  lemma PassFlags(gates: seq<Gate>, inc: seq<Bool3S>, outs: seq<Bool3S>)
    requires Wired(gates, |inc|) && |outs| == |gates|
    ensures var next := Pass(gates, inc, outs);
            next == PassPrefix(gates, inc, outs, |gates|) &&
            (DefinedUpTo(next, |gates|) <==> AllDefined(next)) &&
            (ProgressUpTo(outs, next, |gates|) <==> Progress(outs, next))
  {
  }

  /** One unfolding of Fix and Passes: a pass that ends the loop is the last one. */
  lemma FixUnfold(gates: seq<Gate>, inc: seq<Bool3S>, outs: seq<Bool3S>)
    requires Wired(gates, |inc|) && |outs| == |gates|
    ensures var next := Pass(gates, inc, outs);
            if AllDefined(next) || !Progress(outs, next) then
              Fix(gates, inc, outs) == next && Passes(gates, inc, outs) == 1
            else
              Fix(gates, inc, outs) == Fix(gates, inc, next) &&
              Passes(gates, inc, outs) == 1 + Passes(gates, inc, next)
  {
  }

  /** Starting from all-UNDEF, simular makes at most one pass per gate (and one pass when there are none). */
  lemma PassesBound(gates: seq<Gate>, inc: seq<Bool3S>)
    requires Wired(gates, |inc|)
    ensures Passes(gates, inc, Undefs(|gates|)) <= if |gates| == 0 then 1 else |gates|
  {
    CountUndefBounds(Undefs(|gates|));
  }
}
