/**
 * Gates (class Port and its seven variants Port_NOT, Port_AND, Port_NAND,
 * Port_OR, Port_NOR, Port_XOR, Port_NXOR).
 *
 * A port owns an ordered list of signed source ids, one per input pin, and a
 * cached output. The variants differ in the pin counts they accept, their
 * two-letter name and their truth function. The virtual dispatch of the
 * source becomes a `Kind` tag on the port and a `match` on it.
 */
module Ports {
  import opened TriState

  /** The seven variants, named by their two-letter mnemonics. */
  datatype Kind = NT | AN | NA | OR | NO | XO | NX

  /** The configuration of a port that simulation never changes. */
  datatype Gate = Gate(kind: Kind, pins: seq<int>)

  /** getName of each variant. */
  function Name(k: Kind): (s: string)
    ensures |s| == 2
  {
    match k
    case NT => "NT"
    case AN => "AN"
    case NA => "NA"
    case OR => "OR"
    case NO => "NO"
    case XO => "XO"
    case NX => "NX"
  }

  /** Two variants never share a name, so the name identifies the variant. */
  lemma NameInjective(k1: Kind, k2: Kind)
    ensures Name(k1) == Name(k2) <==> k1 == k2
  {
  }

  /**
   * validNumInputs: NOT accepts exactly one pin, every other variant two or
   * more.
   */
  predicate AcceptsArity(k: Kind, ni: nat)
  {
    if k == NT then ni == 1 else ni >= 2
  }

  /**
   * The pin count a newly allocated variant starts with: Port_NOT() calls
   * Port(1); the others call Port(), whose default argument is declared in
   * port.h (not part of this model) and is taken to be 2.
   */
  function DefaultArity(k: Kind): (n: nat)
    ensures AcceptsArity(k, n)
    ensures n >= 1
  {
    if k == NT then 1 else 2
  }

  function Zeros(n: nat): (s: seq<int>)
    ensures |s| == n
    ensures forall i :: 0 <= i < n ==> s[i] == 0
  {
    seq(n, _ => 0)
  }

  /** std::vector::resize: keeps the common prefix, pads with zeros. */
  function Resized(s: seq<int>, n: nat): (r: seq<int>)
    ensures |r| == n
  {
    if n <= |s| then s[..n] else s + Zeros(n - |s|)
  }

  function Min(a: int, b: int): int
  {
    if a <= b then a else b
  }

  /** Number of TRUE values in a sequence. */
  function CountTrue(s: seq<Bool3S>): nat
  {
    if s == [] then 0
    else CountTrue(s[..|s| - 1]) + (if s[|s| - 1] == TRUE then 1 else 0)
  }

  // ---------------------------------------------------------------------
  // Reference semantics: the n-ary three-valued operators as left folds of
  // the binary ones, independent of the port code.
  // ---------------------------------------------------------------------

  function AndAll(s: seq<Bool3S>): Bool3S
    requires |s| >= 1
  {
    if |s| == 1 then s[0] else And(AndAll(s[..|s| - 1]), s[|s| - 1])
  }

  function OrAll(s: seq<Bool3S>): Bool3S
    requires |s| >= 1
  {
    if |s| == 1 then s[0] else Or(OrAll(s[..|s| - 1]), s[|s| - 1])
  }

  /** Also exactly what Port_XOR::simular folds: in[0] ^ in[1] ^ ... ^ in[n-1]. */
  function XorAll(s: seq<Bool3S>): Bool3S
    requires |s| >= 1
  {
    if |s| == 1 then s[0] else Xor(XorAll(s[..|s| - 1]), s[|s| - 1])
  }

  /** An n-ary AND is FALSE if any operand is, else UNDEF if any operand is. */
  lemma {:induction false} AndAllValue(s: seq<Bool3S>)
    requires |s| >= 1
    ensures AndAll(s) == if FALSE in s then FALSE else if UNDEF in s then UNDEF else TRUE
  {
    if |s| > 1 {
      var init := s[..|s| - 1];
      AndAllValue(init);
      assert s == init + [s[|s| - 1]];
    }
  }

  /** An n-ary OR is TRUE if any operand is, else UNDEF if any operand is. */
  lemma {:induction false} OrAllValue(s: seq<Bool3S>)
    requires |s| >= 1
    ensures OrAll(s) == if TRUE in s then TRUE else if UNDEF in s then UNDEF else FALSE
  {
    if |s| > 1 {
      var init := s[..|s| - 1];
      OrAllValue(init);
      assert s == init + [s[|s| - 1]];
    }
  }

  /** An n-ary XOR is UNDEF if any operand is, else the parity of the TRUE operands. */
  lemma {:induction false} XorAllValue(s: seq<Bool3S>)
    requires |s| >= 1
    ensures XorAll(s) == if UNDEF in s then UNDEF
                         else if CountTrue(s) % 2 == 1 then TRUE else FALSE
  {
    if |s| == 1 {
      assert s[..0] == [];
    } else {
      var init := s[..|s| - 1];
      XorAllValue(init);
      assert s == init + [s[|s| - 1]];
    }
  }

  // ---------------------------------------------------------------------
  // The truth functions as the port code computes them, for an input vector
  // whose length equals the pin count. AND, NAND, OR and NOR break out of
  // their loop on the short-circuit value with an unreachable `return` after
  // the `break`, so control reaches the final assignment, which overwrites it.
  // ---------------------------------------------------------------------

  /** Port_AND::simular: a later FALSE ends TRUE; a first pin that is not TRUE is kept. */
  function AndAsWritten(inp: seq<Bool3S>): Bool3S
    requires |inp| >= 1
  {
    if inp[0] != TRUE then inp[0]
    else if FALSE in inp[1..] then TRUE
    else if UNDEF in inp[1..] then UNDEF
    else TRUE
  }

  /** Port_NAND::simular as written: a first pin FALSE or UNDEF gives TRUE; a later FALSE ends FALSE. */
  function NandAsWritten(inp: seq<Bool3S>): Bool3S
    requires |inp| >= 1
  {
    if inp[0] != TRUE then TRUE
    else if FALSE in inp[1..] then FALSE
    else if UNDEF in inp[1..] then UNDEF
    else FALSE
  }

  /**
   * Port_NAND::simular with its first-pin test corrected: an UNDEF first pin
   * stays UNDEF (its negation), as Port_AND keeps it, instead of giving TRUE.
   * The simulation itself uses NAND as written.
   */
  function NandRepaired(inp: seq<Bool3S>): Bool3S
    requires |inp| >= 1
  {
    if inp[0] != TRUE then Not(inp[0])
    else if FALSE in inp[1..] then FALSE
    else if UNDEF in inp[1..] then UNDEF
    else FALSE
  }

  /** Port_OR::simular: a first pin TRUE gives TRUE; a later TRUE ends FALSE. */
  function OrAsWritten(inp: seq<Bool3S>): Bool3S
    requires |inp| >= 1
  {
    if inp[0] == TRUE then TRUE
    else if TRUE in inp[1..] then FALSE
    else if UNDEF in inp then UNDEF
    else FALSE
  }

  /** Port_NOR::simular: a first pin TRUE gives FALSE; a later TRUE ends TRUE. */
  function NorAsWritten(inp: seq<Bool3S>): Bool3S
    requires |inp| >= 1
  {
    if inp[0] == TRUE then FALSE
    else if TRUE in inp[1..] then TRUE
    else if UNDEF in inp then UNDEF
    else TRUE
  }

  /**
   * The output a variant's simular leaves for an input vector `inp` when the
   * port has `n` pins: UNDEF on a length mismatch, the truth function
   * otherwise. NXOR uses the guard i+1 < n of XOR (see Port.SimulateNxor).
   */
  function Evaluate(k: Kind, n: nat, inp: seq<Bool3S>): Bool3S
    requires |inp| == n ==> n >= 1
  {
    if |inp| != n then UNDEF
    else match k
      case NT => Not(inp[0])
      case AN => AndAsWritten(inp)
      case NA => NandAsWritten(inp)
      case OR => OrAsWritten(inp)
      case NO => NorAsWritten(inp)
      case XO => XorAll(inp)
      case NX => Not(XorAll(inp))
  }

  // ---------------------------------------------------------------------
  // How the port code relates to the reference semantics.
  // ---------------------------------------------------------------------

  /** AND agrees with the three-valued AND exactly when no FALSE follows a non-FALSE first pin. */
  lemma AndAgreesIff(s: seq<Bool3S>)
    requires |s| >= 1
    ensures AndAsWritten(s) == AndAll(s) <==> (FALSE in s ==> s[0] == FALSE)
  {
    AndAllValue(s);
    assert s == [s[0]] + s[1..];
  }

  /**
   * The repaired NAND is the negation of AND as the port code computes it, so
   * it agrees with the three-valued NAND exactly where AND agrees with the
   * three-valued AND; it departs from NAND as written only on an UNDEF first pin.
   */
  lemma NandRepairedIsNotAnd(s: seq<Bool3S>)
    requires |s| >= 1
    ensures NandRepaired(s) == Not(AndAsWritten(s))
    ensures NandRepaired(s) == Not(AndAll(s)) <==> (FALSE in s ==> s[0] == FALSE)
    ensures NandRepaired(s) != NandAsWritten(s) <==> s[0] == UNDEF
  {
    AndAgreesIff(s);
  }

  /** NAND as written agrees with NOT of the three-valued AND exactly in these cases. */
  lemma NandAgreesIff(s: seq<Bool3S>)
    requires |s| >= 1
    ensures NandAsWritten(s) == Not(AndAll(s)) <==>
              (s[0] == TRUE ==> FALSE !in s[1..]) && (s[0] == UNDEF ==> FALSE in s[1..])
  {
    AndAllValue(s);
    assert s == [s[0]] + s[1..];
  }

  /** OR agrees with the three-valued OR exactly when no TRUE follows a non-TRUE first pin. */
  lemma OrAgreesIff(s: seq<Bool3S>)
    requires |s| >= 1
    ensures OrAsWritten(s) == OrAll(s) <==> (TRUE in s ==> s[0] == TRUE)
  {
    OrAllValue(s);
    assert s == [s[0]] + s[1..];
  }

  /** NOR agrees with NOT of the three-valued OR exactly when no TRUE follows a non-TRUE first pin. */
  lemma NorAgreesIff(s: seq<Bool3S>)
    requires |s| >= 1
    ensures NorAsWritten(s) == Not(OrAll(s)) <==> (TRUE in s ==> s[0] == TRUE)
  {
    OrAllValue(s);
    assert s == [s[0]] + s[1..];
  }

  /** The AND cases on which the port code and three-valued logic agree. */
  lemma AndListedCases(s: seq<Bool3S>)
    requires |s| >= 1
    ensures s[0] == FALSE ==> AndAsWritten(s) == FALSE == AndAll(s)
    ensures s[0] == TRUE && (forall i :: 1 <= i < |s| ==> s[i] == TRUE) ==>
              AndAsWritten(s) == TRUE == AndAll(s)
    ensures s[0] == TRUE && UNDEF in s[1..] && FALSE !in s[1..] ==>
              AndAsWritten(s) == UNDEF == AndAll(s)
  {
    AndAllValue(s);
    assert s == [s[0]] + s[1..];
  }

  /** The NAND cases on which the port code and three-valued logic agree. */
  lemma NandListedCases(s: seq<Bool3S>)
    requires |s| >= 1
    ensures s[0] == FALSE ==> NandAsWritten(s) == TRUE == Not(AndAll(s))
    ensures (forall i :: 0 <= i < |s| ==> s[i] == TRUE) ==>
              NandAsWritten(s) == FALSE == Not(AndAll(s))
  {
    AndAllValue(s);
    assert s == [s[0]] + s[1..];
  }

  /** The OR cases on which the port code and three-valued logic agree. */
  lemma OrListedCases(s: seq<Bool3S>)
    requires |s| >= 1
    ensures s[0] == TRUE ==> OrAsWritten(s) == TRUE == OrAll(s)
    ensures (forall i :: 0 <= i < |s| ==> s[i] == FALSE) ==>
              OrAsWritten(s) == FALSE == OrAll(s)
  {
    OrAllValue(s);
    assert s == [s[0]] + s[1..];
  }

  /** The NOR cases on which the port code and three-valued logic agree. */
  lemma NorListedCases(s: seq<Bool3S>)
    requires |s| >= 1
    ensures s[0] == TRUE ==> NorAsWritten(s) == FALSE == Not(OrAll(s))
    ensures (forall i :: 0 <= i < |s| ==> s[i] == FALSE) ==>
              NorAsWritten(s) == TRUE == Not(OrAll(s))
  {
    OrAllValue(s);
    assert s == [s[0]] + s[1..];
  }

  /** Inputs on which the overwritten short-circuit departs from three-valued logic. */
  lemma ShortCircuitOverwritten()
    ensures AndAsWritten([TRUE, FALSE]) == TRUE && AndAll([TRUE, FALSE]) == FALSE
    ensures AndAsWritten([UNDEF, FALSE]) == UNDEF && AndAll([UNDEF, FALSE]) == FALSE
    ensures NandAsWritten([TRUE, FALSE]) == FALSE && Not(AndAll([TRUE, FALSE])) == TRUE
    ensures NandAsWritten([UNDEF, TRUE]) == TRUE && Not(AndAll([UNDEF, TRUE])) == UNDEF
    ensures OrAsWritten([FALSE, TRUE]) == FALSE && OrAll([FALSE, TRUE]) == TRUE
    ensures NorAsWritten([FALSE, TRUE]) == TRUE && Not(OrAll([FALSE, TRUE])) == FALSE
  {
    assert [TRUE, FALSE][1..] == [FALSE];
    assert [UNDEF, FALSE][1..] == [FALSE];
    assert [UNDEF, TRUE][1..] == [TRUE];
    assert [FALSE, TRUE][1..] == [TRUE];
    assert [TRUE, FALSE][..1] == [TRUE];
    assert [UNDEF, FALSE][..1] == [UNDEF];
    assert [UNDEF, TRUE][..1] == [UNDEF];
    assert [FALSE, TRUE][..1] == [FALSE];
  }

  /** Port_NXOR::simular as written guards its loop with validIndex(i), that is i < n for n pins. */
  predicate NxorGuardAsWritten(n: nat, i: nat)
  {
    i < n
  }

  /**
   * Only an input vector as long as the pin list reaches the loop; for every
   * such vector some iteration passes the guard and reads in_port[i + 1]
   * outside the vector.
   */
  lemma NxorAsWrittenReadsPastEnd(inp: seq<Bool3S>)
    requires |inp| >= 1
    ensures exists i: nat :: NxorGuardAsWritten(|inp|, i) && !(i + 1 < |inp|)
  {
    assert NxorGuardAsWritten(|inp|, |inp| - 1);
  }

  /** XOR of a vector is UNDEF iff some pin is; otherwise TRUE iff an odd number of pins are TRUE. */
  lemma XorParity(s: seq<Bool3S>)
    requires |s| >= 1
    ensures Evaluate(XO, |s|, s) == UNDEF <==> UNDEF in s
    ensures UNDEF !in s ==> (Evaluate(XO, |s|, s) == TRUE <==> CountTrue(s) % 2 == 1)
    ensures Evaluate(NX, |s|, s) == Not(Evaluate(XO, |s|, s))
  {
    XorAllValue(s);
  }

  class Port {
    const kind: Kind
    /** id_in: the signed source id of each input pin (0 = not set). */
    var pins: seq<int>
    /** out_port: the cached output. */
    var out: Bool3S

    /** Port(NI): NI pins, all unset, output UNDEF. The base constructor checks nothing. */
    constructor (k: Kind, ni: nat)
      ensures kind == k
      ensures pins == Zeros(ni)
      ensures out == UNDEF
    {
      kind := k;
      pins := Zeros(ni);
      out := UNDEF;
    }

    /** validNumInputs, with Port_NOT's override: the counts the variant accepts, never 0. */
    predicate ValidNumInputs(ni: nat)
      ensures ValidNumInputs(ni) ==> ni >= 1
    {
      AcceptsArity(kind, ni)
    }

    /** validIndex: I names an existing pin. */
    predicate ValidIndex(i: nat)
      reads this
      ensures ValidIndex(i) ==> 0 <= i < |pins|
    {
      i < GetNumInputs()
    }

    /** valid: the pin count is accepted and every pin is set. */
    predicate Valid()
      reads this
      ensures Valid() <==> (if kind == NT then |pins| == 1 else |pins| >= 2) && 0 !in pins
    {
      ValidNumInputs(GetNumInputs()) && forall i :: 0 <= i < GetNumInputs() ==> pins[i] != 0
    }

    /** getNumInputs: the pin count is the length of the pin list. */
    function GetNumInputs(): (n: nat)
      reads this
      ensures n == |pins|
    {
      |pins|
    }

    /** getOutput: the cached output. */
    function GetOutput(): (s: Bool3S)
      reads this
      ensures s == out
    {
      out
    }

    /** getId_in: the source of pin I, or 0 for an index out of range. */
    function GetId_in(i: nat): (id: int)
      reads this
      ensures ValidIndex(i) ==> id == pins[i]
      ensures !ValidIndex(i) ==> id == 0
    {
      if !ValidIndex(i) then 0 else pins[i]
    }

    function GetName(): (s: string)
      ensures |s| == 2
      ensures forall k :: Name(k) == s <==> k == kind
    {
      Name(kind)
    }

    /**
     * setNumInputs: a count the variant rejects, or the current count, changes
     * nothing; any other count leaves exactly NI pins, all unset.
     */
    method SetNumInputs(ni: nat)
      modifies this
      ensures out == old(out)
      ensures if ValidNumInputs(ni) && ni != old(|pins|) then pins == Zeros(ni)
              else pins == old(pins)
    {
      if ValidNumInputs(ni) && ni != GetNumInputs() {
        pins := Resized(pins, ni);
        var i := 0;
        while i < GetNumInputs()
          invariant 0 <= i <= |pins| == ni
          invariant out == old(out)
          invariant forall k :: 0 <= k < i ==> pins[k] == 0
        {
          pins := pins[i := 0];
          i := i + 1;
        }
      }
    }

    method SetOutput(s: Bool3S)
      modifies this
      ensures out == s
      ensures pins == old(pins)
    {
      out := s;
    }

    /** setId_in: only an existing pin and a nonzero id are accepted. */
    method SetId_in(i: nat, id: int)
      modifies this
      ensures out == old(out)
      ensures if old(ValidIndex(i)) && id != 0 then pins == old(pins)[i := id]
              else pins == old(pins)
    {
      if ValidIndex(i) && id != 0 {
        pins := pins[i := id];
      }
    }

    /**
     * simular: recomputes the output from one value per pin; a vector whose
     * length differs from the pin count gives UNDEF. The source indexes
     * in_port[0] without a check, so a port with no pins must not be given an
     * empty vector.
     */
    method Simulate(inp: seq<Bool3S>)
      requires |inp| == |pins| ==> |pins| >= 1
      modifies this
      ensures pins == old(pins)
      ensures out == Evaluate(kind, |pins|, inp)
      ensures |inp| != |pins| ==> out == UNDEF
    {
      match kind
      case NT => SimulateNot(inp);
      case AN => SimulateAnd(inp);
      case NA => SimulateNand(inp);
      case OR => SimulateOr(inp);
      case NO => SimulateNor(inp);
      case XO => SimulateXor(inp);
      case NX => SimulateNxor(inp);
    }

    method SimulateNot(inp: seq<Bool3S>)
      requires |inp| == |pins| ==> |pins| >= 1
      modifies this
      ensures pins == old(pins)
      ensures out == if |inp| != |pins| then UNDEF else Not(inp[0])
    {
      if |inp| != GetNumInputs() {
        out := UNDEF;
        return;
      }
      out := Not(inp[0]);
    }

    method SimulateAnd(inp: seq<Bool3S>)
      requires |inp| == |pins| ==> |pins| >= 1
      modifies this
      ensures pins == old(pins)
      ensures out == if |inp| != |pins| then UNDEF else AndAsWritten(inp)
    {
      if |inp| != GetNumInputs() {
        out := UNDEF;
        return;
      }
      out := inp[0];
      if out == FALSE || out == UNDEF {
        return;
      }
      var i := 0;
      while i < GetNumInputs()
        invariant 0 <= i <= |pins| && pins == old(pins)
        invariant FALSE !in inp[1..Min(i + 1, |inp|)]
        invariant out == if UNDEF in inp[1..Min(i + 1, |inp|)] then UNDEF else TRUE
      {
        if ValidIndex(i + 1) {
          assert inp[1..i + 2] == inp[1..i + 1] + [inp[i + 1]];
          out := And(out, inp[i + 1]);
          if out == FALSE {
            assert inp[1..][i] == FALSE;
            break;
          }
        }
        i := i + 1;
      }
      if out == UNDEF {
        return;
      }
      out := TRUE;
    }

    method SimulateNand(inp: seq<Bool3S>)
      requires |inp| == |pins| ==> |pins| >= 1
      modifies this
      ensures pins == old(pins)
      ensures out == if |inp| != |pins| then UNDEF else NandAsWritten(inp)
    {
      if |inp| != GetNumInputs() {
        out := UNDEF;
        return;
      }
      out := inp[0];
      if out == FALSE || out == UNDEF {
        out := TRUE;
        return;
      }
      var i := 0;
      while i < GetNumInputs()
        invariant 0 <= i <= |pins| && pins == old(pins)
        invariant FALSE !in inp[1..Min(i + 1, |inp|)]
        invariant out == if UNDEF in inp[1..Min(i + 1, |inp|)] then UNDEF else TRUE
      {
        if ValidIndex(i + 1) {
          assert inp[1..i + 2] == inp[1..i + 1] + [inp[i + 1]];
          out := And(out, inp[i + 1]);
          if out == FALSE {
            assert inp[1..][i] == FALSE;
            out := TRUE;
            break;
          }
        }
        i := i + 1;
      }
      if out == UNDEF {
        return;
      }
      out := FALSE;
    }

    method SimulateOr(inp: seq<Bool3S>)
      requires |inp| == |pins| ==> |pins| >= 1
      modifies this
      ensures pins == old(pins)
      ensures out == if |inp| != |pins| then UNDEF else OrAsWritten(inp)
    {
      if |inp| != GetNumInputs() {
        out := UNDEF;
        return;
      }
      out := inp[0];
      if out == TRUE {
        return;
      }
      var i := 0;
      while i < GetNumInputs()
        invariant 0 <= i <= |pins| && pins == old(pins)
        invariant TRUE !in inp[..Min(i + 1, |inp|)]
        invariant out == if UNDEF in inp[..Min(i + 1, |inp|)] then UNDEF else FALSE
      {
        if ValidIndex(i + 1) {
          assert inp[..i + 2] == inp[..i + 1] + [inp[i + 1]];
          out := Or(out, inp[i + 1]);
          if out == TRUE {
            assert inp[1..][i] == TRUE;
            break;
          }
        }
        i := i + 1;
      }
      if out == UNDEF {
        return;
      }
      out := FALSE;
    }

    method SimulateNor(inp: seq<Bool3S>)
      requires |inp| == |pins| ==> |pins| >= 1
      modifies this
      ensures pins == old(pins)
      ensures out == if |inp| != |pins| then UNDEF else NorAsWritten(inp)
    {
      if |inp| != GetNumInputs() {
        out := UNDEF;
        return;
      }
      // possuiUNDEF counts UNDEF partial results; nothing reads it.
      var possuiUNDEF := 0;
      out := inp[0];
      if out == TRUE {
        out := FALSE;
        return;
      }
      var i := 0;
      while i < GetNumInputs()
        invariant 0 <= i <= |pins| && pins == old(pins)
        invariant TRUE !in inp[..Min(i + 1, |inp|)]
        invariant out == if UNDEF in inp[..Min(i + 1, |inp|)] then UNDEF else FALSE
      {
        if ValidIndex(i + 1) {
          assert inp[..i + 2] == inp[..i + 1] + [inp[i + 1]];
          out := Or(out, inp[i + 1]);
          if out == TRUE {
            assert inp[1..][i] == TRUE;
            out := FALSE;
            break;
          }
          if out == UNDEF {
            possuiUNDEF := possuiUNDEF + 1;
          }
        }
        i := i + 1;
      }
      if out == UNDEF {
        return;
      }
      out := TRUE;
    }

    method SimulateXor(inp: seq<Bool3S>)
      requires |inp| == |pins| ==> |pins| >= 1
      modifies this
      ensures pins == old(pins)
      ensures out == if |inp| != |pins| then UNDEF else XorAll(inp)
    {
      if |inp| != GetNumInputs() {
        out := UNDEF;
        return;
      }
      out := inp[0];
      var i := 0;
      while i < GetNumInputs()
        invariant 0 <= i <= |pins| && pins == old(pins)
        invariant out == XorAll(inp[..Min(i + 1, |inp|)])
      {
        if ValidIndex(i + 1) {
          assert inp[..i + 2][..i + 1] == inp[..i + 1];
          out := Xor(out, inp[i + 1]);
        }
        i := i + 1;
      }
      assert inp[..|inp|] == inp;
    }

    /**
     * The source guards this loop with validIndex(i) but reads in_port[i + 1],
     * one past the end on the last iteration (NxorAsWrittenReadsPastEnd);
     * this model uses XOR's guard validIndex(i + 1).
     */
    method SimulateNxor(inp: seq<Bool3S>)
      requires |inp| == |pins| ==> |pins| >= 1
      modifies this
      ensures pins == old(pins)
      ensures out == if |inp| != |pins| then UNDEF else Not(XorAll(inp))
    {
      if |inp| != GetNumInputs() {
        out := UNDEF;
        return;
      }
      out := inp[0];
      var i := 0;
      while i < GetNumInputs()
        invariant 0 <= i <= |pins| && pins == old(pins)
        invariant out == XorAll(inp[..Min(i + 1, |inp|)])
      {
        if ValidIndex(i + 1) {
          assert inp[..i + 2][..i + 1] == inp[..i + 1];
          out := Xor(out, inp[i + 1]);
        }
        i := i + 1;
      }
      assert inp[..|inp|] == inp;
      out := Not(out);
    }
  }
}
