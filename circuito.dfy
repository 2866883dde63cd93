/**
 * The circuit (class Circuito) and the gate-type helpers validType and
 * allocPort.
 *
 * A circuit has Nin inputs, an output-source list id_out (one signed source
 * id per circuit output), a buffer out_circ of circuit output values, and a
 * list of gate slots, each holding a port or null. Source id -k names
 * circuit input k, source id k names gate k, and 0 names nothing.
 */
module Circuits {
  import opened TriState
  import opened Ports
  import opened Fixpoint

  datatype Option<T> = None | Some(value: T)

  /** `unsigned` in the source: 32 bits. */
  type uint32 = x: int | 0 <= x < 0x1_0000_0000

  /** The int an unsigned value becomes when it is passed for an int parameter (two's complement). */
  function AsInt(u: uint32): int
  {
    if u < 0x8000_0000 then u else u - 0x1_0000_0000
  }

  /**
   * The value of `-int(n)` for an unsigned n: the int conversion, negated.
   * The conversion of 2^31 is -2^31, whose negation overflows; it is taken to
   * wrap to -2^31, as on a two's-complement machine.
   */
  function NegInt(u: uint32): int
  {
    if AsInt(u) == -0x8000_0000 then -0x8000_0000 else -AsInt(u)
  }

  /**
   * The number of circuit input ids validIdInput accepts for Nin inputs: all
   * Nin of them up to 2^31, and none above, where -int(Nin) is positive.
   */
  function InputIds(nin: uint32): (n: nat)
    ensures n <= nin
  {
    if nin <= 0x8000_0000 then nin else 0
  }

  /**
   * The number of ids 1, 2, ... that a check `id <= int(count)` accepts, for
   * a list length returned as unsigned: the length truncated to 32 bits and
   * converted to int, which is negative (so accepts nothing) from 2^31 on.
   */
  function PositiveIds(count: nat): (n: nat)
    ensures n <= count && n < 0x8000_0000
    ensures count < 0x8000_0000 ==> n == count
    ensures 0x8000_0000 <= count < 0x1_0000_0000 ==> n == 0
  {
    var u := AsInt(count % 0x1_0000_0000);
    if u < 0 then 0 else u
  }

  /** C++ `!n` on an unsigned, promoted to int for a comparison. */
  function CNot(n: uint32): int
  {
    if n == 0 then 1 else 0
  }

  /** toupper in the "C" locale. */
  function ToUpper(c: char): char
  {
    if 'a' <= c <= 'z' then (c as int - 32) as char else c
  }

  function Upper(s: string): (r: string)
    ensures |r| == |s|
    ensures forall i :: 0 <= i < |s| ==> r[i] == ToUpper(s[i])
  {
    seq(|s|, i requires 0 <= i < |s| => ToUpper(s[i]))
  }

  /** Upper-casing twice is upper-casing once. */
  lemma UpperIdempotent(s: string)
    ensures Upper(Upper(s)) == Upper(s)
  {
  }

  /** The seven mnemonics are exactly the names of the seven variants. */
  lemma {:induction false} MnemonicIsName(t: string)
    ensures (exists k :: Name(k) == t) <==>
            t == "NT" || t == "AN" || t == "NA" || t == "OR" || t == "NO" || t == "XO" || t == "NX"
  {
    if t == "NT" { assert Name(NT) == t; }
    if t == "AN" { assert Name(AN) == t; }
    if t == "NA" { assert Name(NA) == t; }
    if t == "OR" { assert Name(OR) == t; }
    if t == "NO" { assert Name(NO) == t; }
    if t == "XO" { assert Name(XO) == t; }
    if t == "NX" { assert Name(NX) == t; }
  }

  /**
   * validType: accepts exactly the two-character strings whose upper-cased
   * form names a variant. The argument is taken by reference; the second
   * component is the argument as validType leaves it (upper-cased when it has
   * two characters, untouched otherwise).
   */
  function ValidType(tipo: string): (r: (bool, string))
    ensures r.0 <==> |tipo| == 2 && exists k :: Name(k) == Upper(tipo)
    ensures r.1 == if |tipo| == 2 then Upper(tipo) else tipo
  {
    if |tipo| != 2 then (false, tipo)
    else
      var t := [ToUpper(tipo[0]), ToUpper(tipo[1])];
      assert t == Upper(tipo);
      MnemonicIsName(t);
      (t == "NT" || t == "AN" || t == "NA" || t == "OR" || t == "NO" || t == "XO" || t == "NX", t)
  }

  /**
   * allocPort: the variant a mnemonic selects, or None (nullptr) when
   * validType rejects it. Allocation itself is done by the caller.
   */
  function AllocPort(tipo: string): (r: Option<Kind>)
    ensures r.Some? <==> ValidType(tipo).0
    ensures r.Some? ==> Name(r.value) == Upper(tipo)
  {
    var checked := ValidType(tipo);
    if !checked.0 then None
    else
      var t := checked.1;
      if t == "NT" then Some(NT)
      else if t == "AN" then Some(AN)
      else if t == "NA" then Some(NA)
      else if t == "OR" then Some(OR)
      else if t == "NO" then Some(NO)
      else if t == "XO" then Some(XO)
      else if t == "NX" then Some(NX)
      else None
  }

  /** allocPort inverts getName. */
  lemma AllocPortName(k: Kind)
    ensures AllocPort(Name(k)) == Some(k)
    ensures AllocPort(Upper(Name(k))) == Some(k)
  {
    UpperIdempotent(Name(k));
    assert Upper(Name(k)) == Name(k);
    NameInjective(k, AllocPort(Name(k)).value);
  }

  /** allocPort ignores case: any string that upper-cases to a variant's name selects that variant. */
  lemma AllocPortIgnoresCase(t: string, k: Kind)
    requires Upper(t) == Name(k)
    ensures AllocPort(t) == Some(k)
  {
    NameInjective(k, AllocPort(t).value);
  }

  /** Lower or mixed case is accepted; other lengths and unknown mnemonics are not. */
  lemma AllocPortExamples()
    ensures AllocPort("an") == Some(AN) && AllocPort("Nx") == Some(NX)
    ensures AllocPort("AND") == None && AllocPort("") == None && AllocPort("XY") == None
  {
    assert Upper("an") == "AN";
    assert Upper("Nx") == "NX";
    assert Upper("XY") == "XY";
    MnemonicIsName("XY");
  }

  /** No two non-null slots hold the same port object. */
  predicate Distinct(ps: seq<Port?>)
  {
    forall i, j :: 0 <= i < |ps| && 0 <= j < |ps| && i != j && ps[i] != null ==> ps[i] != ps[j]
  }

  function Nulls(n: nat): (s: seq<Port?>)
    ensures |s| == n
    ensures forall i :: 0 <= i < n ==> s[i] == null
  {
    seq(n, _ => null)
  }

  class Circuito {
    var Nin: uint32
    var Nout: nat
    var Nportas: nat
    /** id_out: the source of each circuit output (0 = not set). */
    var id_out: seq<int>
    /** out_circ: circuit output values; never computed by the source. */
    var out_circ: seq<Bool3S>
    /** ports: the gate slots, null when not allocated. */
    var ports: seq<Port?>

    /** The counts agree with the lengths of the lists. */
    ghost predicate Sized()
      reads this
    {
      Nout == |id_out| == |out_circ| && Nportas == |ports|
    }

    /** Representation invariant kept by every operation. */
    ghost predicate Consistent()
      reads this, ports
    {
      Sized() && Distinct(ports) &&
      forall i :: 0 <= i < |ports| && ports[i] != null ==> AcceptsArity(ports[i].kind, |ports[i].pins|)
    }

    predicate AllAllocated()
      reads this
    {
      forall i :: 0 <= i < |ports| ==> ports[i] != null
    }

    /** The configuration of every gate. */
    ghost function Net(): seq<Gate>
      reads this, ports
      requires AllAllocated()
    {
      seq(|ports|, i reads this, ports requires 0 <= i < |ports| && ports[i] != null =>
        Gate(ports[i].kind, ports[i].pins))
    }

    /** The cached output of every gate. */
    ghost function Outs(): seq<Bool3S>
      reads this, ports
      requires AllAllocated()
    {
      seq(|ports|, i reads this, ports requires 0 <= i < |ports| && ports[i] != null =>
        ports[i].out)
    }

    /** Circuito(): an empty circuit. */
    constructor ()
      ensures Consistent()
      ensures Nin == 0 && Nout == 0 && Nportas == 0
      ensures id_out == [] && out_circ == [] && ports == []
    {
      Nin, Nout, Nportas := 0, 0, 0;
      id_out, out_circ, ports := [], [], [];
    }

    /** clear: every count zero, every list empty (the gates are released). */
    method Clear()
      modifies this
      ensures Consistent()
      ensures Nin == 0 && Nout == 0 && Nportas == 0
      ensures id_out == [] && out_circ == [] && ports == []
    {
      Nin := 0;
      Nout := 0;
      Nportas := 0;
      id_out := [];
      out_circ := [];
      ports := [];
    }

    /**
     * resize: the guard `!Nentradas > 0 && ...` parses as `(!Nentradas) > 0
     * && ...`, so only the call with all three arguments 0 is rejected (and
     * then nothing changes). Otherwise the circuit is cleared and re-sized:
     * every output source 0, every gate slot null. The source writes
     * out_circ[i] right after clearing it; here out_circ is sized to Nout.
     */
    method Resize(Nentradas: uint32, Nsaidas: uint32, Nport: uint32)
      requires Consistent()
      modifies this
      ensures Consistent()
      ensures Nentradas == 0 && Nsaidas == 0 && Nport == 0 ==> unchanged(this)
      ensures !(Nentradas == 0 && Nsaidas == 0 && Nport == 0) ==>
                Nin == Nentradas && Nout == Nsaidas && Nportas == Nport &&
                id_out == Zeros(Nsaidas) && out_circ == Undefs(Nsaidas) && ports == Nulls(Nport)
    {
      if CNot(Nentradas) > 0 && CNot(Nsaidas) > 0 && CNot(Nport) > 0 {
        return;
      }
      Clear();
      Nin := Nentradas;
      Nout := Nsaidas;
      Nportas := Nport;
      id_out := Zeros(Nsaidas);
      out_circ := Undefs(Nsaidas);
      ports := Nulls(Nport);

      var i := 0;
      while i < GetNumOutputs()
        invariant 0 <= i <= Nsaidas
        invariant Nin == Nentradas && Nout == Nsaidas && Nportas == Nport && ports == Nulls(Nport)
        invariant id_out == Zeros(Nsaidas) && out_circ == Undefs(Nsaidas)
      {
        id_out := id_out[i := 0];
        out_circ := out_circ[i := UNDEF];
        i := i + 1;
      }

      i := 0;
      while i < GetNumPorts()
        invariant 0 <= i <= Nport
        invariant Nin == Nentradas && Nout == Nsaidas && Nportas == Nport && ports == Nulls(Nport)
        invariant id_out == Zeros(Nsaidas) && out_circ == Undefs(Nsaidas)
      {
        ports := ports[i := null];
        i := i + 1;
      }
    }

    // -------------------------------------------------------------------
    // Id checks
    // -------------------------------------------------------------------

    /**
     * validIdInput: the id indexes the input vector (-1 is input 1), as long
     * as Nin is at most 2^31; for a larger Nin the bound -int(Nin) is
     * positive and no id is accepted.
     */
    predicate ValidIdInput(id: int)
      reads this
      ensures ValidIdInput(id) <==> 0 <= -id - 1 < InputIds(Nin)
      ensures Nin <= 0x8000_0000 ==> (ValidIdInput(id) <==> 0 <= -id - 1 < Nin)
      ensures Nin > 0x8000_0000 ==> !ValidIdInput(id)
    {
      id <= -1 && id >= NegInt(GetNumInputs())
    }

    /**
     * validIdOutput: the id indexes id_out (1 is output 1), as long as there
     * are fewer than 2^31 outputs; from 2^31 on int(getNumOutputs()) is
     * negative and no id is accepted.
     */
    predicate ValidIdOutput(id: int)
      reads this
      ensures ValidIdOutput(id) <==> 0 <= id - 1 < PositiveIds(|id_out|)
      ensures |id_out| < 0x8000_0000 ==> (ValidIdOutput(id) <==> 0 <= id - 1 < |id_out|)
      ensures 0x8000_0000 <= |id_out| < 0x1_0000_0000 ==> !ValidIdOutput(id)
    {
      id >= 1 && id <= AsInt(GetNumOutputs() % 0x1_0000_0000)
    }

    /**
     * validIdPort: the id indexes the gate slots (1 is gate 1), as long as
     * there are fewer than 2^31 slots; from 2^31 on int(getNumPorts()) is
     * negative and no id is accepted.
     */
    predicate ValidIdPort(id: int)
      reads this
      ensures ValidIdPort(id) <==> 0 <= id - 1 < PositiveIds(|ports|)
      ensures |ports| < 0x8000_0000 ==> (ValidIdPort(id) <==> 0 <= id - 1 < |ports|)
      ensures 0x8000_0000 <= |ports| < 0x1_0000_0000 ==> !ValidIdPort(id)
    {
      id >= 1 && id <= AsInt(GetNumPorts() % 0x1_0000_0000)
    }

    /** validIdOrig: a circuit input or a gate; 0 is never a source. */
    predicate ValidIdOrig(id: int)
      reads this
      ensures ValidIdOrig(id) <==> (-(InputIds(Nin) as int) <= id <= -1) || (1 <= id <= PositiveIds(|ports|))
      ensures ValidIdOrig(id) ==> id != 0
      ensures ValidIdOrig(id) <==> IsSource(id, InputIds(Nin), PositiveIds(|ports|))
    {
      ValidIdInput(id) || ValidIdPort(id)
    }

    /** definedPort: the id is in range and its slot is allocated. */
    predicate DefinedPort(id: int)
      reads this
      ensures DefinedPort(id) <==> 1 <= id <= PositiveIds(|ports|) && ports[id - 1] != null
    {
      if !ValidIdPort(id) then false
      else ports[id - 1] != null
    }

    /** validPort: a defined gate all of whose pins name existing sources (see ValidPortIff). */
    predicate ValidPort(id: int)
      reads this, ports
    {
      DefinedPort(id) &&
      forall j: nat :: j < GetNumInputsPort(id) ==> ValidIdOrig(GetId_inPort(id, j))
    }

    /** validPort holds iff the slot is allocated and every pin names a circuit input or a gate. */
    lemma ValidPortIff(id: int)
      ensures ValidPort(id) <==> DefinedPort(id) && PinsWired(ports[id - 1].pins, InputIds(Nin), PositiveIds(|ports|))
    {
      if DefinedPort(id) && ValidPort(id) {
        var pins := ports[id - 1].pins;
        forall j | 0 <= j < |pins|
          ensures IsSource(pins[j], InputIds(Nin), PositiveIds(|ports|))
        {
          assert ValidIdOrig(GetId_inPort(id, j));
        }
      }
    }

    /** valid: what must hold before the circuit is simulated (see ValidIff). */
    predicate Valid()
      reads this, ports
    {
      if GetNumInputs() == 0 then false
      else if GetNumOutputs() == 0 then false
      else if GetNumPorts() == 0 then false
      else
        (forall id :: 1 <= id <= GetNumPorts() ==> ValidPort(id)) &&
        (forall id :: 1 <= id <= GetNumOutputs() ==> ValidIdOrig(GetIdOutput(id)))
    }

    /**
     * valid() is false when a count is 0; otherwise it holds iff every slot
     * is allocated, every pin of every gate names an existing source and
     * every output names an existing source (no circuit input is one when
     * Nin exceeds 2^31).
     */
    lemma ValidIff()
      ensures Valid() <==>
                Nin > 0 && 0 < |id_out| < 0x8000_0000 && 0 < |ports| < 0x8000_0000 &&
                (forall i :: 0 <= i < |ports| ==> ports[i] != null && PinsWired(ports[i].pins, InputIds(Nin), |ports|)) &&
                (forall i :: 0 <= i < |id_out| ==> IsSource(id_out[i], InputIds(Nin), |ports|))
    {
      if Valid() {
        assert ValidPort(|ports|);
        assert ValidIdOrig(GetIdOutput(|id_out|));
      }
      forall id | 1 <= id <= |ports| && |ports| < 0x8000_0000
        ensures ValidPort(id) <==> ports[id - 1] != null && PinsWired(ports[id - 1].pins, InputIds(Nin), |ports|)
      {
        ValidPortIff(id);
      }
      if Valid() {
        forall i | 0 <= i < |ports|
          ensures ports[i] != null && PinsWired(ports[i].pins, InputIds(Nin), |ports|)
        {
          assert ValidPort(i + 1);
        }
        forall i | 0 <= i < |id_out|
          ensures IsSource(id_out[i], InputIds(Nin), |ports|)
        {
          assert ValidIdOrig(GetIdOutput(i + 1));
        }
      }
    }

    /**
     * In a valid, consistent circuit every pin read by simular is in range:
     * a pin id k > 0 names an allocated gate k and a pin id -k names entry
     * k-1 of an input vector of length Nin.
     */
    lemma ValidWires()
      requires Consistent() && Valid()
      ensures AllAllocated()
      ensures Wired(Net(), InputIds(Nin)) && Wired(Net(), Nin)
    {
      ValidIff();
      var net := Net();
      forall i | 0 <= i < |net|
        ensures AcceptsArity(net[i].kind, |net[i].pins|) && PinsWired(net[i].pins, InputIds(Nin), |net|)
      {
        assert net[i] == Gate(ports[i].kind, ports[i].pins);
      }
      WiredMore(net, InputIds(Nin), Nin);
    }

    // -------------------------------------------------------------------
    // Queries
    // -------------------------------------------------------------------

    /** getNumInputs: the unsigned input count. */
    function GetNumInputs(): (n: uint32)
      reads this
      ensures n == Nin
    {
      Nin
    }

    /** getNumOutputs: the length of id_out, which is the output count Nout. */
    function GetNumOutputs(): (n: nat)
      reads this
      ensures n == |id_out|
      ensures Sized() ==> n == Nout
    {
      |id_out|
    }

    /** getNumPorts: the number of gate slots, which is the gate count Nportas. */
    function GetNumPorts(): (n: nat)
      reads this
      ensures n == |ports|
      ensures Sized() ==> n == Nportas
    {
      |ports|
    }

    /** getIdOutput: the source of output IdOutput, or 0 for an invalid output id. */
    function GetIdOutput(id: int): (r: int)
      reads this
      ensures ValidIdOutput(id) ==> r == id_out[id - 1]
      ensures !ValidIdOutput(id) ==> r == 0
    {
      if ValidIdOutput(id) then id_out[id - 1] else 0
    }

    /** getOutput: the value of output IdOutput, or UNDEF for an invalid output id. */
    function GetOutput(id: int): (r: Bool3S)
      reads this
      requires Sized()
      ensures ValidIdOutput(id) ==> r == out_circ[id - 1]
      ensures !ValidIdOutput(id) ==> r == UNDEF
    {
      if ValidIdOutput(id) then out_circ[id - 1] else UNDEF
    }

    /** getNamePort: the mnemonic of a defined gate (which allocPort maps back to it), else "??". */
    function GetNamePort(id: int): (s: string)
      reads this, ports
      ensures DefinedPort(id) ==> s == Name(ports[id - 1].kind) && AllocPort(s) == Some(ports[id - 1].kind)
      ensures !DefinedPort(id) ==> s == "??"
    {
      if DefinedPort(id) then
        AllocPortName(ports[id - 1].kind);
        ports[id - 1].GetName()
      else "??"
    }

    /** getNumInputsPort: the pin count of a defined gate, else 0. */
    function GetNumInputsPort(id: int): (n: nat)
      reads this, ports
      ensures DefinedPort(id) ==> n == |ports[id - 1].pins|
      ensures !DefinedPort(id) ==> n == 0
    {
      if DefinedPort(id) then ports[id - 1].GetNumInputs() else 0
    }

    /** getId_inPort: the source of pin I of a defined gate, else 0 (also for I out of range). */
    function GetId_inPort(id: int, i: nat): (r: int)
      reads this, ports
      ensures DefinedPort(id) && i < |ports[id - 1].pins| ==> r == ports[id - 1].pins[i]
      ensures !(DefinedPort(id) && i < |ports[id - 1].pins|) ==> r == 0
    {
      if DefinedPort(id) then ports[id - 1].GetId_in(i) else 0
    }

    // -------------------------------------------------------------------
    // Updates
    // -------------------------------------------------------------------

    /** setIdOutput: changes only output IdOut's source, and only when both ids are valid. */
    method SetIdOutput(IdOut: int, IdOrig: int)
      requires Consistent()
      modifies this
      ensures Consistent()
      ensures Nin == old(Nin) && Nout == old(Nout) && Nportas == old(Nportas)
      ensures out_circ == old(out_circ) && ports == old(ports)
      ensures if old(ValidIdOutput(IdOut) && ValidIdOrig(IdOrig)) then id_out == old(id_out)[IdOut - 1 := IdOrig]
              else id_out == old(id_out)
    {
      if ValidIdOutput(IdOut) && ValidIdOrig(IdOrig) {
        id_out := id_out[IdOut - 1 := IdOrig];
      }
    }

    /** The condition under which setPort as written replaces a slot. */
    predicate SetPortFires(IdPort: int, Tipo: string, NIn: uint32)
      reads this
    {
      ValidIdPort(IdPort) && ValidType(Tipo).0 && ValidIdInput(AsInt(NIn))
    }

    /**
     * setPort as written: the arity is checked with validIdInput(NIn), which
     * holds only for an NIn whose int conversion is a circuit input id, that
     * is NIn >= 2^32 - Nin, and for no NIn once Nin exceeds 2^31. For every
     * arity below 2^31 nothing changes. When
     * the guard does pass, the slot gets a new port of the named variant, and
     * setNumInputs(NIn) then sets its pin count if the variant accepts NIn.
     */
    method SetPort(IdPort: int, Tipo: string, NIn: uint32)
      requires Consistent()
      modifies this
      ensures Consistent()
      ensures Nin == old(Nin) && Nout == old(Nout) && Nportas == old(Nportas)
      ensures id_out == old(id_out) && out_circ == old(out_circ)
      ensures NIn < 0x8000_0000 ==> ports == old(ports)
      ensures !old(SetPortFires(IdPort, Tipo, NIn)) ==> ports == old(ports)
      ensures old(SetPortFires(IdPort, Tipo, NIn)) ==>
                AllocPort(Tipo).Some? &&
                var k := AllocPort(Tipo).value;
                ports == old(ports)[IdPort - 1 := ports[IdPort - 1]] &&
                ports[IdPort - 1] != null && fresh(ports[IdPort - 1]) &&
                ports[IdPort - 1].kind == k && ports[IdPort - 1].out == UNDEF &&
                ports[IdPort - 1].pins == Zeros(if AcceptsArity(k, NIn) then NIn else DefaultArity(k))
    {
      var checked := ValidType(Tipo);
      if ValidIdPort(IdPort) && checked.0 && ValidIdInput(AsInt(NIn)) {
        UpperIdempotent(Tipo);
        var k := AllocPort(checked.1).value;
        // `delete` of the old port: releasing memory is not modelled.
        var p := new Port(k, DefaultArity(k));
        ports := ports[IdPort - 1 := p];
        p.SetNumInputs(NIn);
      }
    }

    /**
     * setPort with the arity checked by the variant's validNumInputs: the slot
     * gets a new port of the named variant with NIn unset pins, exactly when
     * the slot id and mnemonic are valid and the variant accepts NIn.
     */
    method SetPortChecked(IdPort: int, Tipo: string, NIn: uint32)
      requires Consistent()
      modifies this
      ensures Consistent()
      ensures Nin == old(Nin) && Nout == old(Nout) && Nportas == old(Nportas)
      ensures id_out == old(id_out) && out_circ == old(out_circ)
      ensures var fires := old(ValidIdPort(IdPort)) && AllocPort(Tipo).Some? &&
                           AcceptsArity(AllocPort(Tipo).value, NIn);
              if fires then
                ports == old(ports)[IdPort - 1 := ports[IdPort - 1]] &&
                ports[IdPort - 1] != null && fresh(ports[IdPort - 1]) &&
                ports[IdPort - 1].kind == AllocPort(Tipo).value &&
                ports[IdPort - 1].out == UNDEF && ports[IdPort - 1].pins == Zeros(NIn)
              else ports == old(ports)
    {
      var checked := ValidType(Tipo);
      UpperIdempotent(Tipo);
      if ValidIdPort(IdPort) && checked.0 {
        var k := AllocPort(checked.1).value;
        var p := new Port(k, DefaultArity(k));
        if p.ValidNumInputs(NIn) {
          ports := ports[IdPort - 1 := p];
          p.SetNumInputs(NIn);
        }
      }
    }

    /**
     * setId_inPort: changes only pin I of gate IdPort, and only when the gate
     * is defined, I is one of its pins and IdOrig names an existing source.
     */
    method SetId_inPort(IdPort: int, I: nat, IdOrig: int)
      requires Consistent()
      modifies if DefinedPort(IdPort) then {ports[IdPort - 1]} else {}
      ensures Consistent()
      ensures DefinedPort(IdPort) ==>
                var p := ports[IdPort - 1];
                p.out == old(p.out) &&
                p.pins == if I < old(|p.pins|) && ValidIdOrig(IdOrig) then old(p.pins)[I := IdOrig]
                          else old(p.pins)
    {
      if DefinedPort(IdPort) && ports[IdPort - 1].ValidIndex(I) && ValidIdOrig(IdOrig) {
        ports[IdPort - 1].SetId_in(I, IdOrig);
      }
    }

    // -------------------------------------------------------------------
    // Simulation
    // -------------------------------------------------------------------

    /** The counts match the lists, every slot is allocated, no two slots share a port, and gate k is configured as gates[k]. */
    ghost predicate Configured(gates: seq<Gate>)
      reads this, ports
    {
      Sized() && AllAllocated() && |gates| == |ports| && Distinct(ports) &&
      forall k :: 0 <= k < |ports| ==> ports[k].kind == gates[k].kind && ports[k].pins == gates[k].pins
    }

    /** The cached gate outputs are `outs`. */
    ghost predicate Holds(outs: seq<Bool3S>)
      reads this, ports
      requires AllAllocated()
    {
      |outs| == |ports| && forall k :: 0 <= k < |ports| ==> ports[k].out == outs[k]
    }

    /**
     * The in_port vector simular builds for gate i: pin by pin, a gate's
     * cached output or a circuit input. The source's loop increments i
     * instead of j and writes into an unsized in_port; here j advances and
     * in_port has one entry per pin.
     */
    method GatherInputs(i: nat, in_circ: seq<Bool3S>, ghost gates: seq<Gate>, ghost outs: seq<Bool3S>)
      returns (in_port: seq<Bool3S>)
      requires Configured(gates) && Wired(gates, |in_circ|) && i < |ports| && Holds(outs)
      ensures in_port == Inputs(gates[i].pins, in_circ, outs)
    {
      var np := ports[i].GetNumInputs();
      in_port := Undefs(np);
      var j := 0;
      while j < np
        invariant 0 <= j <= np && |in_port| == np
        invariant forall m :: 0 <= m < j ==> in_port[m] == PinValue(in_circ, outs, gates[i].pins[m])
      {
        var id := ports[i].GetId_in(j);
        if id > 0 {
          in_port := in_port[j := ports[id - 1].GetOutput()];
        } else {
          in_port := in_port[j := in_circ[-1 * id - 1]];
        }
        j := j + 1;
      }
    }

    /**
     * Visiting gate i in a pass: while its output is UNDEF it is re-evaluated
     * from the current outputs, and tudo_def / alguma_def record whether it is
     * still UNDEF / newly defined; a defined gate is left alone.
     */
    method VisitGate(i: nat, in_circ: seq<Bool3S>, ghost gates: seq<Gate>, ghost before: seq<Bool3S>,
                     tudo_def: bool, alguma_def: bool)
      returns (tudo_def': bool, alguma_def': bool)
      requires Configured(gates) && Wired(gates, |in_circ|) && |before| == |gates| && i < |ports|
      requires Holds(PassPrefix(gates, in_circ, before, i))
      requires tudo_def <==> DefinedUpTo(PassPrefix(gates, in_circ, before, i), i)
      requires alguma_def <==> ProgressUpTo(before, PassPrefix(gates, in_circ, before, i), i)
      modifies ports[i]
      ensures Configured(gates) && Holds(PassPrefix(gates, in_circ, before, i + 1))
      ensures tudo_def' <==> DefinedUpTo(PassPrefix(gates, in_circ, before, i + 1), i + 1)
      ensures alguma_def' <==> ProgressUpTo(before, PassPrefix(gates, in_circ, before, i + 1), i + 1)
    {
      ghost var cur := PassPrefix(gates, in_circ, before, i);
      PassPrefixStep(gates, in_circ, before, i, cur);
      tudo_def', alguma_def' := tudo_def, alguma_def;
      if ports[i].GetOutput() == UNDEF {
        var in_port := GatherInputs(i, in_circ, gates, cur);
        ports[i].Simulate(in_port);
        if ports[i].GetOutput() == UNDEF {
          tudo_def' := false;
        } else {
          alguma_def' := true;
        }
      }
    }

    /**
     * One pass of simular's do-while: the cached outputs become Pass of the
     * old ones (the pass over all gates); tudo_def says every output is now
     * defined and alguma_def that the pass defined some output.
     */
    method RunPass(in_circ: seq<Bool3S>, ghost gates: seq<Gate>, ghost before: seq<Bool3S>)
      returns (tudo_def: bool, alguma_def: bool)
      requires Configured(gates) && Wired(gates, |in_circ|) && Holds(before)
      modifies ports
      ensures Configured(gates) && Holds(PassPrefix(gates, in_circ, before, |gates|))
      ensures tudo_def <==> DefinedUpTo(PassPrefix(gates, in_circ, before, |gates|), |gates|)
      ensures alguma_def <==> ProgressUpTo(before, PassPrefix(gates, in_circ, before, |gates|), |gates|)
    {
      tudo_def := true;
      alguma_def := false;
      var i := 0;
      while i < Nportas
        invariant 0 <= i <= Nportas == |ports| == |gates|
        invariant Configured(gates) && Holds(PassPrefix(gates, in_circ, before, i))
        invariant tudo_def <==> DefinedUpTo(PassPrefix(gates, in_circ, before, i), i)
        invariant alguma_def <==> ProgressUpTo(before, PassPrefix(gates, in_circ, before, i), i)
      {
        tudo_def, alguma_def := VisitGate(i, in_circ, gates, before, tudo_def, alguma_def);
        i := i + 1;
      }
    }

    /** A configured circuit's network is the configuration. */
    lemma ConfiguredNet(gates: seq<Gate>)
      requires Configured(gates)
      ensures Net() == gates
    {
    }

    /** The cached outputs of a circuit are the vector they hold. */
    lemma HoldsOuts(outs: seq<Bool3S>)
      requires AllAllocated() && Holds(outs)
      ensures Outs() == outs
    {
    }

    /** The counts are nonzero and every output names an existing source. */
    ghost predicate OutputsWired()
      reads this
    {
      Nin > 0 && 0 < |id_out| < 0x8000_0000 && 0 < |ports| < 0x8000_0000 &&
      forall i :: 0 <= i < |id_out| ==> IsSource(id_out[i], InputIds(Nin), |ports|)
    }

    /** Validity depends only on the counts, the output sources and the gate configuration. */
    lemma ConfiguredValid(gates: seq<Gate>)
      requires Configured(gates) && Wired(gates, InputIds(Nin)) && OutputsWired()
      ensures Consistent() && Valid()
    {
      ValidIff();
    }

    /** The reset loop of simular: every cached output becomes UNDEF. */
    method ResetOutputs(ghost gates: seq<Gate>)
      requires Configured(gates)
      modifies ports
      ensures Configured(gates) && Holds(Undefs(|ports|))
    {
      var i := 0;
      while i < Nportas
        invariant 0 <= i <= |ports|
        invariant Configured(gates)
        invariant forall k :: 0 <= k < i ==> ports[k].out == UNDEF
      {
        ports[i].SetOutput(UNDEF);
        i := i + 1;
      }
    }

    /**
     * The do-while of simular, from all outputs UNDEF: passes run until every
     * gate is defined or a pass defines none; the outputs end as Fix of the
     * all-UNDEF vector, after Passes passes.
     */
    method Propagate(in_circ: seq<Bool3S>, ghost gates: seq<Gate>) returns (ghost passes: nat)
      requires Configured(gates) && Wired(gates, |in_circ|) && Holds(Undefs(|gates|))
      modifies ports
      ensures Configured(gates)
      ensures Holds(Fix(gates, in_circ, Undefs(|gates|)))
      ensures passes == Passes(gates, in_circ, Undefs(|gates|))
    {
      ghost var start := Undefs(|gates|);
      ghost var cur := start;
      passes := 0;
      while true
        invariant Configured(gates) && Holds(cur)
        invariant Fix(gates, in_circ, cur) == Fix(gates, in_circ, start)
        invariant passes + Passes(gates, in_circ, cur) == Passes(gates, in_circ, start)
        decreases CountUndef(cur)
      {
        var tudo_def, alguma_def := RunPass(in_circ, gates, cur);
        ghost var before := cur;
        cur := Pass(gates, in_circ, before);
        PassFlags(gates, in_circ, before);
        CountUndefShrinks(before, cur);
        FixUnfold(gates, in_circ, before);
        passes := passes + 1;
        if tudo_def || !alguma_def {
          break;
        }
      }
    }

    /**
     * simular: every gate output is reset to UNDEF; then passes run over the
     * gates in index order, each re-evaluating only the gates still UNDEF
     * from the current outputs (later gates see earlier gates' new values),
     * until every gate is defined or a pass defines none. The final outputs
     * are Fix of the all-UNDEF vector; the gate configurations do not change.
     * The ghost result counts the passes.
     */
    method Simulate(in_circ: seq<Bool3S>) returns (ghost passes: nat)
      requires Consistent() && Valid() && |in_circ| == Nin
      modifies ports
      ensures Consistent() && Valid()
      ensures AllAllocated() && Net() == old(Net())
      ensures Wired(Net(), |in_circ|)
      ensures Outs() == Fix(Net(), in_circ, Undefs(|ports|))
      ensures passes == Passes(Net(), in_circ, Undefs(|ports|))
    {
      ValidWires();
      ValidIff();
      ghost var gates := Net();
      assert Configured(gates) && OutputsWired();

      ResetOutputs(gates);

      passes := Propagate(in_circ, gates);

      ConfiguredNet(gates);
      HoldsOuts(Fix(gates, in_circ, Undefs(|gates|)));
      ConfiguredValid(gates);
    }
  }
}
