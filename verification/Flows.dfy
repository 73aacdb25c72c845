/**
 Flows inside the application. A machine says what one instruction does to a state of its own; a
 handler refines it when the union holds that state and the globals hold what the machine says.
 */
module Flows {
  import opened Bytes
  import opened Latch
  import opened Options

  /**
   `zero` is the state of the wiped union. In a state it `owns` the globals are `globals(s)`; in any
   other, whatever earlier flows left. `up` says that a review waits; a packet comes only while none
   does, an approval only while one does. `sane` is the invariant of the machine.
   */
  datatype Machine<!S, !G> = Machine(
    zero: S,
    sane: S -> bool,
    up: S -> bool,
    owns: S -> bool,
    globals: S -> G,
    packet: (bool, S, Command) -> Handled<S, G>,
    approve: S -> Handled<S, G>)

  /** The same outcome; a flow that ends may leave anything in the globals. */
  predicate Mirrors<U(==), S, G(==)>(r: Handled<U, G>, t: Handled<S, G>, inject: S -> U) {
    match t
    case Stay(s, g, up) => r == Stay(inject(s), g, up)
    case Release(_, _) => r.Release?
    case Thrown(_) => r.Thrown?
  }

  /** Globals that the machine's state, if it owns them, agrees with. */
  predicate Agrees<S, G(==)>(m: Machine<S, G>, s: S, g: G) {
    m.owns(s) ==> g == m.globals(s)
  }

  /** The handler of an instruction does what the machine does, reading no globals that are not the flow's own. */
  ghost predicate Refines<U, S(!new), G(!new)>(h: Handlers<U, G>, ins: uint8, m: Machine<S, G>, inject: S -> U) {
    && h.zero == inject(m.zero)
    && (forall first: bool, s: S, g: G, c: Command ::
          m.sane(s) && !m.up(s) && (first ==> s == m.zero) && Agrees(m, s, g) && Delivers(ins, c) ==>
            Mirrors(h.packet(ins, first, inject(s), g, c), m.packet(first, s, c), inject))
    && (forall s: S, g: G :: m.sane(s) && m.up(s) && Agrees(m, s, g) ==>
          Mirrors(h.approve(ins, inject(s), g), m.approve(s), inject))
  }

  /** The machine keeps its invariant, hands over the globals it claims, and owns none when wiped. */
  ghost predicate Sound<S(!new), G>(m: Machine<S, G>) {
    && m.sane(m.zero) && !m.owns(m.zero) && !m.up(m.zero)
    && (forall first: bool, s: S, c: Command :: m.sane(s) && !m.up(s) && (first ==> s == m.zero) ==>
          Lands(m, m.packet(first, s, c)))
    && (forall s: S :: m.sane(s) && m.up(s) ==> Lands(m, m.approve(s)))
  }

  predicate Lands<S, G(==)>(m: Machine<S, G>, r: Handled<S, G>) {
    r.Stay? ==> m.sane(r.u) && Agrees(m, r.u, r.g) && r.up == m.up(r.u)
  }

  /** Where the machine alone is after some inputs, and with what globals and screen. */
  datatype Place<S, G> = Place(s: S, g: Option<G>, up: bool)

  function Track<S, G>(m: Machine<S, G>, inputs: seq<Input>): Option<Place<S, G>> {
    if inputs == [] then Some(Place(m.zero, None, false))
    else
      match Track(m, inputs[..|inputs| - 1])
      case None => None
      case Some(p) =>
        var i := inputs[|inputs| - 1];
        var r := Move(m, p.s, i);
        if i.Approved? == p.up && r.Stay? then Some(Place(r.u, Some(r.g), r.up)) else None
  }

  function Move<S, G>(m: Machine<S, G>, s: S, i: Input): Handled<S, G> {
    match i
    case Got(first, c) => m.packet(first, s, c)
    case Approved => m.approve(s)
  }

  /** Only the first input can be an initial call. */
  predicate FirstOnce(inputs: seq<Input>) {
    forall i :: 0 <= i < |inputs| && inputs[i].Got? && inputs[i].first ==> i == 0
  }

  lemma {:induction false} TrackIsSound<S(!new), G>(m: Machine<S, G>, inputs: seq<Input>)
    requires Sound(m) && FirstOnce(inputs)
    ensures var p := Track(m, inputs);
      p.Some? ==>
        && m.sane(p.value.s) && p.value.up == m.up(p.value.s)
        && (p.value.g.Some? ==> Agrees(m, p.value.s, p.value.g.value))
    ensures inputs != [] && Track(m, inputs).Some? ==> Track(m, inputs).value.g.Some?
    ensures inputs == [] ==> Track(m, inputs) == Some(Place(m.zero, None, false))
    decreases |inputs|
  {
    if inputs != [] {
      TrackIsSound(m, inputs[..|inputs| - 1]);
      var p := Track(m, inputs[..|inputs| - 1]);
      if p.Some? && inputs[|inputs| - 1].Approved? == p.value.up {
        assert Lands(m, Move(m, p.value.s, inputs[|inputs| - 1]));
      }
    }
  }

  /** An open flow of a handler that refines a machine is where the machine alone would be. */
  lemma {:induction false} OpenFlowIsTracked<U, S(!new), G(!new)>(h: Handlers<U, G>, ins: uint8, m: Machine<S, G>, inject: S -> U,
                                                                  g: G, inputs: seq<Input>)
    requires Refines(h, ins, m, inject) && Sound(m) && Owned(ins, inputs) && Alone(h, ins, g, inputs).Some?
    ensures var p, a := Track(m, inputs), Alone(h, ins, g, inputs).value;
      && p.Some? && a.0 == inject(p.value.s) && a.2 == p.value.up
      && (inputs != [] ==> p.value.g == Some(a.1))
    decreases |inputs|
  {
    assert FirstOnce(inputs);
    TrackIsSound(m, inputs);
    if inputs != [] {
      var n := |inputs| - 1;
      var i := inputs[n];
      OpenFlowIsTracked(h, ins, m, inject, g, inputs[..n]);
      TrackIsSound(m, inputs[..n]);
      var p, a := Track(m, inputs[..n]).value, Alone(h, ins, g, inputs[..n]).value;
      assert Agrees(m, p.s, a.1);
      match i
      case Got(first, c) =>
        assert Delivers(ins, c);
        assert Mirrors(h.packet(ins, first, inject(p.s), a.1, c), m.packet(first, p.s, c), inject);
      case Approved =>
        assert Mirrors(h.approve(ins, inject(p.s), a.1), m.approve(p.s), inject);
    }
  }

  /** Its first accepted step reads no globals, so what an approval signs with is the flow's own. */
  lemma RefiningStartsAfresh<U, S(!new), G(!new)>(h: Handlers<U, G>, ins: uint8, m: Machine<S, G>, inject: S -> U)
    requires Refines(h, ins, m, inject) && Sound(m)
    ensures StartsAfresh(h, ins)
  {
    forall first: bool, g: G, k: G, c: Command | Delivers(ins, c)
      ensures var r, s := h.packet(ins, first, h.zero, g, c), h.packet(ins, first, h.zero, k, c);
        r.Stay? || s.Stay? ==> r == s
    {
      assert Agrees(m, m.zero, g) && Agrees(m, m.zero, k);
      assert Mirrors(h.packet(ins, first, inject(m.zero), g, c), m.packet(first, m.zero, c), inject);
      assert Mirrors(h.packet(ins, first, inject(m.zero), k, c), m.packet(first, m.zero, c), inject);
    }
  }
}
