/**
 The instruction latch: src/app_main.c and src/apdu/dispatcher.c. One union is shared by every
 handler; it belongs to the instruction that claimed it until that instruction is released.
 */
module Latch {
  import opened Bytes
  import opened Options

  const CLA := 0xE0
  const INS_INIT_CONTRACT: uint8 := 0x07
  const INS_UPDATE_CONTRACT: uint8 := 0x08
  const INS_GET_APP_NAME: uint8 := 0x21
  const INS_SET_TRUSTED_NAME: uint8 := 0x22
  const INS_GET_CHALLENGE: uint8 := 0x23
  const INS_SIGN_PLT: uint8 := 0x27
  const INS_APP_VERSION: uint8 := 0x40

  /** Instructions that carry data: the dispatcher refuses them without any. */
  const DATA_INSTRUCTIONS: set<uint8> :=
    {0x00, 0x01, 0x02, 0x03, 0x04, 0x05, 0x06, 0x07, 0x08, 0x12, 0x17, 0x18, 0x20, 0x31, 0x32, 0x34, 0x35, 0x37}

  /** Instructions that carry nothing. */
  const PLAIN_INSTRUCTIONS: set<uint8> := {INS_GET_APP_NAME, INS_GET_CHALLENGE, INS_APP_VERSION}

  /** Command data; none at all reaches the application as a null pointer. */
  type CommandData = s: seq<byte> | |s| <= UINT8_MAX

  datatype Command = Command(cla: uint8, ins: uint8, p1: uint8, p2: uint8, data: CommandData)

  /** What the dispatcher does with a command before any handler sees it. */
  datatype Admission = Admitted | RefusedOpen | UnknownInstruction

  /** RefusedOpen is answered, but leaves the flow open. */
  function Admit(c: Command): Admission {
    if c.ins in DATA_INSTRUCTIONS then if c.data == [] then RefusedOpen else Admitted
    else if c.ins in PLAIN_INSTRUCTIONS then
      if c.data != [] || c.p1 != 0 || c.p2 != 0 then RefusedOpen else Admitted
    else if c.ins == INS_SIGN_PLT then if c.data == [] && c.p1 != 1 then RefusedOpen else Admitted
    else if c.ins == INS_SET_TRUSTED_NAME then Admitted
    else UnknownInstruction
  }

  /**
   How a handler or an approval callback leaves the union `u` and the other globals `g`: the flow
   goes on, with a review up or not; or it is released; or a status word was thrown.
   */
  datatype Handled<U, G> = Stay(u: U, g: G, up: bool) | Release(u: U, g: G) | Thrown(g: G)

  /** The handlers, each a function of the union and the globals it finds; `zero` is the wiped union. */
  datatype Handlers<!U, !G> = Handlers(
    zero: U,
    packet: (uint8, bool, U, G, Command) -> Handled<U, G>,
    approve: (uint8, U, G) -> Handled<U, G>)

  /** What a flow has been given since it claimed the union. */
  datatype Input = Got(first: bool, c: Command) | Approved

  /** currentInstruction, the union, the other globals and whether a review is up; beside them, the flow so far. */
  datatype App<U, G> = App(latch: Option<uint8>, u: U, g: G, up: bool, claimed: G, inputs: seq<Input>)

  /** The user rejects a review, or returns to the main screen, at any moment the screen allows. */
  datatype Event = Apdu(c: Command) | Malformed | Approve | Reject | MainScreen

  /** No command is delivered while a review is up, and only then can the user answer one. */
  predicate Possible<U, G>(a: App<U, G>, e: Event) {
    match e
    case Apdu(_) => !a.up
    case Malformed => !a.up
    case Approve => a.up && a.latch.Some?
    case Reject => a.up
    case MainScreen => !a.up
  }

  function Settle<U, G>(a: App<U, G>, r: Handled<U, G>, zero: U): App<U, G> {
    match r
    case Stay(u, g, up) => a.(u := u, g := g, up := up)
    case Release(u, g) => a.(latch := None, u := u, g := g, up := false)
    case Thrown(g) => a.(latch := None, u := zero, g := g, up := false)
  }

  /** An idle application lets the command's instruction claim the union, wiped. */
  function Claim<U, G>(h: Handlers<U, G>, a: App<U, G>, ins: uint8): App<U, G> {
    if a.latch.None? then a.(latch := Some(ins), u := h.zero, claimed := a.g, inputs := []) else a
  }

  /** app_main's loop body, dispatch_guarded and apdu_dispatcher. */
  function Receive<U, G>(h: Handlers<U, G>, a: App<U, G>, c: Command): App<U, G> {
    if c.cla != CLA then a
    else
      var b := Claim(h, a, c.ins);
      if b.latch != Some(c.ins) then b.(latch := None)
      else
        match Admit(c)
        case RefusedOpen => b
        case UnknownInstruction => b.(latch := None)
        case Admitted =>
          Settle(b.(inputs := b.inputs + [Got(a.latch.None?, c)]), h.packet(c.ins, a.latch.None?, b.u, b.g, c), h.zero)
  }

  function Step<U, G>(h: Handlers<U, G>, a: App<U, G>, e: Event): App<U, G>
    requires Possible(a, e)
  {
    match e
    case Apdu(c) => Receive(h, a, c)
    case Malformed => a
    case Approve => Settle(a.(inputs := a.inputs + [Approved]), h.approve(a.latch.value, a.u, a.g), h.zero)
    case Reject => a.(latch := None, up := false)
    case MainScreen => a.(latch := None)
  }

  /**
   The flow on its own: the union, the globals and whether a review is up after the same inputs. A
   command comes only while no review is up, an approval only while one is.
   */
  function Alone<U, G>(h: Handlers<U, G>, ins: uint8, g: G, inputs: seq<Input>): Option<(U, G, bool)> {
    if inputs == [] then Some((h.zero, g, false))
    else
      match Alone(h, ins, g, inputs[..|inputs| - 1])
      case None => None
      case Some(s) =>
        var i := inputs[|inputs| - 1];
        var r := Feed(h, ins, s.0, s.1, i);
        if i.Approved? == s.2 && r.Stay? then Some((r.u, r.g, r.up)) else None
  }

  function Feed<U, G>(h: Handlers<U, G>, ins: uint8, u: U, g: G, i: Input): Handled<U, G> {
    match i
    case Got(first, c) => h.packet(ins, first, u, g, c)
    case Approved => h.approve(ins, u, g)
  }

  /** Everything the open flow was given was meant for it, and only its first command can be an initial call. */
  predicate Owned(ins: uint8, inputs: seq<Input>) {
    forall i :: 0 <= i < |inputs| && inputs[i].Got? ==>
      && inputs[i].c.cla == CLA && inputs[i].c.ins == ins && Admit(inputs[i].c) == Admitted
      && (inputs[i].first ==> i == 0)
  }

  /** While an instruction holds the latch, the union is what that instruction alone made of its own inputs. */
  predicate Isolated<U(==), G(==)>(h: Handlers<U, G>, a: App<U, G>) {
    && (a.up ==> a.latch.Some?)
    && (a.latch.Some? ==>
          && Owned(a.latch.value, a.inputs)
          && Alone(h, a.latch.value, a.claimed, a.inputs) == Some((a.u, a.g, a.up))
          && (a.inputs != [] ==> a.inputs[0].Got?) && (a.up ==> a.inputs != []))
  }

  lemma AloneGrows<U, G>(h: Handlers<U, G>, ins: uint8, g: G, inputs: seq<Input>, i: Input)
    requires Alone(h, ins, g, inputs).Some?
    ensures var s := Alone(h, ins, g, inputs).value;
      var r := Feed(h, ins, s.0, s.1, i);
      r.Stay? && i.Approved? == s.2 ==> Alone(h, ins, g, inputs + [i]) == Some((r.u, r.g, r.up))
  {
    assert (inputs + [i])[..|inputs|] == inputs;
  }

  lemma OwnedGrows(ins: uint8, inputs: seq<Input>, i: Input)
    requires Owned(ins, inputs)
    requires i.Got? ==> i.c.cla == CLA && i.c.ins == ins && Admit(i.c) == Admitted && (i.first ==> inputs == [])
    ensures Owned(ins, inputs + [i])
  {
  }

  /** Every command, answer and return to the main screen keeps the flow isolated. */
  lemma StepKeepsIsolation<U, G>(h: Handlers<U, G>, a: App<U, G>, e: Event)
    requires Isolated(h, a) && Possible(a, e)
    ensures Isolated(h, Step(h, a, e))
  {
    hide Admit, Owned;
    match e
    case Apdu(c) =>
      var b := Claim(h, a, c.ins);
      assert a.latch.None? ==> Owned(c.ins, []) by { NothingOwned(c.ins); }
      if c.cla == CLA && b.latch == Some(c.ins) && Admit(c) == Admitted {
        AloneGrows(h, c.ins, b.claimed, b.inputs, Got(a.latch.None?, c));
        OwnedGrows(c.ins, b.inputs, Got(a.latch.None?, c));
      }
    case Approve =>
      AloneGrows(h, a.latch.value, a.claimed, a.inputs, Approved);
      OwnedGrows(a.latch.value, a.inputs, Approved);
    case _ =>
  }

  lemma NothingOwned(ins: uint8)
    ensures Owned(ins, [])
  {
  }

  /** At power-up, or back at the main screen: the union and the globals may hold anything. */
  predicate Idle<U, G>(a: App<U, G>) {
    a.latch.None? && !a.up
  }

  /** Where the events lead, if all of them can happen. */
  function Run<U, G>(h: Handlers<U, G>, a: App<U, G>, events: seq<Event>): Option<App<U, G>>
    decreases |events|
  {
    if events == [] then Some(a)
    else
      match Run(h, a, events[..|events| - 1])
      case None => None
      case Some(b) => if Possible(b, events[|events| - 1]) then Some(Step(h, b, events[|events| - 1])) else None
  }

  /** Over any run of the application, an open flow is isolated. */
  lemma {:induction false} RunsAreIsolated<U, G>(h: Handlers<U, G>, a: App<U, G>, events: seq<Event>)
    requires Idle(a)
    ensures Run(h, a, events).Some? ==> Isolated(h, Run(h, a, events).value)
    decreases |events|
  {
    hide Isolated, Step;
    if events == [] {
      IdleIsIsolated(h, a);
    } else {
      RunsAreIsolated(h, a, events[..|events| - 1]);
      var before := Run(h, a, events[..|events| - 1]);
      if before.Some? && Possible(before.value, events[|events| - 1]) {
        StepKeepsIsolation(h, before.value, events[|events| - 1]);
      }
    }
  }

  lemma IdleIsIsolated<U, G>(h: Handlers<U, G>, a: App<U, G>)
    requires Idle(a)
    ensures Isolated(h, a)
  {
  }

  // ---- What becomes of a command ----

  /**
   Commands that are passed on to a handler: the eighteen instructions that carry data, with some;
   three that carry nothing and have no parameters; token operations, with data or a continuation; and
   the trusted name.
   */
  predicate Served(c: Command) {
    || (c.ins in {0x00, 0x01, 0x02, 0x03, 0x04, 0x05, 0x06, 0x07, 0x08, 0x12, 0x17, 0x18, 0x20, 0x31, 0x32, 0x34, 0x35, 0x37}
        && c.data != [])
    || (c.ins in {0x21, 0x23, 0x40} && c.data == [] && c.p1 == 0 && c.p2 == 0)
    || (c.ins == 0x27 && (c.data != [] || c.p1 == 1)) || c.ins == 0x22
  }

  /** The state of the application is this, up to the record of the flow. */
  predicate Holds<U(==), G(==)>(a: App<U, G>, latch: Option<uint8>, u: U, g: G, up: bool) {
    a.latch == latch && a.u == u && a.g == g && a.up == up
  }

  /**
   With no flow open, or with that of its own instruction, a command of class 0xE0 that is to be
   served reaches its handler: as an initial call on a wiped union in the first case, and as a
   continuation on the union as it is in the second. A throw wipes the union and ends the flow.
   */
  lemma CommandsAreServed<U, G>(h: Handlers<U, G>, a: App<U, G>, c: Command)
    requires !a.up && c.cla == 0xE0 && (a.latch.None? || a.latch == Some(c.ins)) && Served(c)
    ensures var b := Step(h, a, Apdu(c));
      match h.packet(c.ins, a.latch.None?, if a.latch.None? then h.zero else a.u, a.g, c)
      case Stay(u, g, up) => Holds(b, Some(c.ins), u, g, up)
      case Release(u, g) => Holds(b, None, u, g, false)
      case Thrown(g) => Holds(b, None, h.zero, g, false)
  {
  }

  /**
   A command that is not served calls no handler: one of another class changes nothing, an unknown
   instruction leaves no flow open, and a malformed one leaves its own.
   */
  lemma OthersAreNotServed<U, G>(h: Handlers<U, G>, a: App<U, G>, c: Command)
    requires !a.up && (c.cla == 0xE0 ==> (a.latch.None? || a.latch == Some(c.ins)) && !Served(c))
    ensures var b := Step(h, a, Apdu(c));
      && (c.cla != 0xE0 ==> b == a)
      && (c.cla == 0xE0 ==>
            Holds(b,
                  if c.ins in {0x00, 0x01, 0x02, 0x03, 0x04, 0x05, 0x06, 0x07, 0x08, 0x12, 0x17, 0x18, 0x20, 0x21, 0x22, 0x23, 0x27,
                               0x31, 0x32, 0x34, 0x35, 0x37, 0x40}
                  then Some(c.ins) else None,
                  if a.latch.None? then h.zero else a.u, a.g, false))
  {
  }

  /** An approval goes to the open flow's callback; a rejection, or the main screen, leaves no flow open. */
  lemma AnswersAreTaken<U, G>(h: Handlers<U, G>, a: App<U, G>)
    ensures a.up && a.latch.Some? ==>
              match h.approve(a.latch.value, a.u, a.g)
              case Stay(u, g, up) => Holds(Step(h, a, Approve), a.latch, u, g, up)
              case Release(u, g) => Holds(Step(h, a, Approve), None, u, g, false)
              case Thrown(g) => Holds(Step(h, a, Approve), None, h.zero, g, false)
    ensures a.up ==> Holds(Step(h, a, Reject), None, a.u, a.g, false)
    ensures !a.up ==> Holds(Step(h, a, MainScreen), None, a.u, a.g, false) && Step(h, a, Malformed) == a
  {
  }

  /**
   In any run, a command of another instruction ends the open flow and calls no handler; the next
   command is then an initial call on a wiped union, whatever the instruction.
   */
  lemma SwitchEndsTheFlow<U, G>(h: Handlers<U, G>, start: App<U, G>, events: seq<Event>, c: Command, d: Command)
    requires Run(h, start, events).Some?
    requires var a := Run(h, start, events).value; a.latch.Some? && !a.up && c.cla == 0xE0 && Some(c.ins) != a.latch
    ensures var a, b := Run(h, start, events).value, Run(h, start, events + [Apdu(c)]);
      && b.Some? && Holds(b.value, None, a.u, a.g, false)
      && (d.cla == 0xE0 && Served(d) ==>
            var e := Run(h, start, events + [Apdu(c)] + [Apdu(d)]);
            && e.Some?
            && match h.packet(d.ins, true, h.zero, a.g, d)
               case Stay(u, g, up) => Holds(e.value, Some(d.ins), u, g, up)
               case Release(u, g) => Holds(e.value, None, u, g, false)
               case Thrown(g) => Holds(e.value, None, h.zero, g, false))
  {
    hide Served, Holds;
    RunGrows(h, start, events, Apdu(c));
    RunGrows(h, start, events + [Apdu(c)], Apdu(d));
    var a, b := Run(h, start, events).value, Run(h, start, events + [Apdu(c)]).value;
    assert Holds(b, None, a.u, a.g, false) by { SwitchReleases(h, a, c); }
    assert b.latch.None? && b.g == a.g && !b.up by { HeldBy(b, None, a.u, a.g, false); }
    if d.cla == 0xE0 && Served(d) {
      CommandsAreServed(h, b, d);
    }
  }

  lemma SwitchReleases<U, G>(h: Handlers<U, G>, a: App<U, G>, c: Command)
    requires a.latch.Some? && !a.up && c.cla == 0xE0 && Some(c.ins) != a.latch
    ensures Holds(Step(h, a, Apdu(c)), None, a.u, a.g, false)
  {
  }

  lemma HeldBy<U, G>(a: App<U, G>, latch: Option<uint8>, u: U, g: G, up: bool)
    requires Holds(a, latch, u, g, up)
    ensures a.latch == latch && a.u == u && a.g == g && a.up == up
  {
  }

  lemma RunGrows<U, G>(h: Handlers<U, G>, a: App<U, G>, events: seq<Event>, e: Event)
    ensures Run(h, a, events + [e])
         == match Run(h, a, events)
            case None => None
            case Some(b) => if Possible(b, e) then Some(Step(h, b, e)) else None
  {
    assert (events + [e])[..|events|] == events;
  }

  // ---- The globals are never zeroed ----

  /** A command that the dispatcher passes on to the handler of an instruction. */
  predicate Delivers(ins: uint8, c: Command) {
    c.cla == CLA && c.ins == ins && Admit(c) == Admitted
  }

  /**
   A handler that, given the wiped union, either ends the flow or leaves a state that does not
   depend on what earlier flows left in the globals.
   */
  ghost predicate StartsAfresh<U, G(!new)>(h: Handlers<U, G>, ins: uint8) {
    forall first: bool, g: G, k: G, c: Command ::
      Delivers(ins, c) ==>
        var r, s := h.packet(ins, first, h.zero, g, c), h.packet(ins, first, h.zero, k, c);
        r.Stay? || s.Stay? ==> r == s
  }

  /**
   The hash and the path an open flow of such a handler works with are its own: the same inputs
   produce them whatever the globals held when it claimed the union.
   */
  lemma {:induction false} GlobalsAreOwn<U, G(!new)>(h: Handlers<U, G>, ins: uint8, g: G, k: G, inputs: seq<Input>)
    requires StartsAfresh(h, ins) && inputs != [] && Owned(ins, inputs) && Alone(h, ins, g, inputs).Some?
    ensures Alone(h, ins, k, inputs) == Alone(h, ins, g, inputs)
    decreases |inputs|
  {
    var n := |inputs| - 1;
    if n == 0 {
      var i := inputs[0];
      assert inputs[..0] == [];
      assert i.Got? && Delivers(ins, i.c);
      var r, s := h.packet(ins, i.first, h.zero, g, i.c), h.packet(ins, i.first, h.zero, k, i.c);
      assert r.Stay? ==> r == s;
    } else {
      GlobalsAreOwn(h, ins, g, k, inputs[..n]);
    }
  }

  /** What a signature of an open flow rests on is what its own inputs make of any globals at all. */
  lemma SigningStateIsOwn<U, G(!new)>(h: Handlers<U, G>, start: App<U, G>, events: seq<Event>, k: G)
    requires Idle(start) && Run(h, start, events).Some? && Run(h, start, events).value.up
    requires Run(h, start, events).value.latch.Some? && StartsAfresh(h, Run(h, start, events).value.latch.value)
    ensures var a := Run(h, start, events).value;
      Owned(a.latch.value, a.inputs) && Alone(h, a.latch.value, k, a.inputs) == Some((a.u, a.g, a.up))
  {
    hide Run, Owned, StartsAfresh;
    RunsAreIsolated(h, start, events);
    var a := Run(h, start, events).value;
    GlobalsAreOwn(h, a.latch.value, a.claimed, k, a.inputs);
  }

  /** currentInstruction, `global` and the other globals, as app_main's loop updates them. */
  class Application<U, G> {
    const handlers: Handlers<U, G>
    var currentInstruction: Option<uint8>
    var union: U
    var globals: G
    var reviewUp: bool
    ghost var claimed: G
    ghost var inputs: seq<Input>

    ghost function Value(): App<U, G>
      reads this
    {
      App(currentInstruction, union, globals, reviewUp, claimed, inputs)
    }

    constructor (handlers: Handlers<U, G>, globals: G)
      ensures Idle(Value()) && this.handlers == handlers
    {
      this.handlers, this.globals := handlers, globals;
      currentInstruction, union, reviewUp, claimed, inputs := None, handlers.zero, false, globals, [];
    }

    /** One command of the loop: claim and wipe, or continue. */
    method Receive(c: Command)
      requires !reviewUp
      modifies this
      ensures Value() == Step(handlers, old(Value()), Apdu(c))
      ensures c.cla != 0xE0 ==> Value() == old(Value())
      ensures c.cla == 0xE0 && old(currentInstruction) in {None, Some(c.ins)} && Served(c) ==>
                match handlers.packet(c.ins, old(currentInstruction).None?,
                                      if old(currentInstruction).None? then handlers.zero else old(union), old(globals), c)
                case Stay(u, g, up) => Holds(Value(), Some(c.ins), u, g, up)
                case Release(u, g) => Holds(Value(), None, u, g, false)
                case Thrown(g) => Holds(Value(), None, handlers.zero, g, false)
      ensures c.cla == 0xE0 && old(currentInstruction) !in {None, Some(c.ins)} ==>
                Holds(Value(), None, old(union), old(globals), false)
    {
      if c.cla == 0xE0 && currentInstruction in {None, Some(c.ins)} && Served(c) {
        CommandsAreServed(handlers, Value(), c);
      }
      if c.cla != CLA {
        return;
      }
      var isInitialCall := false;
      if currentInstruction == None {
        union := handlers.zero;
        currentInstruction := Some(c.ins);
        isInitialCall := true;
        claimed, inputs := globals, [];
      }
      DispatchGuarded(c, isInitialCall);
    }

    /** dispatch_guarded around apdu_dispatcher: a throw wipes the union and releases the latch. */
    method DispatchGuarded(c: Command, isInitialCall: bool)
      requires currentInstruction.Some?
      modifies this
      ensures Value() ==
              if old(currentInstruction) != Some(c.ins) then old(Value()).(latch := None)
              else
                match Admit(c)
                case RefusedOpen => old(Value())
                case UnknownInstruction => old(Value()).(latch := None)
                case Admitted =>
                  Settle(old(Value()).(inputs := old(inputs) + [Got(isInitialCall, c)]),
                         handlers.packet(c.ins, isInitialCall, old(union), old(globals), c), handlers.zero)
      ensures old(currentInstruction) == Some(c.ins) && Served(c) ==>
                match handlers.packet(c.ins, isInitialCall, old(union), old(globals), c)
                case Stay(u, g, up) => Holds(Value(), Some(c.ins), u, g, up)
                case Release(u, g) => Holds(Value(), None, u, g, false)
                case Thrown(g) => Holds(Value(), None, handlers.zero, g, false)
    {
      if currentInstruction != Some(c.ins) {
        currentInstruction := None;
        return;
      }
      match Admit(c) {
        case RefusedOpen =>
        case UnknownInstruction => currentInstruction := None;
        case Admitted =>
          inputs := inputs + [Got(isInitialCall, c)];
          Finish(handlers.packet(c.ins, isInitialCall, union, globals, c));
      }
    }

    method Finish(r: Handled<U, G>)
      modifies this
      ensures Value() == Settle(old(Value()), r, handlers.zero)
    {
      match r {
        case Stay(u, g, up) => union, globals, reviewUp := u, g, up;
        case Release(u, g) => currentInstruction, union, globals, reviewUp := None, u, g, false;
        case Thrown(g) => currentInstruction, union, globals, reviewUp := None, handlers.zero, g, false;
      }
    }

    /** ux_run_guarded around the callback of an accepted review. */
    method RunGuarded()
      requires reviewUp && currentInstruction.Some?
      modifies this
      ensures Value() == Step(handlers, old(Value()), Approve)
    {
      inputs := inputs + [Approved];
      Finish(handlers.approve(currentInstruction.value, union, globals));
    }

    /** rejectStagedReview, or a rejection that returns to the main screen. */
    method RejectReview()
      requires reviewUp
      modifies this
      ensures Value() == Step(handlers, old(Value()), Reject)
    {
      currentInstruction, reviewUp := None, false;
    }

    /** ui_menu_main */
    method MenuMain()
      requires !reviewUp
      modifies this
      ensures Value() == Step(handlers, old(Value()), MainScreen)
    {
      currentInstruction := None;
    }
  }
}
