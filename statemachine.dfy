/**
 * The retrying state machine every managed entity (swarm, cluster, agent)
 * is built on. The handler table is ordered; each handler is called with
 * the recommended next state (the following key) and returns the real next
 * state. A handler that raises counts as returning the current state. A
 * step that does not move the state bumps the backoff counter, a step that
 * moves it resets the counter.
 *
 * Handlers talk to the outside world, so the model takes their answers as
 * input: a `Responses` value says how the handler registered under a name
 * answers a given advisory state on one invocation.
 */
module StateMachine {
  import opened Wrappers

  /** What a handler did: returned a state (possibly Python `None`) or raised. */
  datatype Outcome = Returned(next: Option<string>) | Raised

  /** How each named handler answers its advisory argument on one invocation. */
  type Responses = (string, Option<string>) -> Outcome

  /** Position of the first key equal to `s`, or `|keys|` when there is none. */
  function IndexOf(keys: seq<string>, s: Option<string>): (i: nat)
    ensures i <= |keys|
    ensures i < |keys| ==> Some(keys[i]) == s
    ensures forall j :: 0 <= j < i ==> Some(keys[j]) != s
  {
    if keys == [] || Some(keys[0]) == s then 0 else 1 + IndexOf(keys[1..], s)
  }

  /** The recommended next state: the key after the current one, if any. */
  function NextState(keys: seq<string>, s: Option<string>): Option<string>
  {
    var i := IndexOf(keys, s);
    if i + 1 < |keys| then Some(keys[i + 1]) else None
  }

  ghost predicate Distinct(keys: seq<string>)
  {
    forall i, j :: 0 <= i < j < |keys| ==> keys[i] != keys[j]
  }

  /** In a table with distinct keys the key at `i` recommends the key at `i + 1`, the last key nothing. */
  lemma NextStateOfKey(keys: seq<string>, i: nat)
    requires Distinct(keys) && i < |keys|
    ensures i + 1 < |keys| ==> NextState(keys, Some(keys[i])) == Some(keys[i + 1])
    ensures i + 1 == |keys| ==> NextState(keys, Some(keys[i])) == None
  {
    assert IndexOf(keys, Some(keys[i])) == i;
  }

  /** A state that is not a key of the table recommends nothing. */
  lemma NextStateOfUnknown(keys: seq<string>, s: Option<string>)
    requires forall k :: 0 <= k < |keys| ==> Some(keys[k]) != s
    ensures NextState(keys, s) == None
  {
  }

  /** Calling the handler of state `s`: a state that is not a key raises `KeyError`. */
  function Invoke(keys: seq<string>, respond: Responses, s: Option<string>): Outcome
  {
    if s.Some? && s.value in keys then respond(s.value, NextState(keys, s)) else Raised
  }

  /** The state after one step, and whether the step moved it. */
  datatype StepResult = StepResult(next: Option<string>, moved: bool)

  function Step(keys: seq<string>, respond: Responses, s: Option<string>): (r: StepResult)
    ensures r.moved <==> r.next != s
    ensures Invoke(keys, respond, s) == Raised ==> r == StepResult(s, false)
    ensures Invoke(keys, respond, s).Returned? ==> r.next == Invoke(keys, respond, s).next
  {
    var t := match Invoke(keys, respond, s)
      case Returned(n) => n
      case Raised => s;
    StepResult(t, t != s)
  }

  /** The backoff counter after a step. */
  function Backoff(counter: nat, moved: bool): nat
  {
    if moved then 0 else counter + 1
  }

  /** The machine's observable state: current state and backoff counter. */
  datatype Snapshot = Snapshot(state: Option<string>, backoff: nat)

  function After(keys: seq<string>, respond: Responses, snap: Snapshot): Snapshot
  {
    var r := Step(keys, respond, snap.state);
    Snapshot(r.next, Backoff(snap.backoff, r.moved))
  }

  /** `start`: step until the terminal state, one set of answers per step. */
  function Run(keys: seq<string>, terminal: string, snap: Snapshot, world: seq<Responses>): Snapshot
    decreases |world|
  {
    if snap.state == Some(terminal) || world == [] then snap
    else Run(keys, terminal, After(keys, world[0], snap), world[1..])
  }

  /** The number of steps `start` takes on `world`. */
  function Steps(keys: seq<string>, terminal: string, snap: Snapshot, world: seq<Responses>): nat
    decreases |world|
  {
    if snap.state == Some(terminal) || world == [] then 0
    else 1 + Steps(keys, terminal, After(keys, world[0], snap), world[1..])
  }

  /** The (state, advisory) pairs of the handler calls `start` makes. */
  function Calls(keys: seq<string>, terminal: string, snap: Snapshot, world: seq<Responses>)
    : seq<(string, Option<string>)>
    decreases |world|
  {
    if snap.state == Some(terminal) || world == [] then []
    else
      var rest := Calls(keys, terminal, After(keys, world[0], snap), world[1..]);
      if snap.state.Some? && snap.state.value in keys
      then [(snap.state.value, NextState(keys, snap.state))] + rest
      else rest
  }

  /** `start` stops only at the terminal state, unless the supplied answers run out first. */
  lemma {:induction false} RunStopsAtTerminal(keys: seq<string>, terminal: string, snap: Snapshot, world: seq<Responses>)
    ensures Steps(keys, terminal, snap, world) <= |world|
    ensures Steps(keys, terminal, snap, world) < |world| ==> Run(keys, terminal, snap, world).state == Some(terminal)
    decreases |world|
  {
    if snap.state != Some(terminal) && world != [] {
      RunStopsAtTerminal(keys, terminal, After(keys, world[0], snap), world[1..]);
    }
  }

  /** The terminal state's handler is never called, and each call gets the recommended next state. */
  lemma {:induction false} TerminalNeverInvoked(keys: seq<string>, terminal: string, snap: Snapshot, world: seq<Responses>)
    ensures forall c :: c in Calls(keys, terminal, snap, world) ==> c.0 != terminal
    ensures forall c :: c in Calls(keys, terminal, snap, world) ==> c.1 == NextState(keys, Some(c.0))
    decreases |world|
  {
    if snap.state != Some(terminal) && world != [] {
      TerminalNeverInvoked(keys, terminal, After(keys, world[0], snap), world[1..]);
    }
  }

  /** A state whose handler always raises stays put, and every attempt adds one to the counter. */
  lemma {:induction false} AlwaysRaising(keys: seq<string>, terminal: string, s: string, b: nat, world: seq<Responses>)
    requires s != terminal
    requires forall k :: 0 <= k < |world| ==> Invoke(keys, world[k], Some(s)) == Raised
    ensures Run(keys, terminal, Snapshot(Some(s), b), world) == Snapshot(Some(s), b + |world|)
    decreases |world|
  {
    if world != [] {
      AlwaysRaising(keys, terminal, s, b + 1, world[1..]);
    }
  }

  /**
   * The backoff counter is bounded by the steps taken: each step adds at most
   * one, and once the state has changed it is below the number of steps, because
   * the step that changed the state reset it.
   */
  lemma {:induction false} BackoffCountsFailures(keys: seq<string>, terminal: string, snap: Snapshot, world: seq<Responses>)
    ensures var r := Run(keys, terminal, snap, world);
      r.backoff <= snap.backoff + Steps(keys, terminal, snap, world)
    ensures var r := Run(keys, terminal, snap, world);
      r.state != snap.state ==> r.backoff < Steps(keys, terminal, snap, world)
    decreases |world|
  {
    if snap.state != Some(terminal) && world != [] {
      BackoffCountsFailures(keys, terminal, After(keys, world[0], snap), world[1..]);
    }
  }

  class RetryingStateMachine {
    const terminalState: string
    /** The keys of the handler table, in order. */
    const states: seq<string>
    const name: string
    var state: Option<string>
    var exponentialBackoff: nat
    /** Every handler call made so far, with the advisory state it received. */
    ghost var calls: seq<(string, Option<string>)>

    constructor (initialState: string, terminalState: string, states: seq<string>, name: string)
      ensures this.state == Some(initialState) && this.exponentialBackoff == 0
      ensures this.terminalState == terminalState && this.states == states && this.name == name
      ensures this.calls == []
    {
      this.state := Some(initialState);
      this.terminalState := terminalState;
      this.states := states;
      this.name := name;
      this.exponentialBackoff := 0;
      this.calls := [];
    }

    /** Walks the keys up to and past the current state, then takes the next one. */
    method GetNextState() returns (r: Option<string>)
      ensures r == NextState(states, state)
    {
      var i := 0;
      while i < |states| && Some(states[i]) != state
        invariant 0 <= i <= |states|
        invariant forall j :: 0 <= j < i ==> Some(states[j]) != state
      {
        i := i + 1;
      }
      assert i == IndexOf(states, state);
      if i + 1 < |states| {
        r := Some(states[i + 1]);
      } else {
        r := None;
      }
    }

    /** One step: call the current state's handler and commit what it returns. */
    method StateMachine(respond: Responses) returns (moved: bool)
      modifies this
      ensures state == Step(states, respond, old(state)).next
      ensures moved == Step(states, respond, old(state)).moved
      ensures exponentialBackoff == old(exponentialBackoff)
      ensures calls == old(calls) + (if old(state).Some? && old(state).value in states
                                     then [(old(state).value, NextState(states, old(state)))] else [])
    {
      var nextState := GetNextState();
      var trueNextState: Option<string>;
      if state.Some? && state.value in states {
        calls := calls + [(state.value, nextState)];
        var outcome := respond(state.value, nextState);
        trueNextState := if outcome.Returned? then outcome.next else state;
      } else {
        trueNextState := state;
      }
      if trueNextState != state {
        state := trueNextState;
        moved := true;
      } else {
        moved := false;
      }
    }

    /** `start`: loop until the terminal state; `world` holds the handlers' answers, one entry per step. */
    method Start(world: seq<Responses>) returns (finished: bool)
      modifies this
      ensures finished <==> state == Some(terminalState)
      ensures Snapshot(state, exponentialBackoff)
           == Run(states, terminalState, Snapshot(old(state), old(exponentialBackoff)), world)
      ensures calls == old(calls) + Calls(states, terminalState, Snapshot(old(state), old(exponentialBackoff)), world)
    {
      var i := 0;
      while state != Some(terminalState) && i < |world|
        invariant 0 <= i <= |world|
        invariant Run(states, terminalState, Snapshot(state, exponentialBackoff), world[i..])
               == Run(states, terminalState, Snapshot(old(state), old(exponentialBackoff)), world)
        invariant old(calls) + Calls(states, terminalState, Snapshot(old(state), old(exponentialBackoff)), world)
               == calls + Calls(states, terminalState, Snapshot(state, exponentialBackoff), world[i..])
      {
        assert world[i..][1..] == world[i + 1..];
        var successful := StateMachine(world[i]);
        if !successful {
          exponentialBackoff := exponentialBackoff + 1;
        } else {
          exponentialBackoff := 0;
        }
        i := i + 1;
      }
      finished := state == Some(terminalState);
    }
  }

  function Failing(s: string, next: Option<string>): Outcome { Raised }

  function Advancing(s: string, next: Option<string>): Outcome { Returned(next) }

  /** A handler that fails twice and then succeeds is retried exactly twice before the machine advances. */
  lemma RetryScenario()
    ensures Run(["Waiting", "Done"], "Done", Snapshot(Some("Waiting"), 0), [Failing, Failing])
         == Snapshot(Some("Waiting"), 2)
    ensures Run(["Waiting", "Done"], "Done", Snapshot(Some("Waiting"), 0), [Failing, Failing, Advancing])
         == Snapshot(Some("Done"), 0)
  {
    var keys := ["Waiting", "Done"];
    assert NextState(keys, Some("Waiting")) == Some("Done") by {
      assert IndexOf(keys, Some("Waiting")) == 0;
    }
    var s0, s1, s2 := Snapshot(Some("Waiting"), 0), Snapshot(Some("Waiting"), 1), Snapshot(Some("Waiting"), 2);
    assert Invoke(keys, Failing, Some("Waiting")) == Raised;
    assert After(keys, Failing, s0) == s1;
    assert After(keys, Failing, s1) == s2;
    assert Invoke(keys, Advancing, Some("Waiting")) == Returned(Some("Done"));
    assert After(keys, Advancing, s2) == Snapshot(Some("Done"), 0);
    var w := [Failing, Failing, Advancing];
    assert w[1..] == [Failing, Advancing] && w[1..][1..] == [Advancing] && w[1..][1..][1..] == [];
    assert Run(keys, "Done", Snapshot(Some("Done"), 0), []) == Snapshot(Some("Done"), 0);
    assert Run(keys, "Done", s2, [Advancing]) == Snapshot(Some("Done"), 0);
    assert Run(keys, "Done", s1, [Failing, Advancing]) == Snapshot(Some("Done"), 0);
    var w2 := [Failing, Failing];
    assert w2[1..] == [Failing] && w2[1..][1..] == [];
    assert Run(keys, "Done", s1, [Failing]) == s2;
  }
}
