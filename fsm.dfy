/**
  `FSM::Engine` (fsm.cc, fsm.h): a transition table kept as a nested map,
  state name to (event name, or `"__object"` for the state's own record) to
  `State`, with a current state and an ended flag.
 */
module FSM {
  import opened Wrappers

  datatype StateType = UnknownState | BeginState | NormalState | EndState

  datatype State = State(name: string, kind: StateType, enter: string, exit: string)

  datatype Event = Event(name: string)

  datatype Transition = Transition(event: Event, begin: State, end: State)

  /** The key under which a state's own record is kept in its entry. */
  const ObjectKey: string := "__object"

  type EventMap = map<string, State>
  type StateMap = map<string, EventMap>

  /** A default-constructed `State`. */
  function Unknown(): State {
    State("", UnknownState, "", "")
  }

  /**
    `add(transition)`: record the begin and end states under `"__object"`
    when their names are new, then map the begin state's event to the end
    state.
   */
  function AddTransition(states: StateMap, t: Transition): (r: StateMap)
    ensures r.Keys == states.Keys + {t.begin.name, t.end.name}
    ensures t.event.name in r[t.begin.name] && r[t.begin.name][t.event.name] == t.end
    ensures r[t.begin.name].Keys == BeginKeys(states, t.begin.name) + {t.event.name}
    ensures forall n :: n in states && n != t.begin.name ==> r[n] == states[n]
    ensures forall k :: k in BeginKeys(states, t.begin.name) && k != t.event.name ==>
      r[t.begin.name][k] == (if t.begin.name in states then states[t.begin.name][k] else t.begin)
    ensures t.end.name !in states && t.end.name != t.begin.name ==> r[t.end.name] == map[ObjectKey := t.end]
  {
    var s1 := if t.begin.name in states then states else states[t.begin.name := map[ObjectKey := t.begin]];
    var s2 := if t.end.name in s1 then s1 else s1[t.end.name := map[ObjectKey := t.end]];
    s2[t.begin.name := s2[t.begin.name][t.event.name := t.end]]
  }

  /** The keys the begin state's entry has before the transition's own event is added. */
  function BeginKeys(states: StateMap, name: string): set<string> {
    if name in states then states[name].Keys else {ObjectKey}
  }

  /**
    `add(list)`: each transition in list order. No state is ever removed, and
    every registered state keeps its own record.
   */
  function AddTransitions(states: StateMap, ts: seq<Transition>): (r: StateMap)
    ensures states.Keys <= r.Keys
    ensures Recorded(states) ==> Recorded(r)
    decreases |ts|
  {
    if ts == [] then states else AddTransitions(AddTransition(states, ts[0]), ts[1..])
  }

  /** Every registered state carries its own record. */
  predicate Recorded(states: StateMap) {
    forall n :: n in states ==> ObjectKey in states[n]
  }

  /** A `State` stored anywhere in the table (a record or a transition target). */
  ghost predicate Stored(states: StateMap, s: State) {
    exists n, k :: n in states && k in states[n] && states[n][k] == s
  }

  /** Some `State` stored under a name outside `names` has the given type. */
  ghost predicate KindOutside(states: StateMap, names: set<string>, kind: StateType) {
    exists n, k :: n in states && n !in names && k in states[n] && states[n][k].kind == kind
  }

  /** Some stored `State` has the given type. */
  ghost predicate HasKind(states: StateMap, kind: StateType) {
    exists n, k :: n in states && k in states[n] && states[n][k].kind == kind
  }

  class Engine {
    var hasEnded: bool     // has_ended_
    var current: State     // current_
    var states: StateMap   // states_

    constructor()
      ensures hasEnded && current == Unknown() && states == map[]
    {
      hasEnded, current, states := true, Unknown(), map[];
    }

    method Add(t: Transition)
      modifies this
      ensures states == AddTransition(old(states), t)
      ensures hasEnded == old(hasEnded) && current == old(current)
    {
      if t.begin.name !in states {
        states := states[t.begin.name := map[ObjectKey := t.begin]];
      }
      if t.end.name !in states {
        states := states[t.end.name := map[ObjectKey := t.end]];
      }
      states := states[t.begin.name := states[t.begin.name][t.event.name := t.end]];
    }

    method AddAll(ts: seq<Transition>)
      modifies this
      ensures states == AddTransitions(old(states), ts)
      ensures hasEnded == old(hasEnded) && current == old(current)
    {
      var i := 0;
      while i < |ts|
        invariant 0 <= i <= |ts|
        invariant AddTransitions(old(states), ts) == AddTransitions(states, ts[i..])
        invariant hasEnded == old(hasEnded) && current == old(current)
      {
        assert ts[i..][0] == ts[i] && ts[i..][1..] == ts[i + 1..];
        Add(ts[i]);
        i := i + 1;
      }
      assert ts[i..] == [];
    }

    /** `state()`: the name of the current state. */
    function StateName(): (n: string)
      reads this
      ensures n == current.name
    {
      current.name
    }

    /**
      Make `current` some stored `State` of type `kind`, if there is one. The
      source keeps the last one met while iterating the unordered maps, an
      order it does not specify; here the visiting order is left open.
     */
    method Seek(kind: StateType)
      modifies this
      ensures states == old(states) && hasEnded == old(hasEnded)
      ensures current == old(current) || (current.kind == kind && Stored(states, current))
      ensures HasKind(states, kind) ==> current.kind == kind && Stored(states, current)
    {
      ghost var found := false;
      var outer := states.Keys;
      while outer != {}
        invariant outer <= states.Keys
        invariant states == old(states) && hasEnded == old(hasEnded)
        invariant !found ==> current == old(current)
        invariant found ==> current.kind == kind && Stored(states, current)
        invariant KindOutside(states, outer, kind) ==> found
        decreases outer
      {
        var n :| n in outer;
        var inner := states[n].Keys;
        while inner != {}
          invariant n in states && inner <= states[n].Keys
          invariant states == old(states) && hasEnded == old(hasEnded)
          invariant !found ==> current == old(current)
          invariant found ==> current.kind == kind && Stored(states, current)
          invariant KindOutside(states, outer, kind) ==> found
          invariant (exists k :: k in states[n] && k !in inner && states[n][k].kind == kind) ==> found
          decreases inner
        {
          var k :| k in inner;
          if states[n][k].kind == kind {
            current := states[n][k];
            found := true;
          }
          inner := inner - {k};
        }
        outer := outer - {n};
      }
    }

    /** `start()`: enter some stored BEGIN state, if any, and clear the ended flag. */
    method Start()
      modifies this
      ensures !hasEnded && states == old(states)
      ensures current == old(current) || (current.kind == BeginState && Stored(states, current))
      ensures HasKind(states, BeginState) ==> current.kind == BeginState && Stored(states, current)
    {
      Seek(BeginState);
      hasEnded := false;
    }

    /** `stop()`: enter some stored END state, if any, and set the ended flag. */
    method Stop()
      modifies this
      ensures hasEnded && states == old(states)
      ensures current == old(current) || (current.kind == EndState && Stored(states, current))
      ensures HasKind(states, EndState) ==> current.kind == EndState && Stored(states, current)
    {
      Seek(EndState);
      hasEnded := true;
    }

    /** `update(event)`: its body is empty. */
    method Update(e: Event)
      ensures hasEnded == old(hasEnded) && current == old(current) && states == old(states)
    {
    }

    /**
      `can(s)` as written: whether the current state's entry has a key equal
      to `s.name`. Those keys are event names (and `"__object"`), not target
      states. `None` stands for the `std::out_of_range` that `at` throws when
      the current state is not registered.
     */
    function Can(s: State): (r: Option<bool>)
      reads this
      ensures r.None? <==> current.name !in states
      ensures r == Some(true) <==> current.name in states && s.name in states[current.name]
    {
      if current.name !in states then None else Some(s.name in states[current.name])
    }

    /** `cannot(s)`: the negation of `can(s)`, throwing when it throws. */
    function Cannot(s: State): (r: Option<bool>)
      reads this
      ensures r.None? <==> Can(s).None?
      ensures r.Some? ==> r.value == !Can(s).value
    {
      match Can(s)
      case None => None
      case Some(b) => Some(!b)
    }

    /**
      What `can` evidently means: some transition out of the current state
      ends in a state named `s.name`. The state's own record is not a
      transition.
     */
    function CanReach(s: State): (r: Option<bool>)
      reads this
      ensures r.None? <==> current.name !in states
      ensures r == Some(true) <==>
        current.name in states &&
        exists e :: e in states[current.name] && e != ObjectKey && states[current.name][e].name == s.name
    {
      if current.name !in states then None
      else Some(exists e :: e in states[current.name] && e != ObjectKey && states[current.name][e].name == s.name)
    }
  }

  // ----- properties

  /** `add(list)` of `a` followed by `b` is `add(list)` of `a`, then of `b`. */
  lemma {:induction false} AddTransitionsAppend(states: StateMap, a: seq<Transition>, b: seq<Transition>)
    ensures AddTransitions(states, a + b) == AddTransitions(AddTransitions(states, a), b)
    decreases |a|
  {
    if a == [] {
      assert a + b == b;
    } else {
      assert (a + b)[0] == a[0] && (a + b)[1..] == a[1..] + b;
      AddTransitionsAppend(AddTransition(states, a[0]), a[1..], b);
    }
  }

  /** Every begin and end state name of the transitions. */
  function Names(ts: seq<Transition>): set<string>
    decreases |ts|
  {
    if ts == [] then {} else {ts[0].begin.name, ts[0].end.name} + Names(ts[1..])
  }

  /** Adding transitions only ever adds state names: the table's keys are the old ones plus every begin and end name. */
  lemma {:induction false} AddTransitionsKeys(states: StateMap, ts: seq<Transition>)
    ensures AddTransitions(states, ts).Keys == states.Keys + Names(ts)
    decreases |ts|
  {
    if ts != [] {
      AddTransitionsKeys(AddTransition(states, ts[0]), ts[1..]);
    }
  }

  /** Every registered state keeps a record: `add` never removes a key, and a new name always gets one. */
  lemma AddKeepsRecords(states: StateMap, t: Transition)
    requires Recorded(states)
    ensures Recorded(AddTransition(states, t))
  {
  }

  /** A second transition for the same begin state and event replaces the first. */
  lemma AddOverwrites(states: StateMap, e: Event, a: State, b: State, c: State)
    ensures var r := AddTransition(AddTransition(states, Transition(e, a, b)), Transition(e, a, c));
      r[a.name][e.name] == c
  {
  }

  /** A state already registered keeps its record when it reappears in a later transition. */
  lemma RecordNotOverwritten(states: StateMap, t: Transition)
    requires t.begin.name in states && t.end.name in states && t.event.name != ObjectKey
    requires ObjectKey in states[t.begin.name] && ObjectKey in states[t.end.name]
    ensures var r := AddTransition(states, t);
      r[t.begin.name][ObjectKey] == states[t.begin.name][ObjectKey] &&
      r[t.end.name][ObjectKey] == states[t.end.name][ObjectKey]
  {
  }

  /** The transition `A --go--> B` used by the lemma below. */
  function GoTable(): StateMap {
    AddTransition(map[], Transition(Event("go"), State("A", BeginState, "", ""), State("B", EndState, "", "")))
  }

  /**
    With only `A --go--> B` registered and `A` current, `can(B)` answers
    false although the transition exists, while `can` of a state named "go"
    (the event) answers true; the corrected `CanReach` answers true for B.
   */
  lemma CanTestsEventNames(e: Engine)
    requires e.states == GoTable() && e.current == State("A", BeginState, "", "")
    ensures e.Can(State("B", EndState, "", "")) == Some(false)
    ensures e.Can(State("go", UnknownState, "", "")) == Some(true)
    ensures e.CanReach(State("B", EndState, "", "")) == Some(true)
    ensures e.CanReach(State("go", UnknownState, "", "")) == Some(false)
  {
    var t := e.states["A"];
    assert t == map[ObjectKey := State("A", BeginState, "", ""), "go" := State("B", EndState, "", "")];
    assert t["go"].name == "B";
    assert "B" != ObjectKey && "B" != "go";
  }

  /** `CanReach` answers true exactly for the end states of the current state's transitions. */
  lemma CanReachAfterAdd(e: Engine, before: StateMap, t: Transition)
    requires e.current.name == t.begin.name && e.states == AddTransition(before, t) && t.event.name != ObjectKey
    ensures e.CanReach(t.end) == Some(true)
  {
    assert t.event.name in e.states[t.begin.name];
  }
}
