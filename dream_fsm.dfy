/** The `DreamFSM` engine: a fixed set of named states, a current state,
    transitions guarded by predicates and kept in declaration order, and
    callbacks fired when a state is left or entered. One `Update` call
    makes at most one transition. */
module DreamFsm {
  import opened Lists

  datatype Option<T> = None | Some(value: T)

  /** State names are JavaScript strings. */
  type StateName = string

  /** Identity of a transition predicate, the function object handed to AddConnection. */
  type PredicateId = nat

  /** Identity of a listener callback; removal compares callbacks by identity. */
  type ListenerId = nat

  /** `DreamFSM.ListenerType`: OnEnter (0) and OnExit (1). */
  datatype ListenerType = OnEnter | OnExit

  /** One entry of a state's outgoing bucket: a destination and its predicate. */
  datatype Edge = Edge(to: StateName, guard: PredicateId)

  /** What a caller observes through the functions it handed to the machine. */
  datatype Event =
      /** the predicate `guard`, stored for the connection `from > to`, was called */
    | Tested(from: StateName, to: StateName, guard: PredicateId)
      /** a listener of the given kind ran while the current state was `current` */
    | Called(listener: ListenerId, kind: ListenerType, current: StateName)

  /** How a registration call ends: it succeeds, succeeds with the
      "already declared" warning, or throws for a state outside the declared set. */
  datatype Outcome = Added | Overwritten | UnknownState(name: StateName)

  /** The destinations of a bucket, in the order `Object.keys` reports them. */
  function Destinations(b: seq<Edge>): seq<StateName> {
    seq(|b|, i requires 0 <= i < |b| => b[i].to)
  }

  /** `connections[from][to]` within the bucket of `from`. */
  function Lookup(b: seq<Edge>, to: StateName): (p: Option<PredicateId>)
    ensures p.None? <==> to !in Destinations(b)
    ensures p.Some? ==> Edge(to, p.value) in b
  {
    var i := IndexOf(Destinations(b), to);
    if i == -1 then None else Some(b[i].guard)
  }

  /** `connections[from][to] = p` on a bucket: reassigning a property keeps
      its place among the keys, a new property is enumerated last. */
  function Upsert(b: seq<Edge>, to: StateName, p: PredicateId): seq<Edge> {
    var i := IndexOf(Destinations(b), to);
    if i == -1 then b + [Edge(to, p)] else b[i := Edge(to, p)]
  }

  /** A bucket as AddConnection builds it: never empty, each destination once,
      every destination a declared state. */
  predicate WellFormedBucket(states: seq<StateName>, b: seq<Edge>) {
    |b| > 0 && Distinct(Destinations(b)) && forall i :: 0 <= i < |b| ==> b[i].to in states
  }

  /** Every bucket belongs to a declared state and is well formed. */
  predicate WellFormedTable(states: seq<StateName>, conns: map<StateName, seq<Edge>>) {
    forall from :: from in conns ==> from in states && WellFormedBucket(states, conns[from])
  }

  /** The bucket of `from`, empty when `connections[from]` is undefined. */
  function Bucket(conns: map<StateName, seq<Edge>>, from: StateName): seq<Edge> {
    if from in conns then conns[from] else []
  }

  /** The predicate guarding `from > to`, if one was declared. */
  function Guard(conns: map<StateName, seq<Edge>>, from: StateName, to: StateName): Option<PredicateId> {
    Lookup(Bucket(conns, from), to)
  }

  /** The table after a successful `AddConnection(from, to, p)`. */
  function Connect(conns: map<StateName, seq<Edge>>, from: StateName, to: StateName, p: PredicateId)
    : map<StateName, seq<Edge>>
  {
    conns[from := Upsert(Bucket(conns, from), to, p)]
  }

  /** `listeners[state][kind]`, empty when undefined. */
  function Registered(ls: map<(StateName, ListenerType), seq<ListenerId>>, s: StateName, kind: ListenerType)
    : seq<ListenerId>
  {
    if (s, kind) in ls then ls[(s, kind)] else []
  }

  /** The position in `b` of the destination `Update` moves to: the first, in
      declaration order, whose predicate returns true this step. */
  function FirstEnabled(b: seq<Edge>, verdict: StateName -> bool): (r: Option<nat>)
    ensures r.Some? ==> r.value < |b| && verdict(b[r.value].to)
    ensures r.Some? ==> forall j :: 0 <= j < r.value ==> !verdict(b[j].to)
    ensures r.None? ==> forall j :: 0 <= j < |b| ==> !verdict(b[j].to)
  {
    if |b| == 0 then None
    else if verdict(b[0].to) then Some(0)
    else
      match FirstEnabled(b[1..], verdict)
      case None => None
      case Some(k) => Some(k + 1)
  }

  /** The predicate calls of one scan of a bucket, in order. */
  function Tests(from: StateName, b: seq<Edge>): seq<Event> {
    seq(|b|, i requires 0 <= i < |b| => Tested(from, b[i].to, b[i].guard))
  }

  /** The calls `FireListeners` makes for one list: each registration once, in
      registration order, all seeing the same current state. */
  function Calls(ls: seq<ListenerId>, kind: ListenerType, current: StateName): seq<Event> {
    seq(|ls|, i requires 0 <= i < |ls| => Called(ls[i], kind, current))
  }

  /** What one `Update` call leaves behind: the halted flag, the current
      state, and the predicate and listener calls it made, in order. */
  datatype StepResult = StepResult(halted: bool, state: StateName, events: seq<Event>)

  /** The calls of a transition from `from` to the `i`-th destination of its
      bucket: the predicates up to and including that one, then the exit
      listeners of `from`, then the enter listeners of the destination. */
  function TransitionEvents(from: StateName, b: seq<Edge>, i: nat,
                            ls: map<(StateName, ListenerType), seq<ListenerId>>): seq<Event>
    requires i < |b|
  {
    Tests(from, b[..i + 1])
    + Calls(Registered(ls, from, OnExit), OnExit, from)
    + Calls(Registered(ls, b[i].to, OnEnter), OnEnter, b[i].to)
  }

  /** One `Update` from the current state `s`: a halted machine does nothing;
      a state without a bucket halts; otherwise the first destination whose
      predicate holds becomes the state, or nothing moves when none holds. */
  function Step(conns: map<StateName, seq<Edge>>, ls: map<(StateName, ListenerType), seq<ListenerId>>,
                halted: bool, s: StateName, verdict: StateName -> bool): StepResult
  {
    if halted || s !in conns then StepResult(true, s, [])
    else
      var b := conns[s];
      match FirstEnabled(b, verdict)
      case None => StepResult(false, s, Tests(s, b))
      case Some(i) => StepResult(false, b[i].to, TransitionEvents(s, b, i, ls))
  }

  /** Several `Update` calls in a row, the k-th with the predicate outcomes `verdicts[k]`. */
  function Run(conns: map<StateName, seq<Edge>>, ls: map<(StateName, ListenerType), seq<ListenerId>>,
               halted: bool, s: StateName, verdicts: seq<StateName -> bool>): StepResult
    decreases |verdicts|
  {
    if verdicts == [] then StepResult(halted, s, [])
    else
      var first := Step(conns, ls, halted, s, verdicts[0]);
      var rest := Run(conns, ls, first.halted, first.state, verdicts[1..]);
      StepResult(rest.halted, rest.state, first.events + rest.events)
  }

  // ---------------------------------------------------------------------
  // Properties of the specification functions
  // ---------------------------------------------------------------------

  /** The step when a destination's predicate holds and every earlier one failed. */
  lemma StepMoves(conns: map<StateName, seq<Edge>>, ls: map<(StateName, ListenerType), seq<ListenerId>>,
                  s: StateName, verdict: StateName -> bool, i: nat)
    requires s in conns && i < |conns[s]| && verdict(conns[s][i].to)
    requires forall j :: 0 <= j < i ==> !verdict(conns[s][j].to)
    ensures Step(conns, ls, false, s, verdict) == StepResult(false, conns[s][i].to, TransitionEvents(s, conns[s], i, ls))
  {
  }

  /** The step when no predicate of the bucket holds. */
  lemma StepStays(conns: map<StateName, seq<Edge>>, ls: map<(StateName, ListenerType), seq<ListenerId>>,
                  s: StateName, verdict: StateName -> bool)
    requires s in conns && forall j :: 0 <= j < |conns[s]| ==> !verdict(conns[s][j].to)
    ensures Step(conns, ls, false, s, verdict) == StepResult(false, s, Tests(s, conns[s]))
  {
  }

  /** Concatenation regrouped, so that a trace built call by call matches a step's events. */
  lemma AppendAssoc<T>(a: seq<T>, b: seq<T>, c: seq<T>)
    ensures a + b + c == a + (b + c)
  {
  }

  /** One more predicate call extends the scan by one destination. */
  lemma TestsSnoc(from: StateName, b: seq<Edge>, i: nat)
    requires i < |b|
    ensures Tests(from, b[..i + 1]) == Tests(from, b[..i]) + [Tested(from, b[i].to, b[i].guard)]
  {
  }

  /** One more callback extends the fired calls by one. */
  lemma CallsSnoc(ls: seq<ListenerId>, kind: ListenerType, current: StateName, i: nat)
    requires i < |ls|
    ensures Calls(ls[..i + 1], kind, current) == Calls(ls[..i], kind, current) + [Called(ls[i], kind, current)]
  {
  }

  /** After the upsert the destination's predicate is the new one. */
  lemma UpsertStores(b: seq<Edge>, to: StateName, p: PredicateId)
    ensures Lookup(Upsert(b, to, p), to) == Some(p)
  {
    var ds := Destinations(b);
    IndexOfAppend(ds, to, to);
    if IndexOf(ds, to) == -1 {
      assert Destinations(Upsert(b, to, p)) == ds + [to];
    } else {
      assert Destinations(Upsert(b, to, p)) == ds;
    }
  }

  /** The upsert leaves the predicate of every other destination as it was. */
  lemma UpsertKeepsOthers(b: seq<Edge>, to: StateName, p: PredicateId, other: StateName)
    requires other != to
    ensures Lookup(Upsert(b, to, p), other) == Lookup(b, other)
  {
    var ds := Destinations(b);
    IndexOfAppend(ds, to, other);
    if IndexOf(ds, to) == -1 {
      assert Destinations(Upsert(b, to, p)) == ds + [to];
    } else {
      assert Destinations(Upsert(b, to, p)) == ds;
    }
  }

  /** Redefining a connection keeps the destination's position; a new one goes last. */
  lemma UpsertOrder(b: seq<Edge>, to: StateName, p: PredicateId)
    ensures Destinations(Upsert(b, to, p)) == Destinations(b) + (if to in Destinations(b) then [] else [to])
  {
  }

  /** Upserting a declared state into a well-formed (or absent) bucket gives a well-formed bucket. */
  lemma UpsertWellFormed(states: seq<StateName>, b: seq<Edge>, to: StateName, p: PredicateId)
    requires b == [] || WellFormedBucket(states, b)
    requires to in states
    ensures WellFormedBucket(states, Upsert(b, to, p))
  {
    UpsertOrder(b, to, p);
    var ds := Destinations(b);
    var r := Upsert(b, to, p);
    if to !in ds {
      assert Destinations(r) == ds + [to];
      forall i, j | 0 <= i < j < |r| ensures Destinations(r)[i] != Destinations(r)[j] {
        if j == |b| {
          assert Destinations(r)[i] == ds[i];
        }
      }
    }
  }

  /** A successful AddConnection sets exactly the `(from, to)` entry of the
      table; every other `(from', to')` pair keeps its predicate or its absence. */
  lemma ConnectTable(conns: map<StateName, seq<Edge>>, from: StateName, to: StateName, p: PredicateId,
                     from': StateName, to': StateName)
    ensures Guard(Connect(conns, from, to, p), from', to') ==
            if from' == from && to' == to then Some(p) else Guard(conns, from', to')
  {
    if from' == from {
      if to' == to {
        UpsertStores(Bucket(conns, from), to, p);
      } else {
        UpsertKeepsOthers(Bucket(conns, from), to, p, to');
      }
    }
  }

  /** A halted machine stays halted, and no number of further updates moves
      it or calls anything. */
  lemma {:induction false} HaltedRunIsNoop(conns: map<StateName, seq<Edge>>,
                                          ls: map<(StateName, ListenerType), seq<ListenerId>>,
                                          s: StateName, verdicts: seq<StateName -> bool>)
    ensures Run(conns, ls, true, s, verdicts) == StepResult(true, s, [])
    decreases |verdicts|
  {
    if verdicts != [] {
      HaltedRunIsNoop(conns, ls, s, verdicts[1..]);
    }
  }

  /** From a state without outgoing connections the first update halts, calling
      nothing, and every later one is a no-op. */
  lemma TerminalStateHalts(conns: map<StateName, seq<Edge>>, ls: map<(StateName, ListenerType), seq<ListenerId>>,
                           s: StateName, verdicts: seq<StateName -> bool>)
    requires s !in conns && verdicts != []
    ensures Run(conns, ls, false, s, verdicts) == StepResult(true, s, [])
  {
    HaltedRunIsNoop(conns, ls, s, verdicts[1..]);
  }

  /** When no predicate of the current state ever holds, any number of updates
      leave the state where it is and the machine not halted. */
  lemma {:induction false} RunWithoutEnabledStays(conns: map<StateName, seq<Edge>>,
                                                 ls: map<(StateName, ListenerType), seq<ListenerId>>,
                                                 s: StateName, verdicts: seq<StateName -> bool>)
    requires s in conns
    requires forall k, j :: 0 <= k < |verdicts| && 0 <= j < |conns[s]| ==> !verdicts[k](conns[s][j].to)
    ensures Run(conns, ls, false, s, verdicts).state == s && !Run(conns, ls, false, s, verdicts).halted
    decreases |verdicts|
  {
    if verdicts != [] {
      assert forall j :: 0 <= j < |conns[s]| ==> !verdicts[0](conns[s][j].to);
      StepStays(conns, ls, s, verdicts[0]);
      RunWithoutEnabledStays(conns, ls, s, verdicts[1..]);
    }
  }

  /** Every state a machine reaches from a declared state is declared: the
      table only leads to declared states. */
  lemma {:induction false} RunKeepsDeclared(states: seq<StateName>, conns: map<StateName, seq<Edge>>,
                                           ls: map<(StateName, ListenerType), seq<ListenerId>>,
                                           halted: bool, s: StateName, verdicts: seq<StateName -> bool>)
    requires WellFormedTable(states, conns) && s in states
    ensures Run(conns, ls, halted, s, verdicts).state in states
    decreases |verdicts|
  {
    if verdicts != [] {
      var first := Step(conns, ls, halted, s, verdicts[0]);
      if !halted && s in conns {
        var r := FirstEnabled(conns[s], verdicts[0]);
        if r.Some? {
          assert first.state == conns[s][r.value].to;
        }
      }
      RunKeepsDeclared(states, conns, ls, first.halted, first.state, verdicts[1..]);
    }
  }

  /** A step that moves follows a declared connection `s > t` whose predicate
      returned true, and every destination declared before `t` had a false one. */
  lemma StepFollowsDeclaredConnection(states: seq<StateName>, conns: map<StateName, seq<Edge>>,
                                      ls: map<(StateName, ListenerType), seq<ListenerId>>,
                                      s: StateName, verdict: StateName -> bool)
    requires WellFormedTable(states, conns) && s in conns
    requires FirstEnabled(conns[s], verdict).Some?
    ensures var t := Step(conns, ls, false, s, verdict).state;
            Guard(conns, s, t).Some? && verdict(t) &&
            forall j :: 0 <= j < IndexOf(Destinations(conns[s]), t) ==> !verdict(conns[s][j].to)
  {
    var b := conns[s];
    var i := FirstEnabled(b, verdict).value;
    var ds := Destinations(b);
    assert ds[i] == b[i].to;
    assert b[i].to !in ds[..i] by {
      forall j | 0 <= j < i ensures ds[..i][j] != b[i].to {
        assert ds[j] != ds[i];
      }
    }
    IndexOfIsFirst(ds, b[i].to, i);
  }

  /** The calls of a transition `from > b[i].to`: all predicate calls come
      first, then the exit listeners, which see `from` as current, then the
      enter listeners, which see the destination; each registration runs
      once, in registration order. */
  lemma TransitionEventOrder(from: StateName, b: seq<Edge>, i: nat,
                             ls: map<(StateName, ListenerType), seq<ListenerId>>)
    requires i < |b|
    ensures var e, x, n := TransitionEvents(from, b, i, ls), Registered(ls, from, OnExit), Registered(ls, b[i].to, OnEnter);
            |e| == i + 1 + |x| + |n| &&
            (forall k :: 0 <= k <= i ==> e[k] == Tested(from, b[k].to, b[k].guard)) &&
            (forall k :: 0 <= k < |x| ==> e[i + 1 + k] == Called(x[k], OnExit, from)) &&
            (forall k :: 0 <= k < |n| ==> e[i + 1 + |x| + k] == Called(n[k], OnEnter, b[i].to))
    ensures var e := TransitionEvents(from, b, i, ls);
            forall k1, k2 :: 0 <= k1 < k2 < |e| && e[k1].Called? ==>
              e[k2].Called? && (e[k1].kind == OnEnter ==> e[k2].kind == OnEnter)
  {
  }

  /** In a bucket without duplicate destinations, `connections[from][to]` for
      the `k`-th destination is the predicate stored with it. */
  lemma LookupAt(b: seq<Edge>, k: nat)
    requires Distinct(Destinations(b)) && k < |b|
    ensures Lookup(b, b[k].to) == Some(b[k].guard)
  {
    var ds := Destinations(b);
    assert ds[k] == b[k].to;
    assert b[k].to !in ds[..k] by {
      forall j | 0 <= j < k ensures ds[..k][j] != b[k].to {
        assert ds[j] != ds[k];
      }
    }
    IndexOfIsFirst(ds, b[k].to, k);
  }

  /** Every predicate a step calls is the one currently stored for that
      connection of the current state. */
  lemma StepCallsStoredPredicates(states: seq<StateName>, conns: map<StateName, seq<Edge>>,
                                  ls: map<(StateName, ListenerType), seq<ListenerId>>,
                                  halted: bool, s: StateName, verdict: StateName -> bool)
    requires WellFormedTable(states, conns)
    ensures var e := Step(conns, ls, halted, s, verdict).events;
            forall k :: 0 <= k < |e| && e[k].Tested? ==>
              e[k].from == s && Guard(conns, s, e[k].to) == Some(e[k].guard)
  {
    if !halted && s in conns {
      var b := conns[s];
      var e := Step(conns, ls, halted, s, verdict).events;
      var n := match FirstEnabled(b, verdict) case None => |b| case Some(i) => i + 1;
      assert e[..n] == Tests(s, b[..n]);
      forall k | 0 <= k < |e| && e[k].Tested?
        ensures e[k].from == s && Guard(conns, s, e[k].to) == Some(e[k].guard)
      {
        assert k < n;
        assert e[k] == e[..n][k];
        LookupAt(b, k);
      }
    }
  }

  /** After `AddConnection(s, t, p)` a step from `s` calls only `p` for the
      connection `s > t`, never a predicate it replaced, and a step that
      moves from `s` to another state `t` has called `p`. */
  lemma ConnectedPredicateIsCalled(states: seq<StateName>, conns: map<StateName, seq<Edge>>,
                                   ls: map<(StateName, ListenerType), seq<ListenerId>>,
                                   s: StateName, t: StateName, p: PredicateId, verdict: StateName -> bool)
    requires WellFormedTable(states, conns) && s in states && t in states
    ensures var e := Step(Connect(conns, s, t, p), ls, false, s, verdict).events;
            forall k :: 0 <= k < |e| && e[k].Tested? && e[k].to == t ==> e[k].guard == p
    ensures var r := Step(Connect(conns, s, t, p), ls, false, s, verdict);
            r.state == t && t != s ==> Tested(s, t, p) in r.events
  {
    var c := Connect(conns, s, t, p);
    UpsertWellFormed(states, Bucket(conns, s), t, p);
    assert WellFormedTable(states, c);
    ConnectTable(conns, s, t, p, s, t);
    StepCallsStoredPredicates(states, c, ls, false, s, verdict);
    var r := Step(c, ls, false, s, verdict);
    if r.state == t && t != s {
      var b := c[s];
      var i := FirstEnabled(b, verdict).value;
      assert r.events[i] == Tests(s, b[..i + 1])[i] == Tested(s, t, b[i].guard);
    }
  }

  // ---------------------------------------------------------------------
  // The engine
  // ---------------------------------------------------------------------

  /** `new DreamFSM(states, start)` with its closure variables as fields. */
  class Fsm {
    const states: seq<StateName>
    const start: StateName
    var connections: map<StateName, seq<Edge>>
    var listeners: map<(StateName, ListenerType), seq<ListenerId>>
    var state: StateName
    var halted: bool
    /** Every predicate and callback call the machine has made, in order. */
    ghost var trace: seq<Event>

    /** The constructor does not check `start`; every later state is a declared one. */
    ghost predicate Valid()
      reads this
    {
      WellFormedTable(states, connections) &&
      (forall key :: key in listeners ==> key.0 in states) &&
      (state == start || state in states)
    }

    constructor (states: seq<StateName>, start: StateName)
      ensures Valid()
      ensures this.states == states && this.start == start
      ensures connections == map[] && listeners == map[]
      ensures state == start && !halted && trace == []
    {
      this.states := states;
      this.start := start;
      connections := map[];
      listeners := map[];
      state := start;
      halted := false;
      trace := [];
    }

    /** `State()`: the current state, the start state or a declared one. */
    function State(): (s: StateName)
      reads this
      requires Valid()
      ensures s == start || s in states
      ensures start in states ==> s in states
    {
      state
    }

    method AddConnection(from: StateName, to: StateName, p: PredicateId) returns (outcome: Outcome)
      requires Valid()
      modifies this
      ensures Valid()
      ensures outcome == if from !in states then UnknownState(from)
                         else if to !in states then UnknownState(to)
                         else if Guard(old(connections), from, to).Some? then Overwritten
                         else Added
      ensures connections == if outcome.UnknownState? then old(connections)
                             else Connect(old(connections), from, to, p)
      ensures listeners == old(listeners) && state == old(state) && halted == old(halted)
      ensures trace == old(trace)
    {
      if from !in states {
        return UnknownState(from);
      }
      if to !in states {
        return UnknownState(to);
      }
      var bucket := if from in connections then connections[from] else [];
      outcome := if Lookup(bucket, to).Some? then Overwritten else Added;
      UpsertWellFormed(states, bucket, to, p);
      connections := connections[from := Upsert(bucket, to, p)];
    }

    /** `AddListener(s, l, kind)`; an omitted kind means OnEnter. Registering never calls `l`. */
    method AddListener(s: StateName, l: ListenerId, kind: Option<ListenerType>) returns (outcome: Outcome)
      requires Valid()
      modifies this
      ensures Valid()
      ensures outcome == if s in states then Added else UnknownState(s)
      ensures var k := if kind.Some? then kind.value else OnEnter;
              listeners == if s in states then old(listeners)[(s, k) := Registered(old(listeners), s, k) + [l]]
                           else old(listeners)
      ensures connections == old(connections) && state == old(state) && halted == old(halted)
      ensures trace == old(trace)
    {
      var k := if kind.None? then OnEnter else kind.value;
      if s !in states {
        return UnknownState(s);
      }
      var list := if (s, k) in listeners then listeners[(s, k)] else [];
      listeners := listeners[(s, k) := list + [l]];
      outcome := Added;
    }

    /** `RemoveListener(s, l, kind)`: takes out the first registration of `l`
        in the `(s, kind)` list. The kind has no default, so with it omitted
        nothing is found; an absent list or callback is no error. */
    method RemoveListener(s: StateName, l: ListenerId, kind: Option<ListenerType>)
      requires Valid()
      modifies this
      ensures Valid()
      ensures kind.None? || (s, kind.value) !in old(listeners) || l !in old(listeners)[(s, kind.value)]
              ==> listeners == old(listeners)
      ensures kind.Some? && (s, kind.value) in old(listeners) ==>
              listeners == old(listeners)[(s, kind.value) := RemoveFirst(old(listeners)[(s, kind.value)], l)]
      ensures connections == old(connections) && state == old(state) && halted == old(halted)
      ensures trace == old(trace)
    {
      if kind.None? {
        return;
      }
      var key := (s, kind.value);
      if key !in listeners {
        return;
      }
      var idx := IndexOf(listeners[key], l);
      if idx == -1 {
        return;
      }
      listeners := listeners[key := listeners[key][..idx] + listeners[key][idx + 1..]];
    }

    /** One step. `verdict(to)` is what the predicate of `state > to` returns
        if it is called during this step; each is called at most once. */
    method Update(verdict: StateName -> bool)
      requires Valid()
      modifies this`state, this`halted, this`trace
      ensures Valid()
      ensures var r := Step(connections, listeners, old(halted), old(state), verdict);
              halted == r.halted && state == r.state && trace == old(trace) + r.events
    {
      if halted {
        return;
      }
      if state !in connections {
        halted := true;
        return;
      }
      var current := connections[state];
      ghost var from, ls := state, listeners;
      ghost var moved := false;
      var i := 0;
      while i < |current|
        invariant 0 <= i <= |current|
        invariant state == from && !halted
        invariant forall j :: 0 <= j < i ==> !verdict(current[j].to)
        invariant trace == old(trace) + Tests(from, current[..i])
      {
        TestsSnoc(from, current, i);
        AppendAssoc(old(trace), Tests(from, current[..i]), [Tested(from, current[i].to, current[i].guard)]);
        trace := trace + [Tested(from, current[i].to, current[i].guard)];
        if verdict(current[i].to) {
          StepMoves(connections, ls, from, verdict, i);
          Transition(current[i].to);
          ghost var tests, exits := Tests(from, current[..i + 1]), Calls(Registered(ls, from, OnExit), OnExit, from);
          ghost var enters := Calls(Registered(ls, current[i].to, OnEnter), OnEnter, current[i].to);
          AppendAssoc(old(trace), tests, exits);
          AppendAssoc(old(trace), tests + exits, enters);
          moved := true;
          break;
        }
        i := i + 1;
      }
      if !moved {
        StepStays(connections, ls, from, verdict);
        assert current[..i] == current;
      }
    }

    /** The body of a transition: the old state's exit listeners run while it
        is still current, then `to` becomes current and its enter listeners run. */
    method Transition(to: StateName)
      requires Valid() && to in states
      modifies this`state, this`trace
      ensures Valid() && state == to
      ensures trace == old(trace) + Calls(Registered(listeners, old(state), OnExit), OnExit, old(state))
                                  + Calls(Registered(listeners, to, OnEnter), OnEnter, to)
    {
      FireListeners(state, OnExit);
      state := to;
      FireListeners(state, OnEnter);
    }

    /** Calls the `(key, kind)` listeners in registration order; they see the current state. */
    method FireListeners(key: StateName, kind: ListenerType)
      modifies this`trace
      ensures trace == old(trace) + Calls(Registered(listeners, key, kind), kind, state)
    {
      if (key, kind) !in listeners {
        return;
      }
      var toCall := listeners[(key, kind)];
      var i := 0;
      while i < |toCall|
        invariant 0 <= i <= |toCall|
        invariant trace == old(trace) + Calls(toCall[..i], kind, state)
      {
        CallsSnoc(toCall, kind, state, i);
        trace := trace + [Called(toCall[i], kind, state)];
        i := i + 1;
      }
      assert toCall[..i] == toCall;
    }
  }
}
