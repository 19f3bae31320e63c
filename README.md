# dream-fsm in Dafny

This project models `DreamFSM`, a small finite-state machine written in JavaScript
(`index.js`). A machine is built from an array of state names and a start state. Callers
declare connections `from > to`, each guarded by a predicate. They register callbacks that
run when a state is entered (`OnEnter`) or left (`OnExit`). Then they drive the machine one
`Update()` at a time:

- A halted machine does nothing.
- A current state without outgoing connections halts the machine for good.
- Otherwise the destinations of the current state are tried in declaration order. The first
  one whose predicate returns true becomes the new state. The old state's exit listeners run
  before the change, and the new state's enter listeners run after it.

Files:

- `lists.dfy`, module `Lists`: the two array operations the engine relies on.
  `IndexOf` is `Array.prototype.indexOf`. `RemoveFirst` is `splice(indexOf(x), 1)`.
- `dream_fsm.dfy`, module `DreamFsm`:
  - the value-level specification: the ordered destination buckets, the upsert that
    `connections[from][to] = fn` performs, `FirstEnabled`, and `Step` and `Run` (one
    update and several updates in a row);
  - class `Fsm`, whose fields are the closure variables `connections`, `listeners`,
    `state` and `haltUpdate` (here `halted`). Its methods are proved against the
    specification.
- `scenarios.dfy`, module `DreamFsmScenarios`: concrete machines (a three-state chain,
  first-match order, redefinition, listener removal).

How the JavaScript is represented:

- State names are strings.
- Predicates and callbacks are identified by opaque numbers (`PredicateId`, `ListenerId`).
  `indexOf` compares callbacks by identity, so removal matches on the number.
- A state's bucket (`connections[from]`) is a sequence of `Edge(to, guard)` in
  `Object.keys` order. Assigning a new key appends it. Reassigning an existing key keeps its
  position.
- `listeners[state][type]` is a map keyed by the pair `(state, type)`. An absent list and
  an empty list behave the same in every operation.
- A predicate's result is an oracle. `Update(verdict)` receives `verdict(to)`: what the
  predicate of `state > to` returns if it is called in this step. Each predicate is called
  at most once per step, so this covers predicates with side effects or randomness.
- Callbacks have no arguments and no modelled effects. A ghost `trace` records each call:
  `Tested(from, to, guard)` for a call of the predicate `guard` stored for `from > to`, and
  `Called(listener, kind, current)` for a callback, where `current` is what `State()`
  returns while the callback runs.
- Registration errors (the thrown `Error`) and the overwrite warning (`console.warn`) become
  the returned `Outcome`: `Added`, `Overwritten`, or `UnknownState(name)`. `name` is the
  first argument that failed the check.
- `AddListener`'s optional `type` is an `Option`, with `None` meaning the default `OnEnter`.
  `RemoveListener` has no default, so with `None` it finds no list and does nothing. This
  matches `listeners[state][undefined]` in the source.

The model follows `index.js` as written:

- Listeners are keyed only by state and `OnEnter`/`OnExit`.
- Registering a listener never calls it, even an enter listener for the current state.
- The constructor does not check that `start` is a declared state. The object invariant
  allows `state == start` for that reason. When `start` is declared, every reachable state
  is declared (`RunKeepsDeclared`, `Fsm.State`).
- Callbacks take no arguments.

## Model

| member | source | states |
|---|---|---|
| `Lists.IndexOf` | index.js:91 | the result is -1 exactly when the element is absent; otherwise it is the position of its first occurrence |
| `Lists.RemoveFirst` | index.js:91-95 | an absent element leaves the list as it was; otherwise the list is one shorter and loses exactly one copy of that element (multiset) |
| `Lists.IndexOfIsFirst` | index.js:91 | an occurrence with no earlier occurrence is the position `indexOf` reports |
| `Lists.IndexOfAppend` | index.js:78 | pushing an element does not move an earlier occurrence; a new element is found at the old length |
| `Lists.RemoveFirstAt` | index.js:91-95 | removal takes out exactly the first occurrence and keeps every other element in order |
| `Lists.RemoveFirstAfterPush` | index.js:78-95 | removing a just-pushed callback undoes the push when it was not registered before; otherwise the earlier registration goes and the new one stays last |
| `DreamFsm.Lookup` | index.js:50 | `connections[from][to]` is undefined exactly when `to` is not a destination; a found predicate is the one stored with `to` |
| `DreamFsm.FirstEnabled` | index.js:111-121 | the chosen destination's predicate is true and every earlier one is false; no choice means every predicate is false |
| `DreamFsm.UpsertStores` | index.js:54 | after the assignment, `connections[from][to]` is the new predicate |
| `DreamFsm.UpsertKeepsOthers` | index.js:54 | the assignment leaves every other destination's predicate unchanged |
| `DreamFsm.UpsertOrder` | index.js:46-54 | a redefined destination keeps its position, and a new one goes last |
| `DreamFsm.UpsertWellFormed` | index.js:38-54 | a bucket stays non-empty, without duplicates, and holds declared states only |
| `DreamFsm.ConnectTable` | index.js:46-54 | a successful AddConnection sets exactly the `(from, to)` entry; every other pair keeps its predicate or its absence |
| `DreamFsm.StepMoves` | index.js:111-121 | when destination i holds and all earlier ones fail, the step moves there, calling predicates 0..i, then the exit listeners, then the enter listeners |
| `DreamFsm.StepStays` | index.js:111-122 | when no predicate holds, the step calls them all, stays put, and does not halt |
| `DreamFsm.HaltedRunIsNoop` | index.js:102 | once halted, any number of updates keep the machine halted, unmoved and silent |
| `DreamFsm.TerminalStateHalts` | index.js:104-109 | from a state without a bucket the first update halts without moving or calling anything, and so does every later one |
| `DreamFsm.RunWithoutEnabledStays` | index.js:111-122 | when no predicate ever holds, repeated updates never move or halt the machine |
| `DreamFsm.RunKeepsDeclared` | index.js:38-44 | starting from a declared state, every state reached by any run is declared |
| `DreamFsm.StepFollowsDeclaredConnection` | index.js:111-117 | a move goes along a declared connection whose predicate is true, and every destination declared before it had a false predicate |
| `DreamFsm.TransitionEventOrder` | index.js:111-118 | a transition calls its predicates first, each recording the predicate stored for its destination, then each exit registration once in registration order while the old state is current, then each enter registration once in order while the new state is current |
| `DreamFsm.LookupAt` | index.js:50 | in a bucket without duplicate destinations, `connections[from][to]` for a listed destination is the predicate stored with it |
| `DreamFsm.StepCallsStoredPredicates` | index.js:111-115 | every predicate an update calls is the one currently stored for that connection of the current state |
| `DreamFsm.ConnectedPredicateIsCalled` | index.js:54 | after `AddConnection(s, t, p)`, an update from `s` calls only `p` for `s > t`, never a predicate `p` replaced, and an update that moves from `s` to another state `t` has called `p` |
| `DreamFsm.Fsm.constructor` | index.js:6-22 | empty tables, `state` is `start`, not halted, nothing called |
| `DreamFsm.Fsm.State` | index.js:27-29 | the current state is the start state or a declared one, and a declared one whenever the start state is declared |
| `DreamFsm.Fsm.AddConnection` | index.js:37-55 | fails for an unknown `from`, then an unknown `to`, changing nothing; otherwise upserts the predicate and reports whether it overwrote one; listeners, state and halt flag are untouched |
| `DreamFsm.Fsm.AddListener` | index.js:63-79 | defaults the kind to OnEnter; fails for an unknown state, changing nothing; otherwise appends the callback to the end of that one list and calls nothing |
| `DreamFsm.Fsm.RemoveListener` | index.js:87-96 | no-op without a kind, without the list, or without the callback; otherwise removes the first registration from that one list only |
| `DreamFsm.Fsm.Update` | index.js:101-123 | the new halt flag, state and appended calls are those of `Step` on the old state; tables are untouched and the invariant is kept |
| `DreamFsm.Fsm.Transition` | index.js:116-118 | exit listeners of the old state, then the state change, then enter listeners of the new state |
| `DreamFsm.Fsm.FireListeners` | index.js:130-138 | appends one call per registration, in registration order, each seeing the current state |
| `DreamFsmScenarios.ChainTable` | index.js:37-55 | two AddConnection calls build the expected two buckets |
| `DreamFsmScenarios.IdleRunningDone` | index.js:101-123 | Idle moves to Running, then to Done, then halts in Done and stays there |
| `DreamFsmScenarios.FirstDeclaredWins` | index.js:111-121 | with two true predicates, the first declared one wins, the second is never called, and the exit listener runs before the enter listener |
| `DreamFsmScenarios.RedefinitionKeepsPlace` | index.js:46-54 | redefining A > B after A > C keeps B ahead of C |
| `DreamFsmScenarios.RemoveNeedsKind` | index.js:63-96 | a listener added without a kind goes under OnEnter; removing it without a kind leaves it, removing it with OnEnter takes it out |

## Left out

- Exceptions thrown by predicates or listeners are not modelled. Predicates are an oracle
  and listeners only append to the trace. The model therefore has no aborted steps.
- Re-entrant calls are not modelled: a listener or predicate that calls `Update`,
  `AddConnection`, `AddListener` or `RemoveListener` on the same machine mid-step.
- `Object.keys` lists integer-like keys first, in ascending numeric order. The model
  assumes non-numeric state names and keeps first-insertion order.
- State names that are also `Object.prototype` properties (`toString`, `constructor`, …)
  are assumed not to occur. The source would find an inherited value where the model finds
  no bucket or list.
- Non-string states are left out. `Object.keys` returns strings, so after a transition the
  source's `State()` would return the string form of a numeric state.
- Some argument values are left out: a transition function that is `undefined` or not a
  function, and `type` values other than `OnEnter` (0) and `OnExit` (1).
- The `states` array is taken as fixed. The source keeps the caller's array, so a caller
  who later changes that array also changes which states are accepted.
- The text of the thrown errors and of `console.warn` is left out. Only the outcome
  (failed, warned, succeeded) is modelled.
- `intex.ts` is not part of this model. It is an unfinished TypeScript rewrite with empty
  `Update` and remover methods.
