# Loss-system simulator in Dafny

A model of the discrete-event simulator of a loss system (an M/M/N/N queue:
`servers` identical servers and no waiting room), the `Simulator` class of
`simulator/simulator.py`, with proofs of the invariants its event loop keeps.

The simulator keeps a list of pending events, each an arrival or the end of a
service, tagged with the simulated time at which it fires. The run schedules a
primary arrival at the start time and then, until the wall-clock budget is
spent, sorts the list by time, takes the earliest event and handles it:

- an arrival takes a free server and schedules the end of its service, or is
  blocked when every server is taken;
- an end of service frees its server;
- whatever the event was, one new arrival is scheduled.

The project has three modules.

- `EventList` (`events.dfy`): events, the stable sort by time that the
  simulator applies before each extraction (an insertion sort, with its
  order, permutation and head proved), and counts of the events of each kind.
- `LossSpec` (`loss_spec.dfy`): the simulator's state as a value
  (`Snapshot`) and one pass of the loop as functions on it: `Pop`, `Handle`,
  `Step`, and `Simulate` for `n` passes. The loop invariant `Balanced`
  holds these facts together:
  - `0 <= busy <= servers`;
  - one pending end of service per busy server;
  - `1 + served` pending arrivals;
  - `arrivals == 1 + blocked + busy + 2 * served`;
  - simulated time never goes backwards.
  The module proves that every pass keeps the invariant.
- `LossSimulator` (`simulator.dfy`): the class itself. Its fields are the
  source's fields, and its methods change them in place. Each method is proved
  against the functions of `LossSpec`. `Run` ends in the state that
  `After(start, k, …)` describes, where `k` is the number of passes the
  wall-clock readings allow.

Two things outside the program become inputs.

- The random generator becomes `draws`, the sequence of values it would yield,
  in order. `ServeTime` and `ArrivalTime` each take the next value, as both
  draw from the one generator in the source.
- The wall clock becomes `now`, the sequence of readings `Run` takes. `now[0]`
  is the start time. `now[i]` is the reading the stop test sees before the
  `i`-th pass.

The code schedules a new arrival after every handled event, an end of service
included (`simulator/simulator.py:58-60`, outside the `if`/`elif`). So the
number of pending arrivals grows with every completed service: it is
`1 + served`, not one. `Balanced` and `HandleCounts` state the count the code
produces.

## Model

| member | source | states |
|---|---|---|
| LossSimulator.Simulator.End | simulator/simulator.py:22-25 | the stop test: more than `maxTime` seconds separate the given wall-clock reading from the start time |
| EventList.Insert | simulator/simulator.py:72 | one step of the sort: puts an event before the first element that does not fire earlier than it; the result is one element longer |
| EventList.SortByTime | simulator/simulator.py:72 | the sort by time that `pop_list` applies; same length as its input (order and contents in the lemmas below) |
| EventList.InsertSorted | simulator/simulator.py:72 | inserting an event into a time-ordered list keeps it ordered |
| EventList.InsertPermutes | simulator/simulator.py:72 | inserting adds exactly the inserted event to the list's multiset |
| EventList.SortByTimeSorted | simulator/simulator.py:72 | the list sorted by time is in non-decreasing time order |
| EventList.SortByTimePermutes | simulator/simulator.py:72 | sorting neither loses nor adds an event (same multiset) |
| EventList.SortSortedIsIdentity | simulator/simulator.py:72 | sorting a list already in time order returns it unchanged |
| EventList.FirstEarliest | simulator/simulator.py:71-74 | reference definition of the event `pop_list` should return: an index whose event fires no later than any other, with every event before it firing strictly later |
| EventList.SortHeadIsFirstEarliest | simulator/simulator.py:72-74 | the head of the sorted list is the leftmost earliest event, as a stable sort keyed on time leaves it |
| EventList.EarliestFirst | simulator/simulator.py:71-76 | the head of the sorted list is an event of the list that fires no later than any of them, and the tail is the list minus one occurrence of the head, still sorted |
| EventList.CountKindCovers | simulator/simulator.py:45-56 | every pending event is either an arrival or an end of service |
| EventList.CountKindPermutation | simulator/simulator.py:72 | reordering the list (as the sort does) changes no count of events by kind |
| LossSpec.Initial | simulator/simulator.py:31-36 | the state once the run has taken its start time and scheduled the primary arrival at it: no busy server, one arrival, nothing handled |
| LossSpec.Pop | simulator/simulator.py:68-78 | sorts the pending events by time and takes the head off, leaving the sorted tail |
| LossSpec.Handle | simulator/simulator.py:45-60 | handles a popped event: admit to a free server with an end of service tagged `busy + 1`, block when `busy == servers`, or release a server; then schedule the next arrival |
| LossSpec.Step | simulator/simulator.py:39-60 | one pass of the loop: `Handle` applied to the event `Pop` takes off |
| LossSpec.InitialBalanced | simulator/simulator.py:31-36 | the state after the primary arrival is scheduled satisfies the loop invariant |
| LossSpec.NeverEmpty | simulator/simulator.py:74 | under the invariant the list holds `1 + served + busy` events, so it is never empty when `pop_list` indexes it |
| LossSpec.PopJustPopped | simulator/simulator.py:68-78 | taking the earliest event off a balanced list leaves every count right once the taken event is counted, and no pending event earlier than it |
| LossSpec.ProcessedInOrder | simulator/simulator.py:41-42 | the handled event is no earlier than any event handled before it, so handled events stay in time order |
| LossSpec.AdmitBalanced | simulator/simulator.py:45-60 | admitting an arrival to a free server (tag `busy + 1`, within 1..servers) and scheduling the next arrival restores the invariant |
| LossSpec.BlockBalanced | simulator/simulator.py:51-60 | blocking an arrival when `busy == servers` and scheduling the next arrival restores the invariant |
| LossSpec.ReleaseBalanced | simulator/simulator.py:54-60 | ending a service (served + 1, busy - 1) and scheduling the next arrival restores the invariant |
| LossSpec.HandleBalanced | simulator/simulator.py:45-60 | handling any popped event restores the invariant: `0 <= busy <= servers`, pending ends of service equal `busy`, pending arrivals equal `1 + served`, `arrivals == 1 + blocked + busy + 2 * served`, tags within 1..servers, time monotone |
| LossSpec.HandleCounts | simulator/simulator.py:45-60 | each handled event adds exactly one arrival to the counter and to the list whatever its kind; `blocked` changes exactly when the event is an arrival and every server is taken, and then `busy` is unchanged; the change in pending ends of service matches the change in `busy` |
| LossSpec.StepBalanced | simulator/simulator.py:39-60 | one pass of the loop keeps the invariant, raises `arrivals` by exactly one and uses one or two random values |
| LossSpec.StepClock | simulator/simulator.py:41-60 | a pass handles the earliest pending event, appends it to the handled events, and never moves the simulated clock backwards |
| LossSpec.Simulate | simulator/simulator.py:39-60 | after `n` passes `arrivals` has grown by exactly `n`, and between `n` and `2n` random values have been used |
| LossSpec.SimulateBalanced | simulator/simulator.py:39-60 | any number of passes keeps the invariant |
| LossSpec.SimulateStart | simulator/simulator.py:31 | no pass moves the start time |
| LossSpec.After | simulator/simulator.py:31-60 | the state of a run after the primary arrival and `n` passes satisfies the invariant and has `arrivals == n + 1` |
| LossSpec.BlockedBelowArrivals | simulator/simulator.py:66 | under the invariant `0 <= blocked < arrivals`, so the logged ratio never divides by zero |
| LossSpec.StopIndex | simulator/simulator.py:22-25 | the pass count at which the stop test first sees more than `max_time` seconds elapsed: every earlier reading is within the budget |
| LossSimulator.Simulator.constructor | simulator/simulator.py:9-20 | stores the parameters and starts with no busy server, zero counters and an empty event list |
| LossSimulator.Simulator.ServersBusy | simulator/simulator.py:90-93 | while `0 <= busy <= servers`, the result is true exactly when no server is free |
| LossSimulator.Simulator.BlockingRatio | simulator/simulator.py:66 | the logged blocking ratio lies in [0, 1), and is 0 exactly when no arrival has been blocked |
| LossSimulator.Simulator.ServeTime | simulator/simulator.py:80-83 | returns the next value of the random stream and advances it by one |
| LossSimulator.Simulator.ArrivalTime | simulator/simulator.py:85-88 | returns the next value of the random stream and advances it by one |
| LossSimulator.Simulator.PopList | simulator/simulator.py:68-78 | returns the leftmost earliest event, which fires no later than any event in the list, and leaves the list sorted and holding exactly the other events (one fewer) |
| LossSimulator.Simulator.Start | simulator/simulator.py:31-36 | takes the start time and schedules the primary arrival, giving the initial state |
| LossSimulator.Simulator.HandleEvent | simulator/simulator.py:42-61 | changes the fields exactly as `Handle` describes for the popped event |
| LossSimulator.Simulator.Iterate | simulator/simulator.py:39-61 | one pass of the loop takes the state after `n` passes to the state after `n + 1` |
| LossSimulator.Simulator.Run | simulator/simulator.py:27-66 | ends satisfying the invariant after exactly as many passes as the readings allow before the budget is spent, in the state `After` describes |

## Left out

- Logging: the `info` calls are not modelled. The value of `P_block` that the loop logs is `BlockingRatio`.
- LossSimulator.Simulator.ServeTime, LossSimulator.Simulator.ArrivalTime: the failure of a draw with a non-positive rate is not modelled. In the source, `1 / self.mi` and `1 / self.lam` raise `ZeroDivisionError` for a rate of 0, and numpy rejects the negative scale of a negative rate, so a run with `lam <= 0` fails on its first pass and one with `mi <= 0` on its first admission. The model takes any non-negative `draws` and carries on.
- The random generator: `lam` and `mi` are stored, but the exponential distributions are not modelled. The values drawn are the sequence `draws` of non-negative reals.
- The wall clock: `time()` readings are the sequence `now`, taken as an input.
- Floating point: times, durations and the ratio are exact reals, not IEEE doubles.
- Event kinds: the strings `'arrival'` and `'end_of_service_<k>'` become a datatype, so the substring test on line 54 is a constructor test.
- LossSimulator.Simulator.Run: modelled for the first call on a freshly constructed simulator. It requires a last reading past the budget and enough draws for every pass those readings allow; a second call on the same object is not modelled.
- LossSimulator.Simulator.constructor: `servers` is a natural number. With a negative count, `busy == servers` never holds, so every arrival is admitted and `busy` grows without bound; that case is not modelled.
- LossSimulator.Simulator.Iterate: its ghost parameters name the start time and the pass number; the method itself is the body of the source loop.
- EventList.SortByTime: stands for `list.sort(key=...)`. The proofs cover order, permutation and which event comes first; the relative order of the remaining equal-time events is not stated.
- `simulator/main.py` is not part of this model. It loads configuration, runs repetitions in a process pool, seeds the generator and calls a constructor signature and a `get_result` method that `simulator/simulator.py` does not have.
- `simulator/utils.py` (logger set-up) and `setup.py` (packaging) are not part of this model.
- The Erlang-B formula and its inversion `get_max_traffic` are not part of this model: their source is not in the repository's files.
