/**
 * Discrete-event simulator of a loss system: `servers` identical servers and
 * no waiting room. An arrival that finds every server taken is blocked.
 */
module LossSimulator {
  import opened EventList
  import opened LossSpec

  class Simulator {
    const lam: real       // arrival rate
    const mi: real        // service rate
    const servers: nat    // number of servers
    const maxTime: real   // wall-clock budget of a run, in seconds
    /** The values the random generator yields, in the order they are drawn. */
    const draws: seq<Duration>

    var busy: int         // servers currently serving
    var startTime: real   // wall-clock reading taken when the run starts
    var arrivals: nat     // arrivals generated so far
    var blocked: nat      // arrivals rejected so far
    var served: nat       // services completed so far
    var eventList: seq<Event>
    var drawn: nat        // how many values have been drawn

    /** Events handled so far, in the order the loop took them. */
    ghost var processed: seq<Event>
    /** Simulated time of the last handled event (the start time before the first). */
    ghost var clock: real

    /** The state of the simulator as a value. */
    ghost function Snap(): Snapshot
      reads this
    {
      Snapshot(busy, arrivals, blocked, served, eventList, drawn, startTime, processed, clock)
    }

    /** The state of a running simulation, as the event loop keeps it. */
    ghost predicate Valid()
      reads this
    {
      Balanced(Snap(), servers) && drawn <= |draws|
    }

    constructor (lam: real, mi: real, servers: nat, maxTime: real, draws: seq<Duration>)
      ensures this.lam == lam && this.mi == mi && this.servers == servers
      ensures this.maxTime == maxTime && this.draws == draws
      ensures busy == 0 && startTime == 0.0
      ensures arrivals == 0 && blocked == 0 && served == 0
      ensures eventList == [] && drawn == 0 && processed == []
    {
      this.lam := lam;
      this.mi := mi;
      this.servers := servers;
      this.maxTime := maxTime;
      this.draws := draws;
      busy := 0;
      startTime := 0.0;
      arrivals := 0;
      blocked := 0;
      served := 0;
      eventList := [];
      drawn := 0;
      processed := [];
      clock := 0.0;
    }

    /** The stop test, given the wall-clock reading `reading`: more than
        `maxTime` seconds have passed since the run started. */
    predicate End(reading: real)
      reads this
    {
      reading - startTime > maxTime
    }

    /** Whether every server is taken. The test is `busy == servers`, which,
        as long as `busy` never exceeds `servers`, means no server is free. */
    function ServersBusy(): (full: bool)
      reads this
      ensures 0 <= busy <= servers ==> (full <==> busy >= servers)
    {
      busy == servers
    }

    /** Blocked arrivals over all arrivals, the blocking probability the loop
        reports after every event. */
    function BlockingRatio(): (p: real)
      reads this
      requires Valid()
      ensures 0.0 <= p < 1.0
      ensures p == 0.0 <==> blocked == 0
    {
      BlockedBelowArrivals(Snap(), servers);
      blocked as real / arrivals as real
    }

    /** Duration of a service: the next value of the random stream. */
    method ServeTime() returns (d: Duration)
      requires drawn < |draws|
      modifies this`drawn
      ensures d == draws[old(drawn)] && drawn == old(drawn) + 1
    {
      d := draws[drawn];
      drawn := drawn + 1;
    }

    /** Gap until the next arrival: the next value of the random stream. */
    method ArrivalTime() returns (d: Duration)
      requires drawn < |draws|
      modifies this`drawn
      ensures d == draws[old(drawn)] && drawn == old(drawn) + 1
    {
      d := draws[drawn];
      drawn := drawn + 1;
    }

    /** Sorts the list by time, in place, and takes its first event off. */
    method PopList() returns (ev: Event)
      requires eventList != []
      modifies this`eventList
      ensures ev == SortByTime(old(eventList))[0]
      ensures eventList == SortByTime(old(eventList))[1..]
      ensures ev == old(eventList)[FirstEarliest(old(eventList))]
      ensures forall e :: e in old(eventList) ==> NotBefore(e, ev.time)
      ensures multiset(eventList) + multiset{ev} == multiset(old(eventList))
      ensures |eventList| == |old(eventList)| - 1
      ensures Sorted(eventList)
    {
      EarliestFirst(eventList);
      SortHeadIsFirstEarliest(eventList);
      eventList := SortByTime(eventList);
      ev := eventList[0];
      eventList := eventList[1..];
    }

    /** Takes the start time from the wall clock and schedules the primary
        arrival at that time. */
    method Start(reading: real)
      requires busy == 0 && arrivals == 0 && blocked == 0 && served == 0
      requires eventList == [] && drawn == 0 && processed == []
      modifies this
      ensures Snap() == Initial(reading)
    {
      startTime := reading;
      clock := startTime;
      eventList := eventList + [Event(Arrival, startTime)];
      arrivals := arrivals + 1;
    }

    /** Runs the event loop. `now` holds the successive wall-clock readings:
        `now[0]` is taken as the start time and `now[i]`, for `i >= 1`, is the
        one the stop test sees before the `i`-th pass of the loop. */
    method Run(now: seq<real>)
      requires busy == 0 && arrivals == 0 && blocked == 0 && served == 0
      requires eventList == [] && drawn == 0 && processed == []
      requires 2 <= |now| && now[|now| - 1] - now[0] > maxTime
      requires 2 * (|now| - 2) <= |draws|
      modifies this
      ensures Valid() && startTime == now[0]
      ensures arrivals == StopIndex(now, maxTime, 1) && End(now[arrivals])
      ensures Snap() == After(now[0], arrivals - 1, servers, draws)
    {
      Start(now[0]);
      var i := 1;
      while !End(now[i])
        invariant 1 <= i < |now|
        invariant 2 * (i - 1) <= |draws|
        invariant Snap() == After(now[0], i - 1, servers, draws)
        invariant StopIndex(now, maxTime, i) == StopIndex(now, maxTime, 1)
        decreases |now| - i
      {
        assert i != |now| - 1 by {
          assert now[i] - now[0] <= maxTime < now[|now| - 1] - now[0];
        }
        Iterate(now[0], i - 1);
        i := i + 1;
      }
    }

    /** One pass of the event loop: takes the earliest event off the list and
        handles it. */
    method Iterate(ghost start: real, ghost n: nat)
      requires 2 * (n + 1) <= |draws|
      requires Snap() == After(start, n, servers, draws)
      modifies this
      ensures Snap() == After(start, n + 1, servers, draws)
    {
      ghost var before := Snap();
      InitialBalanced(start, servers);
      NeverEmpty(before, servers);
      var ev := PopList();
      HandleEvent(ev);
      assert Snap() == Step(before, servers, draws);
    }

    /** Handles the event `ev` the loop has just taken off the list, then
        schedules the next arrival whatever `ev` was. */
    method HandleEvent(ev: Event)
      requires drawn + 2 <= |draws|
      modifies this
      ensures Snap() == Handle(old(Snap()), ev, servers, draws)
    {
      var evKind, evTime := ev.kind, ev.time;

      if evKind == Arrival {
        if !ServersBusy() {
          var d := ServeTime();
          eventList := eventList + [Event(EndOfService(busy + 1), evTime + d)];
          busy := busy + 1;
        } else {
          blocked := blocked + 1;
        }
      } else {
        served := served + 1;
        busy := busy - 1;
      }

      var g := ArrivalTime();
      eventList := eventList + [Event(Arrival, evTime + g)];
      arrivals := arrivals + 1;

      processed := processed + [ev];
      clock := evTime;
    }
  }
}
