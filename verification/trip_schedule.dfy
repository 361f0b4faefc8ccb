/** The transit-mixer trip scheduler: from a start minute, a total batch
    quantity, a per-trip quantity, four fixed durations and a fleet size, it
    builds the ordered list of trips with the timestamp of every phase of each
    trip's cycle and the running delivered quantity.

    All times are whole minutes from an arbitrary zero point. */
module TripSchedule {
  import Arith

  /** The scheduler's inputs, in the scheduler's argument order. */
  datatype Params = Params(
    startTime: nat,     // minute the first trip may start loading
    batchQty: nat,      // total quantity required
    pourTime: nat,      // loading time at the plant
    travelTime: nat,    // one-way plant <-> site travel time
    pumpInterval: nat,  // discharge (pumping) time at the site
    bufferTime: nat,    // hold time at the site before pumping starts
    qtyPerTrip: nat,    // quantity carried by one trip
    numVehicles: nat    // size of the fleet, used for round-robin labels
  )

  /** The input bounds of the scheduler's form: the per-trip quantity and the
      fleet size are at least one; every other input is at least zero. */
  predicate ValidParams(p: Params) {
    p.qtyPerTrip >= 1 && p.numVehicles >= 1
  }

  /** One row of the schedule, with the fields in the schedule table's column order. */
  datatype Trip = Trip(
    tripNo: nat,
    vehicleNo: nat,
    workStart: nat,
    plantStart: nat,
    siteReach: nat,
    pumpStart: nat,
    siteLeft: nat,
    bufferTime: nat,
    plantReach: nat,
    roundTrip: int,
    qtyPerTrip: nat,
    cumulativeQty: nat
  )

  /** Number of trips the schedule holds: whole trips only. */
  function TripCount(p: Params): nat
    requires ValidParams(p)
  {
    p.batchQty / p.qtyPerTrip
  }

  /** Minutes from a trip's work start until it leaves the site. */
  function SiteCycleTime(p: Params): nat {
    p.pourTime + p.travelTime + p.bufferTime + p.pumpInterval
  }

  /** Minutes from a trip's work start until it is back at the plant. */
  function RoundTripTime(p: Params): nat {
    p.pourTime + 2 * p.travelTime + p.bufferTime + p.pumpInterval
  }

  /** Round-robin label of trip `i` (0-based): 1, 2, ..., n, 1, 2, ... */
  function VehicleLabel(p: Params, i: nat): (v: nat)
    requires ValidParams(p)
    ensures 1 <= v <= p.numVehicles
    ensures v == 1 <==> i % p.numVehicles == 0
  {
    i % p.numVehicles + 1
  }

  /** The five phases of a trip, each a fixed duration after the one before. */
  predicate PhaseChain(p: Params, t: Trip) {
    && t.plantStart == t.workStart + p.pourTime
    && t.siteReach == t.plantStart + p.travelTime
    && t.pumpStart == t.siteReach + p.bufferTime
    && t.siteLeft == t.pumpStart + p.pumpInterval
    && t.plantReach == t.siteLeft + p.travelTime
  }

  /** Trip `i` (0-based) as the scheduler records it: numbered from 1,
      labelled round-robin, its phases chained by the fixed durations, the
      buffer time and per-trip quantity echoed from the inputs, the round trip
      equal to the sum of the cycle's durations and the cumulative quantity
      counting `i + 1` whole trips. */
  predicate TripShape(p: Params, i: nat, t: Trip)
    requires ValidParams(p)
  {
    && t.tripNo == i + 1
    && t.vehicleNo == i % p.numVehicles + 1
    && PhaseChain(p, t)
    && t.roundTrip == p.pourTime + 2 * p.travelTime + p.bufferTime + p.pumpInterval
    && t.bufferTime == p.bufferTime
    && t.qtyPerTrip == p.qtyPerTrip
    && t.cumulativeQty == (i + 1) * p.qtyPerTrip
  }

  /** Every timestamp of a trip is no earlier than the one before it. */
  predicate PhasesOrdered(t: Trip) {
    t.workStart <= t.plantStart <= t.siteReach <= t.pumpStart <= t.siteLeft <= t.plantReach
  }

  /** The trip record for index `i` with the given work start and cumulative
      quantity: the phase times follow by adding the fixed durations. */
  function BuildTrip(p: Params, i: nat, workStart: nat, cumulative: nat): (t: Trip)
    requires ValidParams(p)
    ensures PhaseChain(p, t) && PhasesOrdered(t)
    ensures t.siteLeft == workStart + SiteCycleTime(p)
    ensures t.plantReach == workStart + RoundTripTime(p)
    ensures t.roundTrip == RoundTripTime(p)
  {
    var plantStart := workStart + p.pourTime;
    var siteReach := plantStart + p.travelTime;
    var pumpStart := siteReach + p.bufferTime;
    var siteLeft := pumpStart + p.pumpInterval;
    var plantReach := siteLeft + p.travelTime;
    Trip(i + 1, VehicleLabel(p, i), workStart, plantStart, siteReach, pumpStart,
         siteLeft, p.bufferTime, plantReach, plantReach - workStart, p.qtyPerTrip, cumulative)
  }

  // ---------------------------------------------------------------------------
  // Reference definition: every trip in closed form.

  /** Work start of trip `i`: within a block of `n` consecutive trips each trip
      starts when the one before it leaves the site; the first trip of a block
      starts when the first trip of the previous block is back at the plant. */
  function ExpectedWorkStart(p: Params, i: nat): nat
    requires ValidParams(p)
  {
    p.startTime + (i / p.numVehicles) * RoundTripTime(p) + (i % p.numVehicles) * SiteCycleTime(p)
  }

  /** Trip `i` in closed form. */
  function ExpectedTrip(p: Params, i: nat): Trip
    requires ValidParams(p)
  {
    BuildTrip(p, i, ExpectedWorkStart(p, i), (i + 1) * p.qtyPerTrip)
  }

  /** What the availability slot of label `v + 1` holds once the first `i`
      trips are built: the plant-reach time of the latest such trip, or the
      start time while that label has had no trip. */
  function ExpectedSlot(p: Params, i: nat, v: nat): nat
    requires ValidParams(p) && v < p.numVehicles
  {
    var c := Arith.ResidueCount(i, p.numVehicles, v);
    if c == 0 then p.startTime else p.startTime + c * RoundTripTime(p) + v * SiteCycleTime(p)
  }

  // ---------------------------------------------------------------------------
  // The scheduling loop, as an accumulator threaded through the trip indices.

  /** Loop state: trips built so far, the running quantity, and one
      availability slot per vehicle label. */
  datatype Acc = Acc(trips: seq<Trip>, cumulativeQty: nat, nextAvailable: seq<nat>)

  /** Loop state before the first trip: every vehicle is available at the start time. */
  function InitialAcc(p: Params): (acc: Acc)
    requires ValidParams(p)
    ensures |acc.nextAvailable| == p.numVehicles
    ensures forall v :: 0 <= v < p.numVehicles ==> acc.nextAvailable[v] == p.startTime
  {
    Acc([], 0, seq(p.numVehicles, _ => p.startTime))
  }

  /** Shape of the loop state before trip `i` is built. */
  predicate AccShape(p: Params, i: nat, acc: Acc) {
    |acc.trips| == i && |acc.nextAvailable| == p.numVehicles
  }

  /** One loop iteration: build trip `i` and record it. A label-1 trip starts
      at vehicle 1's availability slot; any other trip starts when the
      previously built trip leaves the site. The trip's own slot then moves
      to its plant-reach time. */
  function Step(p: Params, i: nat, acc: Acc): (next: Acc)
    requires ValidParams(p) && AccShape(p, i, acc)
    ensures AccShape(p, i + 1, next)
    ensures next.trips[..i] == acc.trips
    ensures next.cumulativeQty == acc.cumulativeQty + p.qtyPerTrip
    ensures forall v :: 0 <= v < p.numVehicles && v != i % p.numVehicles ==>
              next.nextAvailable[v] == acc.nextAvailable[v]
    ensures next.nextAvailable[i % p.numVehicles] == next.trips[i].plantReach
    ensures i % p.numVehicles == 0 ==> next.trips[i].workStart == acc.nextAvailable[0]
    ensures i % p.numVehicles != 0 ==> i >= 1 && next.trips[i].workStart == acc.trips[i - 1].siteLeft
  {
    var vehicleNo := VehicleLabel(p, i);
    var workStart :=
      if vehicleNo == 1 then acc.nextAvailable[vehicleNo - 1]
      else acc.trips[|acc.trips| - 1].siteLeft;
    var cumulative := acc.cumulativeQty + p.qtyPerTrip;
    var trip := BuildTrip(p, i, workStart, cumulative);
    Acc(acc.trips + [trip], cumulative, acc.nextAvailable[vehicleNo - 1 := trip.plantReach])
  }

  /** What the loop state holds before trip `i`: the trips so far agree with
      the closed form, the running quantity counts whole trips, and each
      availability slot holds its label's latest plant-reach time. */
  predicate LoopInvariant(p: Params, i: nat, acc: Acc)
    requires ValidParams(p)
  {
    && AccShape(p, i, acc)
    && i <= TripCount(p)
    && acc.cumulativeQty == i * p.qtyPerTrip
    && (forall j :: 0 <= j < i ==> acc.trips[j] == ExpectedTrip(p, j))
    && (forall v :: 0 <= v < p.numVehicles ==> acc.nextAvailable[v] == ExpectedSlot(p, i, v))
  }

  /** The work start `Step` picks for trip `i` is the closed-form one. */
  lemma StepWorkStart(p: Params, i: nat, acc: Acc)
    requires ValidParams(p) && LoopInvariant(p, i, acc) && i < TripCount(p)
    ensures Step(p, i, acc).trips[i].workStart == ExpectedWorkStart(p, i)
  {
    var n := p.numVehicles;
    if i % n == 0 {
      Arith.ResidueCountStep(i, n, 0);
      assert acc.nextAvailable[0] == ExpectedSlot(p, i, 0);
    } else {
      Arith.PredSameBlock(i, n);
      var prev := acc.trips[i - 1];
      assert prev == ExpectedTrip(p, i - 1);
      calc {
        prev.siteLeft;
        ExpectedWorkStart(p, i - 1) + SiteCycleTime(p);
        p.startTime + (i / n) * RoundTripTime(p) + (i % n - 1) * SiteCycleTime(p) + SiteCycleTime(p);
        ExpectedWorkStart(p, i);
      }
    }
  }

  /** One iteration moves the slot of trip `i`'s own label to that trip's
      plant-reach time, which is the slot's expected value after the trip. */
  lemma StepOwnSlot(p: Params, i: nat, acc: Acc)
    requires ValidParams(p) && LoopInvariant(p, i, acc) && i < TripCount(p)
    ensures Step(p, i, acc).nextAvailable[i % p.numVehicles] == ExpectedSlot(p, i + 1, i % p.numVehicles)
  {
    var n, v := p.numVehicles, i % p.numVehicles;
    StepWorkStart(p, i, acc);
    Arith.ResidueCountStep(i, n, v);
    var c := Arith.ResidueCount(i, n, v);
    Arith.MulSucc(c, RoundTripTime(p));
  }

  /** One iteration leaves the slots of the other labels alone, and their
      expected values do not move either. */
  lemma StepOtherSlot(p: Params, i: nat, acc: Acc, v: nat)
    requires ValidParams(p) && LoopInvariant(p, i, acc) && i < TripCount(p)
    requires v < p.numVehicles && v != i % p.numVehicles
    ensures Step(p, i, acc).nextAvailable[v] == ExpectedSlot(p, i + 1, v)
  {
    Arith.ResidueCountStep(i, p.numVehicles, v);
  }

  /** One iteration keeps the loop invariant. */
  lemma StepKeepsInvariant(p: Params, i: nat, acc: Acc)
    requires ValidParams(p) && LoopInvariant(p, i, acc) && i < TripCount(p)
    ensures LoopInvariant(p, i + 1, Step(p, i, acc))
  {
    var next := Step(p, i, acc);
    StepWorkStart(p, i, acc);
    assert next.trips[i] == ExpectedTrip(p, i);
    assert next.cumulativeQty == i * p.qtyPerTrip + p.qtyPerTrip == (i + 1) * p.qtyPerTrip;
    forall j | 0 <= j < i + 1
      ensures next.trips[j] == ExpectedTrip(p, j)
    {
      if j < i {
        assert next.trips[j] == next.trips[..i][j];
      }
    }
    forall v | 0 <= v < p.numVehicles
      ensures next.nextAvailable[v] == ExpectedSlot(p, i + 1, v)
    {
      if v == i % p.numVehicles {
        StepOwnSlot(p, i, acc);
      } else {
        StepOtherSlot(p, i, acc, v);
      }
    }
  }

  /** Runs the loop from trip `i` to the last trip. */
  function RunFrom(p: Params, i: nat, acc: Acc): (trips: seq<Trip>)
    requires ValidParams(p) && LoopInvariant(p, i, acc)
    ensures |trips| == TripCount(p)
    ensures forall j :: 0 <= j < |trips| ==> trips[j] == ExpectedTrip(p, j)
    decreases TripCount(p) - i
  {
    if i == TripCount(p) then acc.trips
    else
      StepKeepsInvariant(p, i, acc);
      RunFrom(p, i + 1, Step(p, i, acc))
  }

  /** The schedule: one trip per whole per-trip quantity in the total, trip
      `i` as given by the closed form. A trip whose label is not 1 starts when the trip
      before it leaves the site; a label-1 trip starts at the start time if it
      is the first, and otherwise when the label-1 trip `n` places earlier is
      back at the plant. */
  function CalculateTripTimes(p: Params): (trips: seq<Trip>)
    requires ValidParams(p)
    ensures |trips| == p.batchQty / p.qtyPerTrip
    ensures forall i :: 0 <= i < |trips| ==> trips[i] == ExpectedTrip(p, i)
    ensures |trips| > 0 ==> trips[0].workStart == p.startTime
    ensures forall i :: 0 < i < |trips| && trips[i].vehicleNo != 1 ==>
              trips[i].workStart == trips[i - 1].siteLeft
    ensures forall i :: p.numVehicles <= i < |trips| && trips[i].vehicleNo == 1 ==>
              trips[i].workStart == trips[i - p.numVehicles].plantReach
  {
    var trips := RunFrom(p, 0, InitialAcc(p));
    ClosedFormStartRules(p);
    trips
  }

  /** Every row of the schedule has the shape the scheduler records: number,
      round-robin label within `1..n`, chained and ordered phase times, echoed
      inputs, round trip and cumulative quantity. */
  lemma ScheduleRows(p: Params)
    requires ValidParams(p)
    ensures var trips := CalculateTripTimes(p);
            forall i :: 0 <= i < |trips| ==>
              TripShape(p, i, trips[i]) && PhasesOrdered(trips[i]) && 1 <= trips[i].vehicleNo <= p.numVehicles
  {
    ClosedFormShape(p);
  }

  /** Every closed-form trip has the shape the scheduler records. */
  lemma ClosedFormShape(p: Params)
    requires ValidParams(p)
    ensures forall i: nat :: TripShape(p, i, ExpectedTrip(p, i)) && PhasesOrdered(ExpectedTrip(p, i))
  {
  }

  /** The start rules hold of the closed form at every index. */
  lemma ClosedFormStartRules(p: Params)
    requires ValidParams(p)
    ensures ExpectedTrip(p, 0).workStart == p.startTime
    ensures forall i: nat :: i % p.numVehicles != 0 ==>
              i >= 1 && ExpectedTrip(p, i).workStart == ExpectedTrip(p, i - 1).siteLeft
    ensures forall i: nat :: i % p.numVehicles == 0 && i >= p.numVehicles ==>
              ExpectedTrip(p, i).workStart == ExpectedTrip(p, i - p.numVehicles).plantReach
  {
    forall i: nat | i % p.numVehicles != 0
      ensures i >= 1 && ExpectedTrip(p, i).workStart == ExpectedTrip(p, i - 1).siteLeft
    {
      ChainedStart(p, i);
    }
    forall i: nat | i % p.numVehicles == 0 && i >= p.numVehicles
      ensures ExpectedTrip(p, i).workStart == ExpectedTrip(p, i - p.numVehicles).plantReach
    {
      LabelOneStart(p, i);
    }
  }

  // ---------------------------------------------------------------------------
  // The start rules, stated on the closed form.

  /** A trip whose label is not 1 is never the first trip, and it starts when
      the trip just before it leaves the site. */
  lemma ChainedStart(p: Params, i: nat)
    requires ValidParams(p) && i % p.numVehicles != 0
    ensures i >= 1
    ensures ExpectedTrip(p, i).workStart == ExpectedTrip(p, i - 1).siteLeft
  {
    Arith.PredSameBlock(i, p.numVehicles);
    var n := p.numVehicles;
    calc {
      ExpectedTrip(p, i - 1).siteLeft;
      p.startTime + (i / n) * RoundTripTime(p) + (i % n - 1) * SiteCycleTime(p) + SiteCycleTime(p);
      ExpectedTrip(p, i).workStart;
    }
  }

  /** A label-1 trip after the first block starts when the label-1 trip one
      block earlier is back at the plant. */
  lemma LabelOneStart(p: Params, i: nat)
    requires ValidParams(p) && i % p.numVehicles == 0 && i >= p.numVehicles
    ensures ExpectedTrip(p, i).workStart == ExpectedTrip(p, i - p.numVehicles).plantReach
  {
    var n := p.numVehicles;
    Arith.PredBlock(i, n);
    var q := i / n;
    calc {
      ExpectedTrip(p, i - n).plantReach;
      p.startTime + (q - 1) * RoundTripTime(p) + RoundTripTime(p);
      { assert (q - 1) * RoundTripTime(p) + RoundTripTime(p) == q * RoundTripTime(p); }
      ExpectedTrip(p, i).workStart;
    }
  }
}
