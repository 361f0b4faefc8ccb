/** Consequences of the scheduler's contract: the quantity it drops, the
    single-vehicle case, a worked schedule, and a schedule in which the trips'
    start times are not in trip order. */
module ScheduleProperties {
  import opened TripSchedule
  import Arith

  /** The schedule is empty exactly when the total is below one trip's
      quantity; otherwise the last trip's cumulative quantity is the total with
      the part-trip remainder dropped. */
  lemma DroppedRemainder(p: Params)
    requires ValidParams(p)
    ensures |CalculateTripTimes(p)| == 0 <==> p.batchQty < p.qtyPerTrip
    ensures var trips := CalculateTripTimes(p);
            |trips| > 0 ==>
              && trips[|trips| - 1].cumulativeQty <= p.batchQty
              && p.batchQty - trips[|trips| - 1].cumulativeQty < p.qtyPerTrip
  {
    var trips := CalculateTripTimes(p);
    if |trips| > 0 {
      var last := trips[|trips| - 1];
      assert last.cumulativeQty == (p.batchQty / p.qtyPerTrip) * p.qtyPerTrip;
    }
  }

  /** With a single vehicle every trip is labelled 1, and each trip after the
      first starts when the trip before it is back at the plant. */
  lemma SingleVehicleChain(p: Params)
    requires ValidParams(p) && p.numVehicles == 1
    ensures var trips := CalculateTripTimes(p);
            forall i :: 0 <= i < |trips| ==> trips[i].vehicleNo == 1
    ensures var trips := CalculateTripTimes(p);
            forall i :: 1 <= i < |trips| ==> trips[i].workStart == trips[i - 1].plantReach
  {
    var trips := CalculateTripTimes(p);
    forall i | 0 <= i < |trips|
      ensures trips[i].vehicleNo == 1
      ensures i >= 1 ==> trips[i].workStart == trips[i - 1].plantReach
    {
      assert trips[i] == ExpectedTrip(p, i);
    }
  }

  /** Trip `i`'s work start for an index written as `q` whole blocks of `n`
      trips plus `r`. */
  lemma WorkStartAt(p: Params, i: nat, q: nat, r: nat)
    requires ValidParams(p) && r < p.numVehicles && i == q * p.numVehicles + r
    ensures ExpectedWorkStart(p, i) == p.startTime + q * RoundTripTime(p) + r * SiteCycleTime(p)
  {
    Arith.DivModUnique(i, p.numVehicles, q, r);
  }

  /** Start minute 300, 40 units in trips of 10 (or any total up to 49: the
      part-trip remainder is dropped), pour 5, travel 20, pump 15, buffer 5,
      two vehicles. The third trip (label 1) starts at 365, when the
      first trip is back at the plant, and not at 390, when the second trip
      leaves the site. */
  lemma WorkedExample(p: Params)
    requires p.startTime == 300 && 40 <= p.batchQty < 50 && p.pourTime == 5 && p.travelTime == 20
    requires p.pumpInterval == 15 && p.bufferTime == 5 && p.qtyPerTrip == 10 && p.numVehicles == 2
    ensures var trips := CalculateTripTimes(p);
            && |trips| == 4
            && trips[0] == Trip(1, 1, 300, 305, 325, 330, 345, 5, 365, 65, 10, 10)
            && trips[1].vehicleNo == 2 && trips[1].workStart == 345 && trips[1].cumulativeQty == 20
            && trips[2].vehicleNo == 1 && trips[2].workStart == 365 && trips[2].cumulativeQty == 30
            && trips[3].vehicleNo == 2 && trips[3].workStart == 410 && trips[3].cumulativeQty == 40
            && trips[1].siteLeft == 390 && trips[2].workStart != trips[1].siteLeft
  {
    var trips := CalculateTripTimes(p);
    WorkStartAt(p, 0, 0, 0);
    WorkStartAt(p, 1, 0, 1);
    WorkStartAt(p, 2, 1, 0);
    WorkStartAt(p, 3, 1, 1);
    assert trips[0] == ExpectedTrip(p, 0);
    assert trips[1] == ExpectedTrip(p, 1);
    assert trips[2] == ExpectedTrip(p, 2);
    assert trips[3] == ExpectedTrip(p, 3);
  }

  /** Start times are not in trip order in general: with three vehicles, no
      pour or buffer time, travel 10 and pump 10, the fourth trip (label 1)
      starts at minute 30, before the third trip, which starts at 40, whenever
      the total covers at least four trips of one unit. */
  lemma StartsNotInTripOrder(p: Params)
    requires p.startTime == 0 && p.batchQty >= 4 && p.pourTime == 0 && p.travelTime == 10
    requires p.pumpInterval == 10 && p.bufferTime == 0 && p.qtyPerTrip == 1 && p.numVehicles == 3
    ensures var trips := CalculateTripTimes(p);
            |trips| >= 4 && trips[2].workStart == 40 && trips[3].workStart == 30
  {
    var trips := CalculateTripTimes(p);
    WorkStartAt(p, 2, 0, 2);
    WorkStartAt(p, 3, 1, 0);
    assert trips[2] == ExpectedTrip(p, 2);
    assert trips[3] == ExpectedTrip(p, 3);
  }
}
