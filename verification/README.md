# Transit-mixer trip scheduler, modelled in Dafny

This project models the core of a transit-mixer (TM) trip scheduler. The
scheduler takes eight inputs:

- a start minute
- a total batch quantity
- a quantity per trip
- a pour (loading) time, a one-way travel time, a pumping interval and a buffer time
- a number of vehicles

It builds one trip record per whole per-trip quantity in the total. Each
record holds the trip number, a round-robin vehicle label, the six
timestamps of the trip's cycle, the echoed buffer time and per-trip
quantity, the round-trip time and the cumulative quantity. The first
timestamp is the work start; the others are plant start, site reach, pump
start, site left and plant reach. The model also covers the helper that
shows a minute offset as `HH:MM`.

The modules are:

- `TripSchedule` (`trip_schedule.dfy`) models `calculate_trip_times`.
  - `Params` and `Trip` are fixed-shape datatypes. A trip record is a `Trip`, not a dictionary.
  - The loop is an accumulator `Acc`. It threads the trips built so far, the cumulative quantity and the per-vehicle availability slots through `Step`, one call per trip index, driven by `RunFrom`.
  - `Step` keeps the scheduler's asymmetric start rule exactly. A label-1 trip reads vehicle 1's availability slot. Any other trip starts at the previous trip's site-left time. Every trip then writes its own label's slot.
  - `ExpectedTrip` is an independent closed-form reference. It is built from `ExpectedWorkStart(p, i) = start + (i / n) * R + (i % n) * D`, where `n` is the number of vehicles, `R = pour + 2*travel + buffer + pump` is the round trip and `D = pour + travel + buffer + pump` is the time from work start to leaving the site.
  - The loop is proved equal to the closed form, trip by trip. The invariant also gives every availability slot a closed form, `ExpectedSlot`, including the slots that are written but never read.
- `ScheduleProperties` (`schedule_properties.dfy`) holds consequences of the scheduler's contract:
  - the dropped remainder
  - the single-vehicle chain
  - the worked schedule (start 300, total 40, trips of 10, two vehicles): work starts 300, 345, 365, 410
  - a schedule whose start times are not in trip order
- `TimeFormat` (`time_format.dfy`) models `format_time`. `ParseTime` reads a display back into minutes, and a round-trip lemma links the two.
- `Arith` (`arith.dfy`) holds facts about Euclidean quotient and remainder that relate the labels of neighbouring trips.

Inputs are `nat`. The preconditions are the form's `min_value` bounds: the
per-trip quantity and the vehicle count are at least 1. Python `//` and `%`
on these non-negative values agree with Dafny's `/` and `%`.

In the worked schedule the third trip (label 1) starts at 365, when the
first trip is back at the plant, and not at 390, when the second trip leaves
the site: a label-1 trip reads vehicle 1's availability slot, not the
previous trip. `ScheduleProperties.WorkedExample` proves both values.

`calculate_trip_times` needs no lower bound on the total quantity, because a
total below one trip gives an empty list; the model therefore accepts a total
of 0, although the form itself asks for at least 1 (tm.py:67).

## Model

| member | source | states |
|---|---|---|
| TripSchedule.VehicleLabel | tm.py:13 | A trip's vehicle label lies in `1..num_vehicles`, and it is 1 exactly when the trip index is a multiple of the fleet size. |
| TripSchedule.BuildTrip | tm.py:21-44 | The five phase times follow from the work start by adding pour, travel, buffer, pump and travel in turn, so they never decrease. The trip leaves the site `D` minutes after its work start and is back at the plant `R` minutes after it. The recorded round-trip time equals `pour + 2*travel + buffer + pump`. |
| TripSchedule.InitialAcc | tm.py:7-9 | Before the first trip there is one availability slot per vehicle, and every slot holds the start time. |
| TripSchedule.Step | tm.py:12-46 | One iteration appends exactly one trip and keeps the earlier trips. It adds one per-trip quantity to the running total. A label-1 trip starts at the time held in vehicle 1's slot; a trip with any other label is not the first and starts at the previous trip's site-left time. It moves the slot of the trip's own label to that trip's plant-reach time and leaves every other slot unchanged. |
| TripSchedule.StepWorkStart | tm.py:15-19 | Under the loop invariant, the work start an iteration picks equals the closed form. |
| TripSchedule.StepOwnSlot | tm.py:27 | After a trip, its own label's slot holds the plant-reach time of the latest trip with that label. |
| TripSchedule.StepOtherSlot | tm.py:27 | A trip leaves the other labels' slots at their expected values. |
| TripSchedule.StepKeepsInvariant | tm.py:11-46 | One iteration keeps three facts: trips agree with the closed form, the running quantity is the number of trips times the per-trip quantity, and every slot holds its label's latest plant-reach time (the start time if that label has had no trip). |
| TripSchedule.RunFrom | tm.py:11-48 | Running the loop to the end gives `batch_qty // qty_per_trip` trips, each equal to its closed form. |
| TripSchedule.CalculateTripTimes | tm.py:6-48 | The schedule has `batch_qty // qty_per_trip` trips, each equal to the closed form. The first trip starts at the start time. A trip whose label is not 1 starts when the previous trip leaves the site. A label-1 trip after the first round of `n` trips starts when the label-1 trip `n` places earlier is back at the plant. |
| TripSchedule.ScheduleRows | tm.py:12-44 | Trip `i` has number `i + 1` and label `i % n + 1` within `1..n`. Its phases are chained and ordered. The buffer time and per-trip quantity echo the inputs. The round trip is `pour + 2*travel + buffer + pump`. The cumulative quantity is `(i + 1) * qty_per_trip`. |
| TripSchedule.ClosedFormShape | tm.py:21-44 | Every closed-form trip has the recorded shape described for `ScheduleRows`. |
| TripSchedule.ClosedFormStartRules | tm.py:15-19 | At every index, the closed form obeys the start rules: trip 0 starts at the start time, non-1 labels chain off the previous trip's site-left time, and label 1 chains off plant reach one round earlier. |
| TripSchedule.ChainedStart | tm.py:17-19 | A trip whose label is not 1 is never the first trip. Its work start is the previous trip's site-left time. |
| TripSchedule.LabelOneStart | tm.py:15-27 | A label-1 trip at index `i >= n` starts at the plant-reach time of trip `i - n`. |
| ScheduleProperties.DroppedRemainder | tm.py:11-29 | The schedule is empty exactly when the total is below one trip's quantity. Otherwise the last cumulative quantity is at most the total and falls short of it by less than one trip's quantity. |
| ScheduleProperties.SingleVehicleChain | tm.py:13-27 | With one vehicle every trip is labelled 1. Each trip after the first starts when the previous trip is back at the plant. |
| ScheduleProperties.WorkedExample | tm.py:6-48 | Inputs: start 300, total 40 to 49, trips of 10, pour 5, travel 20, pump 15, buffer 5, two vehicles. There are four trips, with work starts 300, 345, 365, 410 and cumulative quantities 10 to 40. The first trip's full row is given. The third trip does not start at the second trip's site-left time (390). |
| ScheduleProperties.StartsNotInTripOrder | tm.py:15-19 | Work starts are not in trip order in general. With three vehicles the fourth trip starts at minute 30, before the third trip's 40. |
| TimeFormat.SplitMinutes | tm.py:51-52 | The hours and leftover minutes recompose the offset as `h * 60 + mm`, with `mm < 60`. |
| TimeFormat.Decimal | tm.py:53 | Returns the shortest decimal digit string whose value is `n`. |
| TimeFormat.ZeroPad2 | tm.py:53 | Returns the decimal digits of `n`, zero-filled to a width of at least two, with exactly two when `n < 100`. |
| TimeFormat.FormatTime | tm.py:50-53 | Returns `HH:MM`. The hours part and the two-digit minutes part, read as numbers, recompose the offset, and the minutes part is below 60. Hours are not wrapped at 24. An hours part longer than two digits has no leading zero. |
| TimeFormat.ParseFormatRoundTrip | tm.py:50-53 | Reading a formatted offset back gives the offset. |
| TimeFormat.FormatTimeInjective | tm.py:50-53 | Distinct offsets are displayed differently. |
| TimeFormat.FormatTimeExamples | tm.py:50-53 | 300 displays as `05:00`, 365 as `06:05`, 1500 as `25:00` and 6000 as `100:00`. |

## Left out

- The Streamlit page and its input widgets (tm.py:63-75, 86, 90-95) are user-interface I/O. Of their `min_value` bounds, the per-trip quantity and vehicle count of at least 1 (tm.py:72-73) carry over as `ValidParams`, and the other inputs' bound of 0 as the `nat` types. The total quantity's bound of 1 (tm.py:67) does not carry over: the scheduler handles a total of 0, so the model accepts it.
- `generate_excel` (tm.py:56-61) writes a spreadsheet into a byte buffer through pandas and openpyxl, which are not part of this model.
- The in-place rewrite of each trip's timestamps to `HH:MM` strings and the DataFrame built from the rows (tm.py:77-85) are display-only. `FormatTime` models the conversion itself.
- Python raises `ZeroDivisionError` at tm.py:11 when the per-trip quantity is 0, and at tm.py:13 when there are no vehicles but at least one trip is due; with no vehicles and no trip due it returns an empty list. The model excludes both inputs, zero per-trip quantity and zero vehicles, through `ValidParams`, because the form requires at least 1 of each (tm.py:72-73).
- Negative inputs are not modelled, because the form's bounds rule them out. `FormatTime` therefore takes only non-negative offsets.
- Determinism and idempotence of the scheduler have no lemma. `CalculateTripTimes` is a function, so equal inputs give equal schedules by construction.
- No ordering of start times across trips is claimed, because it does not hold. `StartsNotInTripOrder` gives an input where it fails.
