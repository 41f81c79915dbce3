# Solar power plant simulator — Dafny model

This project models the service layer of a solar power plant simulator. A
fleet of plants is given as (name, age in days) records. The service
simulates how much energy the fleet produces over the next `days` days.

A plant produces only while its age lies strictly between 60 days
(commissioning) and 25 × 365 days (breakdown). On each productive day it
yields `20 × (1 − age/365 × 0.005)` kW over `1000/365` full sun hours. The age
used is the one at the start of that day offset.

The service exposes four operations:

- simulate an uploaded list, giving the total energy and the list aged by `days`;
- replace the stored fleet wholesale with an uploaded list;
- report the total output of the stored fleet;
- report the per-plant state of the stored fleet (name, new age, output).

Two modules:

- `Simulator` (`simulator.dfy`): the per-plant simulation. It has the
  operability window, the daily contribution, the reference function
  `Output(initialAge, days)`, the loop `CalculatePlantOutput` proved equal to
  it, and the lemmas on bounds, the window and monotonicity.
- `Service` (`service.dfy`): the request, response and entity records as
  datatypes. It also has the upload simulation as a loop, and the stored fleet
  as a `seq<PowerPlant>` field of a repository class. The `PowerPlantService`
  class loads and queries that repository. Lemmas tie the totals of the
  different operations together.

Energy is an exact `real`, so `1000 / 365.0` is 200/73 and `0.005` is 1/200.
Ages and day counts are unbounded `int`.

Two facts about the code shape the model:

- The code does not check `days >= 0`. For `days <= 0` the `0 until days`
  loop runs zero times, so the output is 0 and the reported age is
  `age + days`. The model has no such `requires` and proves the zero result
  for every `days <= 0`.
- The decay formula `20 × (1 − age/365 × 0.005)` has no floor (it turns
  negative past 200 years, `Simulator.DailyOutputKW`). It is only evaluated
  inside the window, where the age is below 9125. So every productive day
  yields more than 17.5 × 1000/365 kWh and no output is ever negative
  (`Simulator.IsOperable`, `Simulator.Contribution`, `Simulator.Output`).

## Model

| member | source | states |
|---|---|---|
| `Simulator.IsOperable` | src/main/kotlin/com/assessment/solar/service/PowerPlantService.kt:161-162 | The window (60, 9125) days, exclusive at both ends. Every age inside it gets a daily power strictly between 17.5 kW and the 20 kW rating. |
| `Simulator.DailyOutputKW` | src/main/kotlin/com/assessment/solar/service/PowerPlantService.kt:152 | The decay formula has no floor. It never exceeds the 20 kW rating for a non-negative age, and it is negative exactly for ages over 200 × 365 days. |
| `Simulator.Contribution` | src/main/kotlin/com/assessment/solar/service/PowerPlantService.kt:149-162 | A day whose age is in the window (60, 9125) yields strictly between 17.5·1000/365 and 20·1000/365 kWh. A day with age ≤ 60 or ≥ 9125 yields exactly 0. |
| `Simulator.Output` | src/main/kotlin/com/assessment/solar/service/PowerPlantService.kt:143-158 | The simulated energy is never negative and at most `days × 20·1000/365`. With `days <= 0` (in particular `days == 0`) it is exactly 0. |
| `Simulator.CalculatePlantOutput` | src/main/kotlin/com/assessment/solar/service/PowerPlantService.kt:137-159 | The day loop returns exactly the reference energy `Output(initialAge, days)`. That is the sum of the contributions of the ages `initialAge .. initialAge+days-1`. |
| `Simulator.OutputStep` | src/main/kotlin/com/assessment/solar/service/PowerPlantService.kt:146-157 | One more day adds exactly the contribution of age `initialAge + d`, the age at the start of day offset `d`. |
| `Simulator.OperableDays` | src/main/kotlin/com/assessment/solar/service/PowerPlantService.kt:146-149 | Helper over the gated loop: it counts the days whose age passes the window test. The count never exceeds the number of days in the span. |
| `Simulator.OutputBetweenOperableDays` | src/main/kotlin/com/assessment/solar/service/PowerPlantService.kt:146-162 | Output lies between `k × 17.5·1000/365` and `k × 20·1000/365`, where `k` is the number of productive days. It is 0 exactly when `k` is 0. |
| `Simulator.OperableDaysPositive` | src/main/kotlin/com/assessment/solar/service/PowerPlantService.kt:146-162 | A span has a productive day if and only if some age in `[initialAge, initialAge+days)` lies in the window. |
| `Simulator.OutputPositive` | src/main/kotlin/com/assessment/solar/service/PowerPlantService.kt:146-162 | A plant produces a positive amount if and only if one of its ages over the span lies in the window. |
| `Simulator.OutputOutsideWindow` | src/main/kotlin/com/assessment/solar/service/PowerPlantService.kt:146-162 | A span that ends by age 60 (`initialAge + days <= 61`) produces exactly 0. So does a span that starts at or after age 9125. |
| `Simulator.ContributionDecreasing` | src/main/kotlin/com/assessment/solar/service/PowerPlantService.kt:152 | Within the window, an older plant yields strictly less energy on a day than a younger one. |
| `Simulator.OutputDecreasingInAge` | src/main/kotlin/com/assessment/solar/service/PowerPlantService.kt:146-157 | Both spans may lie entirely in the window. Then, for the same positive number of days, an older plant produces strictly less than a younger one. |
| `Service.RequestsOutput` | src/main/kotlin/com/assessment/solar/service/PowerPlantService.kt:33-39 | The running total of an uploaded list is never negative. It is at most `n × days × 20·1000/365` for `n` plants, and an empty list gives 0. |
| `Service.RequestsOutputAppend` | src/main/kotlin/com/assessment/solar/service/PowerPlantService.kt:36-47 | The total of a concatenated list is the total of its first part plus the total of its second part. |
| `Service.CalculateEnergyProduction` | src/main/kotlin/com/assessment/solar/service/PowerPlantService.kt:30-49 | `producedKWh` is the sum of the per-plant outputs. The network has the input's length and order, and entry `i` has plant `i`'s name and age `plants[i].age + days`. An empty list gives 0 and an empty network. |
| `Service.ToEntities` | src/main/kotlin/com/assessment/solar/service/PowerPlantService.kt:63-65 | Each uploaded record becomes a stored plant with the same name and age, at the same position. |
| `Service.PowerPlantRepository.DeleteAll` | src/main/kotlin/com/assessment/solar/service/PowerPlantService.kt:61 | Afterwards the store is empty. |
| `Service.PowerPlantRepository.SaveAll` | src/main/kotlin/com/assessment/solar/service/PowerPlantService.kt:67 | The given plants are appended after the stored ones, in order. |
| `Service.PowerPlantRepository.FindAll` | src/main/kotlin/com/assessment/solar/service/PowerPlantService.kt:88 | Returns the stored plants in store order. |
| `Service.PowerPlantService.LoadPowerPlantNetwork` | src/main/kotlin/com/assessment/solar/service/PowerPlantService.kt:57-72 | Afterwards the store holds exactly the uploaded (name, age) pairs in order and none of its previous contents. Only the repository is modified. |
| `Service.FleetOutput` | src/main/kotlin/com/assessment/solar/service/PowerPlantService.kt:90-92 | The total of the stored fleet is never negative and at most `n × days × 20·1000/365`. It is the same sum as `Service.RequestsOutput`, kept apart on purpose: it models the separate `sumOf` over stored entities, and `Service.TotalsAgree` proves the two totals agree. |
| `Service.PowerPlantService.CalculateTotalOutputForTDays` | src/main/kotlin/com/assessment/solar/service/PowerPlantService.kt:81-99 | The total output is the sum, over the stored plants, of each plant's output from its stored age. It lies within the fleet bound. |
| `Service.TotalsAgree` | src/main/kotlin/com/assessment/solar/service/PowerPlantService.kt:88-92 | Suppose a list is stored (as loading does) and its total is then queried over `days`. The result equals the `producedKWh` that simulating the same list over `days` reports. |
| `Service.NetworkState` | src/main/kotlin/com/assessment/solar/service/PowerPlantService.kt:115-122 | The view keeps the store's length and order. Entry `i` has plant `i`'s name and age `age + days`. Its output is computed from the stored age, not the new one. |
| `Service.PowerPlantService.GetNetworkStateWithTDays` | src/main/kotlin/com/assessment/solar/service/PowerPlantService.kt:108-128 | Each stored plant reappears at its own position with its name, age `age + days` and `Output(age, days)`. |
| `Service.TotalIsSumOfNetworkState` | src/main/kotlin/com/assessment/solar/service/PowerPlantService.kt:81-128 | The total-output query equals the sum of the per-plant outputs in the network-state view. |
| `Service.EqualAgesEqualOutputs` | src/test/kotlin/com/assessment/solar/service/PowerPlantServiceTest.kt:216-236 | Two stored plants of equal age report equal output in the network-state view, whatever their names. |

## Left out

- IEEE-754 double rounding. The model computes with exact rationals, so the
  fixed reference values of the unit tests (for example 546.616626008632)
  are not reproduced. Every property holds for the exact formula.
- Kotlin 32-bit `Int` overflow in `initialAge + day` and `age + days`. Ages
  and days are unbounded integers.
- Store failures. The `try`/`catch` blocks that wrap repository errors in
  `LoadPowerPlantNetworkFailedException`, `CalculateTotalOutputFailedException`
  and `GetNetworkStateFailedException` are not modelled. So are logging and
  the `@Transactional` rollback of a failed load. The modelled repository
  never fails; its failures come from the JPA library, which is not part of
  this model.
- The JPA repository itself, entity ids and creation/update timestamps. They are
  replaced by a `seq<PowerPlant>` field. `FindAll` returns the plants in the
  order they were saved. The real store does not guarantee that order.
- The HTTP controller, multipart upload, JSON parsing and its empty-file
  check. These are I/O plumbing; the operations take the parsed list directly.
- Service.PowerPlantService.CalculateTotalOutputForTDays: Kotlin's `sumOf` adds
  the plant outputs in store order in double precision. The model sums exact
  reals, and there the order does not matter.
