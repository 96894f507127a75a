# Fraud-detection risk evaluator

A Dafny model of `FraudDetectionSystem.checkForFraud(transaction, history, blockedLocations)`,
the risk evaluator of the `activity` package. The evaluator takes three inputs:

- a candidate transaction, with an amount, a timestamp and a location;
- the account's prior transactions;
- a list of blocked locations.

It builds a fresh `FraudCheckResult` holding `isFraudulent`, `isBlocked`,
`verificationRequired` and an integer `riskScore`. Four independent rules each add points:

| rule | condition | points | raises |
|---|---|---|---|
| 1 | amount above 10 000 (strict) | 50 | fraud and verification |
| 2 | more than 10 prior transactions in `[t - 60, t]` | 30 | blocked |
| 3 | a prior transaction in `[t - 30, t]` at another location | 20 | fraud and verification |
| 4 | the location is on the blocked list | 100 | blocked |

The score is the sum of the points of the rules that fire, capped at 100.

`FraudDetectionSystem.java` is not part of this model. The behaviour is taken from
`src/test/java/activity/FraudDetectionSystemTest.java`. The test pins the five
scenarios. The rule table, the cap and the inclusive windows are the evaluator's
documented design, which the model follows.

Files:

- `fraud_detection.dfy` (module `FraudDetection`): the data model, the four rules,
  the window count and the location-change search over the history, and the
  evaluator `CheckForFraud`.
- `fraud_properties.dfy` (module `FraudDetectionProperties`): how the verdict reacts
  to the history and the blocked list.
- `fraud_scenarios.dfy` (module `FraudDetectionScenarios`): the five test
  scenarios for every current time, one scenario where two rules fire together,
  and the window boundaries.

Encoding:

- Timestamps are integer minutes. The tests build them all with `minusMinutes`.
- Amounts are `real`.
- Locations are strings.
- The history and the blocked list are sequences.

## Model

| member | source | states |
|---|---|---|
| `FraudDetection.CheckForFraud` | src/test/java/activity/FraudDetectionSystemTest.java:27-92 | fraud holds iff the amount exceeds 10000 or some prior transaction in `[t-30, t]` is at another location; verification always equals fraud; blocked holds iff more than 10 prior positions lie in `[t-60, t]` or the location is blocked; the score lies in [0, 100]; it is exactly 100 for a blocked location and otherwise the uncapped sum 50/30/20 of rules 1-3 |
| `FraudDetection.HasLocationChange` | src/test/java/activity/FraudDetectionSystemTest.java:57-68 | true exactly when some history entry inside the inclusive window is at a location other than the given one |
| `FraudDetection.CountInWindow` | src/test/java/activity/FraudDetectionSystemTest.java:39-55 | the number of in-window history entries never exceeds the history's length |
| `FraudDetection.CountInWindowIsCardinality` | src/test/java/activity/FraudDetectionSystemTest.java:39-55 | the recursive count equals the number of history positions whose entry lies in the inclusive window |
| `FraudDetection.CountAllInWindow` | src/test/java/activity/FraudDetectionSystemTest.java:42-46 | when every entry lies in the window, the count is the history's length |
| `FraudDetection.CountPermutation` | src/test/java/activity/FraudDetectionSystemTest.java:42-49 | two histories holding the same entries, in any order, have the same count |
| `FraudDetectionProperties.HistoryOrderIrrelevant` | src/test/java/activity/FraudDetectionSystemTest.java:42-49 | reordering the history never changes any field of the verdict |
| `FraudDetectionProperties.LocationChangePermutation` | src/test/java/activity/FraudDetectionSystemTest.java:57-68 | a location change found in one ordering of the history is found in every reordering |
| `FraudDetectionProperties.MoreHistoryNeverLowersRisk` | src/test/java/activity/FraudDetectionSystemTest.java:39-68 | appending prior transactions never clears the fraud or block flag and never lowers the score |
| `FraudDetectionProperties.EntriesOutsideTheHourIgnored` | src/test/java/activity/FraudDetectionSystemTest.java:41-44 | appending prior transactions that lie outside `[t-60, t]` leaves the verdict unchanged |
| `FraudDetectionProperties.SameLocationNeverJumps` | src/test/java/activity/FraudDetectionSystemTest.java:44-54 | a history made only at the candidate's location never fires rule 3 |
| `FraudDetectionProperties.FraudAxisIgnoresBlocking` | src/test/java/activity/FraudDetectionSystemTest.java:70-80 | the blocked list never changes the fraud or verification flag |
| `FraudDetectionProperties.ZeroScoreIffClean` | src/test/java/activity/FraudDetectionSystemTest.java:82-92 | the score is 0 exactly when no flag is raised |
| `FraudDetectionProperties.TenInTheHourDoNotBlock` | src/test/java/activity/FraudDetectionSystemTest.java:39-55 | with exactly ten prior transactions in the hour, only a blocked location can block |
| `FraudDetectionScenarios.AmountAboveThreshold` | src/test/java/activity/FraudDetectionSystemTest.java:27-37 | amount 10001 with empty history and blocked list gives fraudulent, not blocked, verification, score 50 |
| `FraudDetectionScenarios.ExcessiveTransactionsInLastHour` | src/test/java/activity/FraudDetectionSystemTest.java:39-55 | eleven "BR" entries 0, 5, ..., 50 minutes back give blocked, not fraudulent, no verification, score 30 |
| `FraudDetectionScenarios.LocationChangeWithinShortTimeFrame` | src/test/java/activity/FraudDetectionSystemTest.java:57-68 | "BR" ten minutes back and "USA" now gives fraudulent, verification, not blocked, score 20 |
| `FraudDetectionScenarios.BlacklistedLocation` | src/test/java/activity/FraudDetectionSystemTest.java:70-80 | a blocked location with nothing else firing gives blocked, not fraudulent, no verification, score 100 |
| `FraudDetectionScenarios.NoFraudDetected` | src/test/java/activity/FraudDetectionSystemTest.java:82-92 | amount 100 with empty history and blocked list gives all flags false and score 0 |
| `FraudDetectionScenarios.LargeAmountAtBlockedLocation` | src/test/java/activity/FraudDetectionSystemTest.java:27-80 | amount 10001 at a blocked location raises both axes, and the score is capped to 100 from 150 |
| `FraudDetectionScenarios.VelocityWindowBoundary` | src/test/java/activity/FraudDetectionSystemTest.java:41-49 | eleven entries exactly 60 minutes back block; eleven entries 61 minutes back do not |
| `FraudDetectionScenarios.LocationWindowBoundary` | src/test/java/activity/FraudDetectionSystemTest.java:58-62 | another location exactly 30 minutes back fires rule 3; 31 minutes back does not |

## Left out

- The flight-booking calculator (`FlightBookingSystemTest.java`): its pricing, discounts, fees, reward points and refunds are all floating-point arithmetic compared with tolerances. Its implementation is not part of this model.
- The smart-energy manager (`SmartEnergyManagementSystemTest.java`): its decisions hinge on floating-point price, temperature and energy thresholds. Its implementation is not part of this model.
- The wall clock (`LocalDateTime.now()`): every scenario is stated for an arbitrary current minute `now`. Seconds and the date-time type's own arithmetic are not modelled.
- The JUnit scaffolding (`@BeforeEach`, the `Assertions` calls): the scenarios are lemmas over concrete inputs instead.
- Input validation: negative amounts and timestamps are accepted as they are. The tests show no validation.
