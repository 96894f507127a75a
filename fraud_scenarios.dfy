/** The scenarios of the evaluator's test suite, stated for every current
    time `now` (in minutes), and the window boundaries. */
module FraudDetectionScenarios {
  import opened FraudDetection

  /** Eleven transactions of 100 in "BR", made 0, 5, ..., `step` * 10 minutes before `now`. */
  function RegularHistory(now: int, step: nat, location: string): seq<Transaction> {
    seq(11, i requires 0 <= i < 11 => Transaction(100.0, now - step * i, location))
  }

  /** Rule 1 alone: an amount of 10001 is fraudulent, needs verification, scores 50. */
  lemma AmountAboveThreshold(now: int)
    ensures CheckForFraud(Transaction(10001.0, now, "BR"), [], [])
         == FraudCheckResult(isFraudulent := true, isBlocked := false, verificationRequired := true, riskScore := 50)
  {
  }

  /** Rule 2 alone: eleven prior transactions 0 to 50 minutes back, all at the
      candidate's location, block it and score 30; the one at offset 0 counts. */
  lemma ExcessiveTransactionsInLastHour(now: int)
    ensures CheckForFraud(Transaction(100.0, now, "BR"), RegularHistory(now, 5, "BR"), [])
         == FraudCheckResult(isFraudulent := false, isBlocked := true, verificationRequired := false, riskScore := 30)
  {
    CountAllInWindow(RegularHistory(now, 5, "BR"), now, VelocityWindow);
  }

  /** Rule 3 alone: "BR" ten minutes ago, "USA" now is fraudulent and scores 20. */
  lemma LocationChangeWithinShortTimeFrame(now: int)
    ensures CheckForFraud(Transaction(100.0, now, "USA"), [Transaction(100.0, now - 10, "BR")], [])
         == FraudCheckResult(isFraudulent := true, isBlocked := false, verificationRequired := true, riskScore := 20)
  {
    assert InWindow(Transaction(100.0, now - 10, "BR"), now, LocationJumpWindow);
  }

  /** Rule 4 alone: a blocked location is blocked and scores the full 100. */
  lemma BlacklistedLocation(now: int)
    ensures CheckForFraud(Transaction(100.0, now, "HighRiskLocation"), [], ["HighRiskLocation"])
         == FraudCheckResult(isFraudulent := false, isBlocked := true, verificationRequired := false, riskScore := 100)
  {
  }

  /** No rule: nothing is flagged and the score is 0. */
  lemma NoFraudDetected(now: int)
    ensures CheckForFraud(Transaction(100.0, now, "BR"), [], [])
         == FraudCheckResult(isFraudulent := false, isBlocked := false, verificationRequired := false, riskScore := 0)
  {
  }

  /** Rules 1 and 4 together: both axes are raised and 150 points are capped to 100. */
  lemma LargeAmountAtBlockedLocation(now: int)
    ensures CheckForFraud(Transaction(10001.0, now, "HighRiskLocation"), [], ["HighRiskLocation"])
         == FraudCheckResult(isFraudulent := true, isBlocked := true, verificationRequired := true, riskScore := 100)
  {
  }

  /** Rule 2's window includes its far end: eleven transactions made exactly
      60 minutes ago block, eleven made 61 minutes ago do not. */
  lemma VelocityWindowBoundary(now: int)
    ensures CheckForFraud(Transaction(100.0, now, "BR"), RegularHistory(now - 60, 0, "BR"), []).isBlocked
    ensures !CheckForFraud(Transaction(100.0, now, "BR"), RegularHistory(now - 61, 0, "BR"), []).isBlocked
  {
    CountAllInWindow(RegularHistory(now - 60, 0, "BR"), now, VelocityWindow);
    CountInWindowIsCardinality(RegularHistory(now - 61, 0, "BR"), now, VelocityWindow);
    assert WindowIndices(RegularHistory(now - 61, 0, "BR"), now, VelocityWindow) == {};
  }

  /** Rule 3's window includes its far end: another location exactly 30
      minutes ago is a jump, 31 minutes ago it is not. */
  lemma LocationWindowBoundary(now: int)
    ensures CheckForFraud(Transaction(100.0, now, "USA"), [Transaction(100.0, now - 30, "BR")], []).isFraudulent
    ensures !CheckForFraud(Transaction(100.0, now, "USA"), [Transaction(100.0, now - 31, "BR")], []).isFraudulent
  {
    assert InWindow(Transaction(100.0, now - 30, "BR"), now, LocationJumpWindow);
  }
}
