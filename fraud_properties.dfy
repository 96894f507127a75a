/** Properties of the verdict as a whole: how it reacts to the history and
    the blocked list, and what the score says about the flags. */
module FraudDetectionProperties {
  import opened FraudDetection

  /** The history is a collection: reordering it never changes the verdict. */
  lemma HistoryOrderIrrelevant(tx: Transaction, h1: seq<Transaction>, h2: seq<Transaction>, blockedLocations: seq<string>)
    requires multiset(h1) == multiset(h2)
    ensures CheckForFraud(tx, h1, blockedLocations) == CheckForFraud(tx, h2, blockedLocations)
  {
    CountPermutation(h1, h2, tx.timestamp, VelocityWindow);
    LocationChangePermutation(h1, h2, tx.timestamp, LocationJumpWindow, tx.location);
    LocationChangePermutation(h2, h1, tx.timestamp, LocationJumpWindow, tx.location);
  }

  /** A location change found in one ordering of the history is found in every other. */
  lemma LocationChangePermutation(h1: seq<Transaction>, h2: seq<Transaction>, now: int, width: nat, location: string)
    requires multiset(h1) == multiset(h2)
    ensures HasLocationChange(h1, now, width, location) ==> HasLocationChange(h2, now, width, location)
  {
    if HasLocationChange(h1, now, width, location) {
      var i :| 0 <= i < |h1| && InWindow(h1[i], now, width) && h1[i].location != location;
      assert h1[i] in multiset(h2);
      var j :| 0 <= j < |h2| && h2[j] == h1[i];
    }
  }

  /** Adding prior transactions never lowers the risk: a flag once raised
      stays raised and the score does not drop. */
  lemma MoreHistoryNeverLowersRisk(tx: Transaction, history: seq<Transaction>, extra: seq<Transaction>, blockedLocations: seq<string>)
    ensures var before, after := CheckForFraud(tx, history, blockedLocations), CheckForFraud(tx, history + extra, blockedLocations);
      (before.isFraudulent ==> after.isFraudulent) &&
      (before.isBlocked ==> after.isBlocked) &&
      before.riskScore <= after.riskScore
  {
    CountAppend(history, extra, tx.timestamp, VelocityWindow);
    if LocationJump(tx, history) {
      var i :| 0 <= i < |history| && InWindow(history[i], tx.timestamp, LocationJumpWindow) && history[i].location != tx.location;
      assert (history + extra)[i] == history[i];
    }
  }

  /** Prior transactions outside the last hour (older than 60 minutes, or
      later than the candidate) have no effect on the verdict. */
  lemma EntriesOutsideTheHourIgnored(tx: Transaction, history: seq<Transaction>, extra: seq<Transaction>, blockedLocations: seq<string>)
    requires forall i :: 0 <= i < |extra| ==> !InWindow(extra[i], tx.timestamp, VelocityWindow)
    ensures CheckForFraud(tx, history + extra, blockedLocations) == CheckForFraud(tx, history, blockedLocations)
  {
    CountAppend(history, extra, tx.timestamp, VelocityWindow);
    CountInWindowIsCardinality(extra, tx.timestamp, VelocityWindow);
    assert WindowIndices(extra, tx.timestamp, VelocityWindow) == {};
    if LocationJump(tx, history + extra) {
      var i :| 0 <= i < |history + extra| && InWindow((history + extra)[i], tx.timestamp, LocationJumpWindow)
        && (history + extra)[i].location != tx.location;
      assert i < |history|;
      assert history[i] == (history + extra)[i];
    }
    if LocationJump(tx, history) {
      var i :| 0 <= i < |history| && InWindow(history[i], tx.timestamp, LocationJumpWindow) && history[i].location != tx.location;
      assert (history + extra)[i] == history[i];
    }
  }

  /** Prior transactions made at the candidate's own location never raise
      the location-change rule, however many and however recent. */
  lemma SameLocationNeverJumps(tx: Transaction, history: seq<Transaction>)
    requires forall i :: 0 <= i < |history| ==> history[i].location == tx.location
    ensures !LocationJump(tx, history)
  {
  }

  /** Only the rules of the fraud axis decide the fraud and verification
      flags: the blocked list never changes them, and neither does Rule 2. */
  lemma FraudAxisIgnoresBlocking(tx: Transaction, history: seq<Transaction>, blocked1: seq<string>, blocked2: seq<string>)
    ensures CheckForFraud(tx, history, blocked1).isFraudulent == CheckForFraud(tx, history, blocked2).isFraudulent
    ensures CheckForFraud(tx, history, blocked1).verificationRequired == CheckForFraud(tx, history, blocked2).verificationRequired
  {
  }

  /** The score is zero exactly when no flag is raised. */
  lemma ZeroScoreIffClean(tx: Transaction, history: seq<Transaction>, blockedLocations: seq<string>)
    ensures var r := CheckForFraud(tx, history, blockedLocations);
      r.riskScore == 0 <==> !r.isFraudulent && !r.isBlocked && !r.verificationRequired
  {
  }

  /** Rule 2 needs more than ten: exactly ten prior transactions in the
      hour leave the block flag to Rule 4 alone. */
  lemma TenInTheHourDoNotBlock(tx: Transaction, history: seq<Transaction>, blockedLocations: seq<string>)
    requires CountInWindow(history, tx.timestamp, VelocityWindow) == 10
    ensures CheckForFraud(tx, history, blockedLocations).isBlocked <==> tx.location in blockedLocations
  {
  }
}
