/** The risk evaluator of the fraud-detection system.

    `CheckForFraud` takes one candidate transaction, the account's prior
    transactions and the list of blocked locations, and returns a fresh
    verdict.  Four independent rules contribute points to a risk score that
    is capped at 100:

      Rule 1  amount above 10 000                         50 points  fraud + verification
      Rule 2  more than 10 prior transactions in the hour  30 points  blocked
      Rule 3  another location within 30 minutes          20 points  fraud + verification
      Rule 4  location on the blocked list                100 points  blocked

    Timestamps are whole minutes; both time windows are inclusive at both ends. */
module FraudDetection {

  // Rule 1: large amount
  const LargeAmountThreshold: real := 10000.0
  const LargeAmountPoints: nat := 50

  // Rule 2: too many transactions in the last hour
  const VelocityWindow: nat := 60
  const VelocityLimit: nat := 10
  const VelocityPoints: nat := 30

  // Rule 3: location change within a short time frame
  const LocationJumpWindow: nat := 30
  const LocationJumpPoints: nat := 20

  // Rule 4: location on the blocked list
  const BlockedLocationPoints: nat := 100

  const MaxRiskScore: nat := 100

  /** A transaction: its amount, its timestamp in minutes and its location. */
  datatype Transaction = Transaction(amount: real, timestamp: int, location: string)

  /** The verdict built afresh by every call of the evaluator. */
  datatype FraudCheckResult = FraudCheckResult(
    isFraudulent: bool,
    isBlocked: bool,
    verificationRequired: bool,
    riskScore: int)

  /** `t` happened inside the inclusive window [now - width, now]. */
  predicate InWindow(t: Transaction, now: int, width: nat) {
    now - width <= t.timestamp <= now
  }

  /** The positions of `history` whose entry lies inside the window:
      the reference meaning of "transactions in the window". */
  ghost function WindowIndices(history: seq<Transaction>, now: int, width: nat): set<nat> {
    set i: nat | i < |history| && InWindow(history[i], now, width)
  }

  /** How many entries of `history` lie inside [now - width, now]. */
  function CountInWindow(history: seq<Transaction>, now: int, width: nat): (n: nat)
    ensures n <= |history|
  {
    if history == [] then 0
    else (if InWindow(history[0], now, width) then 1 else 0) + CountInWindow(history[1..], now, width)
  }

  /** Whether some entry of `history` inside [now - width, now] happened
      somewhere other than `location`. */
  function HasLocationChange(history: seq<Transaction>, now: int, width: nat, location: string): (b: bool)
    ensures b <==> exists i :: 0 <= i < |history| && InWindow(history[i], now, width) && history[i].location != location
  {
    if history == [] then false
    else
      var rest := HasLocationChange(history[1..], now, width, location);
      assert rest ==> exists i :: 0 <= i < |history| && InWindow(history[i], now, width) && history[i].location != location by {
        if rest {
          var k :| 0 <= k < |history[1..]| && InWindow(history[1..][k], now, width) && history[1..][k].location != location;
          assert history[k + 1] == history[1..][k];
        }
      }
      (InWindow(history[0], now, width) && history[0].location != location) || rest
  }

  /** Rule 1. */
  predicate LargeAmount(tx: Transaction) {
    tx.amount > LargeAmountThreshold
  }

  /** Rule 2: the candidate itself is not counted, only the history. */
  predicate ExcessiveVelocity(tx: Transaction, history: seq<Transaction>) {
    CountInWindow(history, tx.timestamp, VelocityWindow) > VelocityLimit
  }

  /** Rule 3. */
  predicate LocationJump(tx: Transaction, history: seq<Transaction>) {
    HasLocationChange(history, tx.timestamp, LocationJumpWindow, tx.location)
  }

  /** Rule 4. */
  predicate BlockedLocation(tx: Transaction, blockedLocations: seq<string>) {
    tx.location in blockedLocations
  }

  function Min(a: int, b: int): int {
    if a <= b then a else b
  }

  /** The evaluator: all four rules are always evaluated, their points are
      summed and the sum is capped at MaxRiskScore. */
  function CheckForFraud(tx: Transaction, history: seq<Transaction>, blockedLocations: seq<string>): (r: FraudCheckResult)
    // the fraud axis: Rule 1 or Rule 3, by their reference meaning
    ensures r.isFraudulent <==>
      tx.amount > 10000.0 ||
      exists i :: 0 <= i < |history| && tx.timestamp - 30 <= history[i].timestamp <= tx.timestamp && history[i].location != tx.location
    ensures r.verificationRequired == r.isFraudulent
    // the blocking axis: Rule 2 or Rule 4, by their reference meaning
    ensures r.isBlocked <==> |WindowIndices(history, tx.timestamp, 60)| > 10 || tx.location in blockedLocations
    // the score never leaves [0, 100]; a blocked location alone reaches the cap,
    // and without it the three other rules add up without being capped
    ensures 0 <= r.riskScore <= 100
    ensures r.riskScore ==
      if tx.location in blockedLocations then 100
      else ((if LargeAmount(tx) then 50 else 0) + (if ExcessiveVelocity(tx, history) then 30 else 0)
            + (if LocationJump(tx, history) then 20 else 0))
  {
    CountInWindowIsCardinality(history, tx.timestamp, VelocityWindow);
    var large := LargeAmount(tx);
    var velocity := ExcessiveVelocity(tx, history);
    var jump := LocationJump(tx, history);
    var blocked := BlockedLocation(tx, blockedLocations);
    var score :=
      (if large then LargeAmountPoints else 0)
      + (if velocity then VelocityPoints else 0)
      + (if jump then LocationJumpPoints else 0)
      + (if blocked then BlockedLocationPoints else 0);
    FraudCheckResult(large || jump, velocity || blocked, large || jump, Min(score, MaxRiskScore))
  }

  /** Counting splits over concatenation. */
  lemma {:induction false} CountAppend(a: seq<Transaction>, b: seq<Transaction>, now: int, width: nat)
    ensures CountInWindow(a + b, now, width) == CountInWindow(a, now, width) + CountInWindow(b, now, width)
  {
    if a != [] {
      assert (a + b)[1..] == a[1..] + b;
      CountAppend(a[1..], b, now, width);
    } else {
      assert a + b == b;
    }
  }

  /** The recursive count is the number of in-window positions. */
  lemma {:induction false} CountInWindowIsCardinality(history: seq<Transaction>, now: int, width: nat)
    ensures CountInWindow(history, now, width) == |WindowIndices(history, now, width)|
  {
    if history == [] {
      assert WindowIndices(history, now, width) == {};
    } else {
      var n := |history| - 1;
      var init := history[..n];
      assert history == init + [history[n]];
      CountAppend(init, [history[n]], now, width);
      CountInWindowIsCardinality(init, now, width);
      var last: set<nat> := if InWindow(history[n], now, width) then {n} else {};
      assert WindowIndices(history, now, width) == WindowIndices(init, now, width) + last;
      assert n !in WindowIndices(init, now, width);
    }
  }

  /** When every entry lies in the window, every entry is counted. */
  lemma {:induction false} CountAllInWindow(history: seq<Transaction>, now: int, width: nat)
    requires forall i :: 0 <= i < |history| ==> InWindow(history[i], now, width)
    ensures CountInWindow(history, now, width) == |history|
  {
    if history != [] {
      CountAllInWindow(history[1..], now, width);
    }
  }

  /** Taking out the entry at position `j` takes it out of the multiset of
      entries and out of the count. */
  lemma RemoveAt(b: seq<Transaction>, j: nat, now: int, width: nat)
    requires j < |b|
    ensures multiset(b) == multiset(b[..j] + b[j + 1..]) + multiset{b[j]}
    ensures CountInWindow(b, now, width) == CountInWindow(b[..j] + b[j + 1..], now, width) + CountInWindow([b[j]], now, width)
  {
    var left, right := b[..j], b[j + 1..];
    assert b == left + ([b[j]] + right);
    CountAppend(left, [b[j]] + right, now, width);
    CountAppend([b[j]], right, now, width);
    CountAppend(left, right, now, width);
  }

  /** The count depends only on which entries the history holds, not on their order. */
  lemma {:induction false} CountPermutation(a: seq<Transaction>, b: seq<Transaction>, now: int, width: nat)
    requires multiset(a) == multiset(b)
    ensures CountInWindow(a, now, width) == CountInWindow(b, now, width)
    decreases |a|
  {
    if a == [] {
      assert |b| == |multiset(b)| == 0;
    } else {
      var x := a[0];
      assert x in multiset(b);
      var j :| 0 <= j < |b| && b[j] == x;
      RemoveAt(b, j, now, width);
      var rest := b[..j] + b[j + 1..];
      assert a == [x] + a[1..];
      assert multiset(a) == multiset{x} + multiset(a[1..]);
      assert multiset(a[1..]) == multiset(a) - multiset{x};
      assert multiset(rest) == multiset(b) - multiset{x};
      CountPermutation(a[1..], rest, now, width);
      CountAppend([x], a[1..], now, width);
    }
  }
}
