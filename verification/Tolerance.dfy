/** The environment that always withholds one replicator's opinion from the approval. */
module Tolerance {
  import opened Basics
  import opened Protocol
  import opened Chain
  import opened Environment
  import opened Quorum

  class OneIgnoredLedger {
    const ledger: Ledger
    var ignoredReplicator: Option<Key>

    constructor (ledger: Ledger)
      ensures this.ledger == ledger && ignoredReplicator == None
    {
      this.ledger := ledger;
      ignoredReplicator := None;
    }

    /** The code reads the last opinion the first time, without testing that there is one. */
    method ModifyApprovalTransactionIsReady(reporter: Key, info: ApprovalTransactionInfo) returns (passed: bool)
      requires ledger.Valid() && reporter in ledger.mail && (ignoredReplicator.None? ==> info.opinions != [])
      modifies this, ledger
      ensures ledger.Valid()
      ensures ignoredReplicator == if old(ignoredReplicator).Some? then old(ignoredReplicator)
                                   else Some(info.opinions[|info.opinions| - 1].replicatorKey)
      ensures var n := |ledger.keys|;
              if n > 0 && (|info.opinions| == n || |info.opinions| == n - 1)
              then var sent := info.(opinions := info.opinions[..n - 1]);
                   ledger.State() == Step(old(ledger.State()), ApprovalReadyEvent(reporter, sent))
                   && passed == Passes(old(ledger.State()), ApprovalReadyEvent(reporter, sent))
              else ledger.State() == old(ledger.State()) && !passed
    {
      var transaction := info;
      if ignoredReplicator.None? {
        ignoredReplicator := Some(info.opinions[|info.opinions| - 1].replicatorKey);
      }
      if |transaction.opinions| == |ledger.running| && transaction.opinions != [] {
        transaction := transaction.(opinions := transaction.opinions[..|transaction.opinions| - 1]);
      }
      assert transaction == WithoutLast(info, |ledger.keys|);
      OneFewerIsPassedOn(info, |ledger.keys|);
      if |transaction.opinions| + 1 != |ledger.running| {
        return false;
      }
      passed := ledger.ModifyApprovalTransactionIsReady(reporter, transaction);
    }

    /** Only the ignored replicator is expected to send a single approval. */
    method SingleModifyApprovalTransactionIsReady(reporter: Key, info: ApprovalTransactionInfo) returns (passed: bool)
      requires ledger.Valid() && Defined(ledger.State(), SingleApprovalReadyEvent(reporter, info))
      modifies ledger
      ensures ledger.Valid()
      ensures if ignoredReplicator != Some(reporter) then ledger.State() == old(ledger.State()) && !passed
              else ledger.State() == Step(old(ledger.State()), SingleApprovalReadyEvent(reporter, info))
                   && passed == Passes(old(ledger.State()), SingleApprovalReadyEvent(reporter, info))
    {
      if ignoredReplicator != Some(reporter) {
        return false;
      }
      passed := ledger.SingleModifyApprovalTransactionIsReady(reporter, info);
    }
  }
}
