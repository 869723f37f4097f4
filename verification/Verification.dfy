/** The single-slot verification machine of each drive, over whole runs. */
module Verification {
  import opened Basics
  import opened Protocol
  import opened Chain
  import opened History

  predicate Verifying(c: Chain, d: Key, tx: Hash) {
    VerifiesNow(c.Drive(d), tx)
  }

  predicate Restarts(events: seq<Event>, tx: Hash) {
    exists e :: e in events && e.StartVerificationEvent? && e.verification.tx == tx
  }

  /** No two verifications ever started share a transaction hash. */
  ghost predicate FreshVerifications(events: seq<Event>) {
    forall i, j :: 0 <= i < j < |events| && events[i].StartVerificationEvent? && events[j].StartVerificationEvent? ==>
      events[i].verification.tx != events[j].verification.tx
  }

  /** The verifications whose result was broadcast, of all drives, in order. */
  ghost function VerifyBroadcasts(c: Chain, events: seq<Event>): seq<Hash> {
    if events == [] then []
    else
      var earlier, e := events[..|events| - 1], events[|events| - 1];
      VerifyBroadcasts(c, earlier)
      + (if e.VerificationReadyEvent? && Announced(Run(c, earlier), e.verifyInfo) then [e.verifyInfo.tx] else [])
  }

  /** What one event does to the slot of drive `d`. */
  lemma SlotStep(c: Chain, e: Event, d: Key)
    ensures var slot, slot' := c.Drive(d).pendingVerification, Step(c, e).Drive(d).pendingVerification;
            if e.AddDriveEvent? && e.d == d then slot' == None
            else if e.StartVerificationEvent? && e.d == d && slot.None? then slot' == Some(e.verification)
            else if e.CancelVerificationEvent? && e.d == d && Verifying(c, d, e.hash) then slot' == None
            else if e.VerificationReadyEvent? && e.verifyInfo.driveKey == d && Verifying(c, d, e.verifyInfo.tx)
              then slot' == None
            else slot' == slot
  {
  }

  /** A result is recorded once: whatever follows, it stays and is not broadcast again. */
  lemma {:induction false} ResultsAreFinal(c: Chain, later: seq<Event>, tx: Hash)
    requires tx in c.verified
    ensures tx in Run(c, later).verified && Run(c, later).verified[tx] == c.verified[tx]
    ensures tx !in VerifyBroadcasts(c, later)
  {
    if later == [] {
    } else {
      ResultsAreFinal(c, later[..|later| - 1], tx);
    }
  }

  /** No result is broadcast twice; the recorded results are exactly the broadcast ones. */
  lemma {:induction false} ResultsBroadcastOnce(c: Chain, events: seq<Event>)
    requires Initial(c)
    ensures Distinct(VerifyBroadcasts(c, events))
    ensures forall tx :: tx in VerifyBroadcasts(c, events) <==> tx in Run(c, events).verified
  {
    if events == [] {
    } else {
      ResultsBroadcastOnce(c, events[..|events| - 1]);
    }
  }

  /** With fresh transactions, a pending verification has no result yet and is pending on one drive. */
  lemma {:induction false} PendingVerificationIsFresh(c: Chain, events: seq<Event>)
    requires Initial(c) && FreshVerifications(events)
    ensures forall d, tx :: Verifying(Run(c, events), d, tx) ==>
              tx !in Run(c, events).verified && exists v :: StartVerificationEvent(d, v) in events && v.tx == tx
    ensures forall tx :: tx in Run(c, events).verified ==> Restarts(events, tx)
    ensures forall d, d', tx :: Verifying(Run(c, events), d, tx) && Verifying(Run(c, events), d', tx) ==> d == d'
  {
    if events == [] {
    } else {
      var earlier, e := events[..|events| - 1], events[|events| - 1];
      var s, t := Run(c, earlier), Run(c, events);
      assert events == earlier + [e];
      FreshEarlier(events);
      PendingVerificationIsFresh(c, earlier);
      forall tx | tx in t.verified ensures Restarts(events, tx) {
        if tx in s.verified {
          var x :| x in earlier && x.StartVerificationEvent? && x.verification.tx == tx;
          assert x in events;
        } else {
          assert Verifying(s, e.verifyInfo.driveKey, tx);
          var v :| StartVerificationEvent(e.verifyInfo.driveKey, v) in earlier && v.tx == tx;
          assert StartVerificationEvent(e.verifyInfo.driveKey, v) in events;
        }
      }
      forall d, tx | Verifying(t, d, tx)
        ensures tx !in t.verified && exists v :: StartVerificationEvent(d, v) in events && v.tx == tx
      {
        SlotStep(s, e, d);
        assert tx in t.verified ==> tx in s.verified || (e.VerificationReadyEvent? && e.verifyInfo.tx == tx
                                                         && Verifying(s, e.verifyInfo.driveKey, tx));
        if Verifying(s, d, tx) {
          var v :| StartVerificationEvent(d, v) in earlier && v.tx == tx;
          assert StartVerificationEvent(d, v) in events;
        } else {
          assert StartVerificationEvent(d, e.verification) in events;
          assert tx !in s.verified;
        }
      }
      forall d, d', tx | Verifying(t, d, tx) && Verifying(t, d', tx) ensures d == d' {
        SlotStep(s, e, d);
        SlotStep(s, e, d');
        assert Verifying(s, d, tx) || Verifying(s, d', tx) ==> Restarts(earlier, tx);
      }
    }
  }

  lemma FreshEarlier(events: seq<Event>)
    requires FreshVerifications(events) && events != []
    ensures FreshVerifications(events[..|events| - 1])
    ensures var e := events[|events| - 1];
            e.StartVerificationEvent? ==> !Restarts(events[..|events| - 1], e.verification.tx)
  {
  }

  /** A verification pending nowhere, without a result and not started again, gets no result. */
  lemma {:induction false} NotPendingNeverVerified(c: Chain, later: seq<Event>, tx: Hash)
    requires tx !in c.verified && (forall d :: !Verifying(c, d, tx)) && !Restarts(later, tx)
    ensures tx !in Run(c, later).verified && forall d :: !Verifying(Run(c, later), d, tx)
  {
    if later == [] {
    } else {
      var earlier, e := later[..|later| - 1], later[|later| - 1];
      assert e in later;
      assert forall x :: x in earlier ==> x in later;
      assert e.StartVerificationEvent? ==> e.verification.tx != tx;
      NotPendingNeverVerified(c, earlier, tx);
      var s := Run(c, earlier);
      assert Run(c, later) == Step(s, e);
      assert e.VerificationReadyEvent? ==> !Verifying(s, e.verifyInfo.driveKey, tx);
      forall d ensures !Verifying(Run(c, later), d, tx) {
        SlotStep(s, e, d);
        assert !Verifying(s, d, tx);
      }
    }
  }

  /** A verification cancelled while pending and not started again is never recorded. */
  lemma CancelledVerificationIsFinal(c: Chain, before: seq<Event>, d: Key, tx: Hash, later: seq<Event>)
    requires Initial(c) && FreshVerifications(before)
    requires Verifying(Run(c, before), d, tx) && !Restarts(later, tx)
    ensures var events := before + [CancelVerificationEvent(d, tx)] + later;
            tx !in Run(c, events).verified && tx !in VerifyBroadcasts(c, events)
  {
    var upTo := before + [CancelVerificationEvent(d, tx)];
    assert upTo[..|upTo| - 1] == before;
    PendingVerificationIsFresh(c, before);
    var s := Run(c, before);
    assert Run(c, upTo) == Step(s, CancelVerificationEvent(d, tx));
    forall d' ensures !Verifying(Run(c, upTo), d', tx) {
      SlotStep(s, CancelVerificationEvent(d, tx), d');
      assert Verifying(s, d', tx) ==> d' == d;
    }
    NotPendingNeverVerified(Run(c, upTo), later, tx);
    RunAppend(c, upTo, later);
    ResultsBroadcastOnce(c, upTo + later);
  }
}
