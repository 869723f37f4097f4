/** What holds of the histories of modifications and verifications, over whole runs. */
module History {
  import opened Basics
  import opened Protocol
  import opened Replica
  import opened Chain

  // ----- runs in two parts

  lemma {:induction false} RunAppend(c: Chain, a: seq<Event>, b: seq<Event>)
    ensures Run(c, a + b) == Run(Run(c, a), b)
    decreases |b|
  {
    if b == [] {
      assert a + b == a;
    } else {
      assert (a + b)[..|a + b| - 1] == a + b[..|b| - 1];
      RunAppend(c, a, b[..|b| - 1]);
    }
  }

  // ----- histories of one drive since it was last added

  ghost function Submitted(events: seq<Event>, d: Key): seq<ModificationRequest> {
    if events == [] then []
    else
      var before, e := Submitted(events[..|events| - 1], d), events[|events| - 1];
      if e.AddDriveEvent? && e.d == d then []
      else if e.ModifyEvent? && e.d == d then before + [e.modification]
      else before
  }

  /** The event takes the front of its drive's queue; this happens even if the upload check then fails. */
  predicate Pops(c: Chain, e: Event) {
    e.ApprovalReadyEvent? &&
    var verdict := ApprovalVerdict(c.Drive(e.info.driveKey), e.info);
    verdict.Accepted? || verdict.UploadFault?
  }

  ghost function Approved(c: Chain, events: seq<Event>, d: Key): seq<ModificationRequest> {
    if events == [] then []
    else
      var earlier, e := events[..|events| - 1], events[|events| - 1];
      var before := Approved(c, earlier, d);
      if e.AddDriveEvent? && e.d == d then []
      else if Pops(Run(c, earlier), e) && e.info.driveKey == d
        then before + [Run(c, earlier).Drive(d).pendingModifications[0]]
      else before
  }

  predicate Pending(c: Chain, d: Key, h: Hash) {
    exists m :: m in c.Drive(d).pendingModifications && m.transactionHash == h
  }

  ghost function CancelledWhilePending(c: Chain, events: seq<Event>, d: Key): set<Hash> {
    if events == [] then {}
    else
      var earlier, e := events[..|events| - 1], events[|events| - 1];
      var before := CancelledWhilePending(c, earlier, d);
      if e.AddDriveEvent? && e.d == d then {}
      else if e.CancelEvent? && e.d == d && Pending(Run(c, earlier), d, e.hash) then before + {e.hash}
      else before
  }

  /** The queue without the entries whose hash is in `gone`. */
  function Keep(queue: seq<ModificationRequest>, gone: set<Hash>): (r: seq<ModificationRequest>)
    ensures forall m :: m in r <==> m in queue && m.transactionHash !in gone
  {
    if queue == [] then []
    else (if queue[0].transactionHash in gone then [] else [queue[0]]) + Keep(queue[1..], gone)
  }

  ghost predicate DistinctHashes(queue: seq<ModificationRequest>) {
    forall i, j :: 0 <= i < j < |queue| ==> queue[i].transactionHash != queue[j].transactionHash
  }

  /** No two modifications ever submitted, to whatever drives, share a hash. */
  ghost predicate FreshModifications(events: seq<Event>) {
    forall i, j :: 0 <= i < j < |events| && events[i].ModifyEvent? && events[j].ModifyEvent? ==>
      events[i].modification.transactionHash != events[j].modification.transactionHash
  }

  // ----- facts about the filter

  lemma {:induction false} KeepAppend(a: seq<ModificationRequest>, b: seq<ModificationRequest>, gone: set<Hash>)
    ensures Keep(a + b, gone) == Keep(a, gone) + Keep(b, gone)
  {
    if a == [] {
      assert a + b == b;
    } else {
      assert (a + b)[1..] == a[1..] + b;
      KeepAppend(a[1..], b, gone);
      Associative(if a[0].transactionHash in gone then [] else [a[0]], Keep(a[1..], gone), Keep(b, gone));
    }
  }

  lemma {:induction false} KeepOneFewer(queue: seq<ModificationRequest>, gone: set<Hash>, h: Hash)
    ensures Keep(queue, gone + {h}) == EraseHash(Keep(queue, gone), h)
  {
    if queue == [] {
    } else {
      var m, rest := queue[0], Keep(queue[1..], gone);
      KeepOneFewer(queue[1..], gone, h);
      KeepFirst(queue, gone);
      KeepFirst(queue, gone + {h});
      if m.transactionHash !in gone {
        EraseHashAppend([m], rest, h);
        assert EraseHash([m], h) == if m.transactionHash == h then [] else [m];
        assert [] + EraseHash(rest, h) == EraseHash(rest, h);
      }
    }
  }

  lemma KeepFirst(queue: seq<ModificationRequest>, gone: set<Hash>)
    requires queue != []
    ensures var rest := Keep(queue[1..], gone);
            Keep(queue, gone) == if queue[0].transactionHash in gone then rest else [queue[0]] + rest
  {
  }

  lemma KeepDistinct(queue: seq<ModificationRequest>, gone: set<Hash>)
    requires DistinctHashes(queue)
    ensures DistinctHashes(Keep(queue, gone))
  {
    if queue == [] {
    } else {
      var rest := queue[1..];
      KeepDistinct(rest, gone);
      var kept := Keep(rest, gone);
      forall j | 0 <= j < |kept| ensures queue[0].transactionHash != kept[j].transactionHash {
        assert kept[j] in rest;
      }
    }
  }

  lemma EraseHashDistinct(queue: seq<ModificationRequest>, h: Hash)
    requires DistinctHashes(queue)
    ensures DistinctHashes(EraseHash(queue, h))
  {
    EraseHashKeeps(queue, h);
    KeepDistinct(queue, {h});
  }

  lemma EraseHashKeeps(queue: seq<ModificationRequest>, h: Hash)
    ensures EraseHash(queue, h) == Keep(queue, {h})
  {
    if queue == [] {
    } else {
      EraseHashKeeps(queue[1..], h);
    }
  }

  // ----- submissions come from events, and are distinct

  lemma SubmittedFromEvents(events: seq<Event>, d: Key)
    ensures forall m :: m in Submitted(events, d) ==> ModifyEvent(d, m) in events
  {
    if events == [] {
    } else {
      SubmittedFromEvents(events[..|events| - 1], d);
      assert events == events[..|events| - 1] + [events[|events| - 1]];
    }
  }

  lemma FreshPrefix(events: seq<Event>)
    requires FreshModifications(events) && events != []
    ensures FreshModifications(events[..|events| - 1])
    ensures var e := events[|events| - 1];
            e.ModifyEvent? ==> forall d, m :: ModifyEvent(d, m) in events[..|events| - 1] ==>
              m.transactionHash != e.modification.transactionHash
  {
    var earlier := events[..|events| - 1];
    forall d, m | events[|events| - 1].ModifyEvent? && ModifyEvent(d, m) in earlier
      ensures m.transactionHash != events[|events| - 1].modification.transactionHash
    {
      var i :| 0 <= i < |earlier| && earlier[i] == ModifyEvent(d, m);
      assert events[i].modification == m;
    }
  }

  lemma SubmittedDistinct(events: seq<Event>, d: Key)
    requires FreshModifications(events)
    ensures DistinctHashes(Submitted(events, d))
  {
    if events == [] {
    } else {
      var earlier, e := events[..|events| - 1], events[|events| - 1];
      FreshPrefix(events);
      SubmittedDistinct(earlier, d);
      SubmittedFromEvents(earlier, d);
      if e.ModifyEvent? && e.d == d {
        var before := Submitted(earlier, d);
        forall i | 0 <= i < |before| ensures before[i].transactionHash != e.modification.transactionHash {
          assert before[i] in before;
        }
      }
    }
  }

  // ----- conservation

  /** What one event does to the queue of drive `d`. */
  lemma QueueStep(c: Chain, e: Event, d: Key)
    ensures var queue, queue' := c.Drive(d).pendingModifications, Step(c, e).Drive(d).pendingModifications;
            if e.AddDriveEvent? && e.d == d then queue' == []
            else if e.ModifyEvent? && e.d == d then queue' == queue + [e.modification]
            else if e.CancelEvent? && e.d == d then queue' == EraseHash(queue, e.hash)
            else if Pops(c, e) && e.info.driveKey == d then
              queue != [] && queue[0].transactionHash == e.info.modifyTransactionHash && queue' == queue[1..]
            else queue' == queue
  {
  }

  /** Only a submission makes a hash pending; a pop ends it when the queue's hashes are distinct. */
  lemma PendingStep(c: Chain, e: Event, d: Key, h: Hash)
    ensures Pending(Step(c, e), d, h) ==>
              Pending(c, d, h) || (e.ModifyEvent? && e.d == d && e.modification.transactionHash == h)
    ensures Pops(c, e) && e.info.driveKey == d && e.info.modifyTransactionHash == h ==>
              (DistinctHashes(c.Drive(d).pendingModifications) ==> Pending(c, d, h) && !Pending(Step(c, e), d, h))
  {
    QueueStep(c, e, d);
    var queue := c.Drive(d).pendingModifications;
    if Pops(c, e) && e.info.driveKey == d && e.info.modifyTransactionHash == h {
      assert queue[0] in queue;
      if DistinctHashes(queue) {
        forall m | m in queue[1..] ensures m.transactionHash != h {
          var j :| 0 <= j < |queue[1..]| && queue[1..][j] == m;
          assert queue[j + 1] == m;
        }
      }
    }
  }

  /** Every cancelled hash was submitted. */
  lemma {:induction false} CancelledWereSubmitted(c: Chain, events: seq<Event>, d: Key)
    requires Initial(c)
    ensures forall m :: m in Run(c, events).Drive(d).pendingModifications ==> m in Submitted(events, d)
    ensures forall h :: h in CancelledWhilePending(c, events, d) ==>
              exists m :: m in Submitted(events, d) && m.transactionHash == h
  {
    if events == [] {
    } else {
      var earlier, e := events[..|events| - 1], events[|events| - 1];
      CancelledWereSubmitted(c, earlier, d);
      QueueStep(Run(c, earlier), e, d);
      var before, after := Submitted(earlier, d), Submitted(events, d);
      if !(e.AddDriveEvent? && e.d == d) {
        assert forall m :: m in before ==> m in after;
        forall h | h in CancelledWhilePending(c, events, d)
          ensures exists m :: m in after && m.transactionHash == h
        {
          if h in CancelledWhilePending(c, earlier, d) {
            var m :| m in before && m.transactionHash == h;
            assert m in after;
          } else {
            var m :| m in Run(c, earlier).Drive(d).pendingModifications && m.transactionHash == h;
            assert m in after;
          }
        }
      }
    }
  }

  /** Nothing is lost, duplicated or reordered: the approved modifications followed by the pending
      ones are the submitted ones without those cancelled while pending. */
  lemma {:induction false} Conservation(c: Chain, events: seq<Event>, d: Key)
    requires Initial(c) && FreshModifications(events)
    ensures Approved(c, events, d) + Run(c, events).Drive(d).pendingModifications
         == Keep(Submitted(events, d), CancelledWhilePending(c, events, d))
  {
    if events == [] {
    } else {
      var earlier, e := events[..|events| - 1], events[|events| - 1];
      FreshPrefix(events);
      Conservation(c, earlier, d);
      QueueStep(Run(c, earlier), e, d);
      var approved, queue := Approved(c, earlier, d), Run(c, earlier).Drive(d).pendingModifications;
      var submitted, gone := Submitted(earlier, d), CancelledWhilePending(c, earlier, d);
      if e.ModifyEvent? && e.d == d {
        assert e.modification.transactionHash !in gone by {
          CancelledWereSubmitted(c, earlier, d);
          SubmittedFromEvents(earlier, d);
        }
        ConservationModify(approved, queue, submitted, gone, e.modification);
      } else if e.CancelEvent? && e.d == d {
        ConservationCancel(approved, queue, submitted, gone, e.hash, earlier, d);
      } else if Pops(Run(c, earlier), e) && e.info.driveKey == d {
        Associative(approved, [queue[0]], queue[1..]);
        assert queue == [queue[0]] + queue[1..];
      }
    }
  }

  lemma ConservationModify(approved: seq<ModificationRequest>, queue: seq<ModificationRequest>,
                           submitted: seq<ModificationRequest>, gone: set<Hash>, m: ModificationRequest)
    requires approved + queue == Keep(submitted, gone) && m.transactionHash !in gone
    ensures approved + (queue + [m]) == Keep(submitted + [m], gone)
  {
    KeepAppend(submitted, [m], gone);
    assert Keep([m], gone) == [m];
    Associative(approved, queue, [m]);
  }

  lemma ConservationCancel(approved: seq<ModificationRequest>, queue: seq<ModificationRequest>,
                           submitted: seq<ModificationRequest>, gone: set<Hash>, h: Hash, events: seq<Event>, d: Key)
    requires FreshModifications(events) && submitted == Submitted(events, d)
    requires approved + queue == Keep(submitted, gone)
    ensures (exists m :: m in queue && m.transactionHash == h) ==>
              approved + EraseHash(queue, h) == Keep(submitted, gone + {h})
              && exists m :: m in submitted && m.transactionHash == h
    ensures (forall m :: m in queue ==> m.transactionHash != h) ==>
            approved + EraseHash(queue, h) == Keep(submitted, gone)
  {
    if m :| m in queue && m.transactionHash == h {
      assert m in Keep(submitted, gone);
      SubmittedDistinct(events, d);
      KeepDistinct(submitted, gone);
      var all := approved + queue;
      var j :| 0 <= j < |queue| && queue[j] == m;
      forall a | a in approved ensures a.transactionHash != h {
        var i :| 0 <= i < |approved| && approved[i] == a;
        assert all[i].transactionHash != all[|approved| + j].transactionHash;
      }
      KeepOneFewer(submitted, gone, h);
      EraseHashAppend(approved, queue, h);
      EraseHashAbsent(approved, h);
    } else {
      EraseHashAbsent(queue, h);
    }
  }

  lemma {:induction false} ApprovedOrPendingDistinct(c: Chain, events: seq<Event>, d: Key)
    requires Initial(c) && FreshModifications(events)
    ensures DistinctHashes(Approved(c, events, d) + Run(c, events).Drive(d).pendingModifications)
  {
    Conservation(c, events, d);
    SubmittedDistinct(events, d);
    KeepDistinct(Submitted(events, d), CancelledWhilePending(c, events, d));
  }

  lemma DistinctParts(a: seq<ModificationRequest>, b: seq<ModificationRequest>)
    requires DistinctHashes(a + b)
    ensures DistinctHashes(a) && DistinctHashes(b)
  {
    forall i, j | 0 <= i < j < |a| ensures a[i].transactionHash != a[j].transactionHash {
      assert (a + b)[i] == a[i] && (a + b)[j] == a[j];
    }
    forall i, j | 0 <= i < j < |b| ensures b[i].transactionHash != b[j].transactionHash {
      assert (a + b)[|a| + i] == b[i] && (a + b)[|a| + j] == b[j];
    }
  }

  /** What every drive's queue keeps when hashes are fresh: distinct hashes, each submitted to that drive. */
  lemma PendingIsFresh(c: Chain, events: seq<Event>, d: Key)
    requires Initial(c) && FreshModifications(events)
    ensures DistinctHashes(Run(c, events).Drive(d).pendingModifications)
    ensures forall m :: m in Run(c, events).Drive(d).pendingModifications ==> ModifyEvent(d, m) in events
  {
    ApprovedOrPendingDistinct(c, events, d);
    DistinctParts(Approved(c, events, d), Run(c, events).Drive(d).pendingModifications);
    CancelledWereSubmitted(c, events, d);
    SubmittedFromEvents(events, d);
  }

  /** A hash is pending on one drive at most. */
  lemma PendingOnce(c: Chain, events: seq<Event>, d: Key, d': Key, h: Hash)
    requires Initial(c) && FreshModifications(events)
    requires Pending(Run(c, events), d, h) && Pending(Run(c, events), d', h)
    ensures d == d'
  {
    PendingIsFresh(c, events, d);
    PendingIsFresh(c, events, d');
    var m :| m in Run(c, events).Drive(d).pendingModifications && m.transactionHash == h;
    var m' :| m' in Run(c, events).Drive(d').pendingModifications && m'.transactionHash == h;
    var i :| 0 <= i < |events| && events[i] == ModifyEvent(d, m);
    var j :| 0 <= j < |events| && events[j] == ModifyEvent(d', m');
    assert i == j;
  }

  // ----- cumulative accounting

  lemma SizeStep(c: Chain, e: Event, d: Key)
    ensures var size := c.Drive(d).driveRequest.expectedCumulativeDownloadSize;
            Step(c, e).Drive(d).driveRequest.expectedCumulativeDownloadSize ==
            if e.AddDriveEvent? && e.d == d then 0
            else if Pops(c, e) && e.info.driveKey == d then size + c.Drive(d).pendingModifications[0].maxDataSize
            else size
  {
  }

  /** The download a drive's replicators are told to expect is the sum of the sizes of exactly the
      approved modifications; this needs no assumption on the run. */
  lemma {:induction false} CumulativeAccounting(c: Chain, events: seq<Event>, d: Key)
    requires Initial(c)
    ensures Run(c, events).Drive(d).driveRequest.expectedCumulativeDownloadSize == SumOfMaxSizes(Approved(c, events, d))
  {
    if events == [] {
    } else {
      var earlier, e := events[..|events| - 1], events[|events| - 1];
      CumulativeAccounting(c, earlier, d);
      SizeStep(Run(c, earlier), e, d);
      if Pops(Run(c, earlier), e) && e.info.driveKey == d {
        SumOfMaxSizesAppend(Approved(c, earlier, d), Run(c, earlier).Drive(d).pendingModifications[0]);
      }
    }
  }

  // ----- the list of completed modifications

  /** The hashes of the drive's cancellations since it was added, whether or not they were pending. */
  ghost function Cancellations(events: seq<Event>, d: Key): seq<Hash> {
    if events == [] then []
    else
      var before, e := Cancellations(events[..|events| - 1], d), events[|events| - 1];
      if e.AddDriveEvent? && e.d == d then []
      else if e.CancelEvent? && e.d == d then before + [e.hash]
      else before
  }

  lemma CompletedStep(c: Chain, e: Event, d: Key)
    ensures var completed := c.Drive(d).driveRequest.completedModifications;
            Step(c, e).Drive(d).driveRequest.completedModifications ==
            if e.AddDriveEvent? && e.d == d then []
            else if e.CancelEvent? && e.d == d then completed + [CompletedModification(e.hash, CANCELLED)]
            else completed
  {
  }

  /** A drive's completed modifications are its cancellations in order, each as often as it was issued;
      an approved one is never listed, and everything cancelled while pending is. */
  lemma {:induction false} CompletedAreCancellations(c: Chain, events: seq<Event>, d: Key)
    requires Initial(c)
    ensures var completed := Run(c, events).Drive(d).driveRequest.completedModifications;
            var cancels := Cancellations(events, d);
            && |completed| == |cancels|
            && (forall i :: 0 <= i < |cancels| ==> completed[i] == CompletedModification(cancels[i], CANCELLED))
            && (forall h :: h in CancelledWhilePending(c, events, d) ==> h in cancels)
  {
    if events == [] {
    } else {
      CompletedAreCancellations(c, events[..|events| - 1], d);
      CompletedStep(Run(c, events[..|events| - 1]), events[|events| - 1], d);
    }
  }

  // ----- at-most-once approval

  /** The hashes broadcast as approved, of all drives, in order. */
  ghost function Broadcasts(c: Chain, events: seq<Event>): seq<Hash> {
    if events == [] then []
    else
      var earlier, e := events[..|events| - 1], events[|events| - 1];
      Broadcasts(c, earlier) + (if Approves(Run(c, earlier), e) then [e.info.modifyTransactionHash] else [])
  }

  /** A recorded root hash is of a modification that was submitted and is no longer pending anywhere. */
  lemma {:induction false} RootsAreSettled(c: Chain, events: seq<Event>)
    requires Initial(c) && FreshModifications(events)
    ensures forall h :: h in Broadcasts(c, events) <==> h in Run(c, events).rootHashes
    ensures forall h :: h in Run(c, events).rootHashes ==>
              exists d, m :: ModifyEvent(d, m) in events && m.transactionHash == h
    ensures forall h, d :: h in Run(c, events).rootHashes ==> !Pending(Run(c, events), d, h)
  {
    if events == [] {
    } else {
      var earlier, e := events[..|events| - 1], events[|events| - 1];
      FreshPrefix(events);
      RootsAreSettled(c, earlier);
      var s, t := Run(c, earlier), Run(c, events);
      assert events == earlier + [e];
      if Approves(s, e) {
        var h, own := e.info.modifyTransactionHash, e.info.driveKey;
        PendingIsFresh(c, earlier, own);
        PendingStep(s, e, own, h);
        var m :| m in s.Drive(own).pendingModifications && m.transactionHash == h;
        assert ModifyEvent(own, m) in events;
        forall d ensures !Pending(t, d, h) {
          PendingStep(s, e, d, h);
          if Pending(s, d, h) {
            PendingOnce(c, earlier, d, own, h);
          }
        }
      }
      forall h, d | h in s.rootHashes ensures !Pending(t, d, h) {
        PendingStep(s, e, d, h);
      }
    }
  }

  /** However often and by whomever approvals are reported: no hash is popped twice, and none is
      broadcast twice. */
  lemma {:induction false} ApprovedAtMostOnce(c: Chain, events: seq<Event>, d: Key)
    requires Initial(c) && FreshModifications(events)
    ensures DistinctHashes(Approved(c, events, d))
    ensures Distinct(Broadcasts(c, events))
  {
    ApprovedOrPendingDistinct(c, events, d);
    DistinctParts(Approved(c, events, d), Run(c, events).Drive(d).pendingModifications);
    if events == [] {
    } else {
      var earlier, e := events[..|events| - 1], events[|events| - 1];
      FreshPrefix(events);
      ApprovedAtMostOnce(c, earlier, d);
      if Approves(Run(c, earlier), e) {
        ApprovedIsNew(c, earlier, e);
      }
    }
  }

  lemma ApprovedIsNew(c: Chain, earlier: seq<Event>, e: Event)
    requires Initial(c) && FreshModifications(earlier) && Approves(Run(c, earlier), e)
    ensures e.info.modifyTransactionHash !in Run(c, earlier).rootHashes
    ensures e.info.modifyTransactionHash !in Broadcasts(c, earlier)
  {
    var s := Run(c, earlier);
    RootsAreSettled(c, earlier);
    PendingIsFresh(c, earlier, e.info.driveKey);
    PendingStep(s, e, e.info.driveKey, e.info.modifyTransactionHash);
    assert Pending(s, e.info.driveKey, e.info.modifyTransactionHash);
  }

  /** A root hash once recorded stays what it is. */
  lemma {:induction false} RootHashIsFinal(c: Chain, events: seq<Event>, k: nat, h: Hash)
    requires Initial(c) && FreshModifications(events)
    requires k <= |events| && h in Run(c, events[..k]).rootHashes
    ensures h in Run(c, events).rootHashes && Run(c, events).rootHashes[h] == Run(c, events[..k]).rootHashes[h]
  {
    if k == |events| {
      assert events[..k] == events;
    } else {
      var earlier, e := events[..|events| - 1], events[|events| - 1];
      assert earlier[..k] == events[..k];
      FreshPrefix(events);
      RootHashIsFinal(c, earlier, k, h);
      if Approves(Run(c, earlier), e) {
        ApprovedIsNew(c, earlier, e);
      }
    }
  }

  // ----- cancellation is final

  predicate Resubmits(events: seq<Event>, h: Hash) {
    exists e :: e in events && e.ModifyEvent? && e.modification.transactionHash == h
  }

  /** A hash pending nowhere and not submitted again is not approved any more. */
  lemma {:induction false} NotPendingNeverApproved(c: Chain, later: seq<Event>, h: Hash)
    requires forall d :: !Pending(c, d, h)
    requires !Resubmits(later, h)
    ensures forall d :: !Pending(Run(c, later), d, h)
    ensures h !in Broadcasts(c, later)
    ensures h in Run(c, later).rootHashes ==> h in c.rootHashes
    ensures forall d, m :: m in Approved(c, later, d) ==> m.transactionHash != h
  {
    if later == [] {
    } else {
      var earlier, e := later[..|later| - 1], later[|later| - 1];
      assert e in later;
      assert forall x :: x in earlier ==> x in later;
      NotPendingNeverApproved(c, earlier, h);
      var s, t := Run(c, earlier), Run(c, later);
      forall d ensures !Pending(t, d, h) {
        PendingStep(s, e, d, h);
      }
      if Pops(s, e) {
        assert !Pending(s, e.info.driveKey, h);
        assert s.Drive(e.info.driveKey).pendingModifications[0] in s.Drive(e.info.driveKey).pendingModifications;
      }
    }
  }

  /** Cancelled while pending and not submitted again: never approved, no root hash, never broadcast. */
  lemma CancellationIsFinal(c: Chain, before: seq<Event>, d: Key, h: Hash, later: seq<Event>)
    requires Initial(c) && FreshModifications(before)
    requires Pending(Run(c, before), d, h) && !Resubmits(later, h)
    ensures var events := before + [CancelEvent(d, h)] + later;
            && h !in Run(c, events).rootHashes
            && h !in Broadcasts(c, events)
            && (forall d' :: !Pending(Run(c, events), d', h))
            && (forall d', m :: m in Approved(c, events, d') ==> m.transactionHash != h)
  {
    var upTo := before + [CancelEvent(d, h)];
    var s, t := Run(c, before), Run(c, upTo);
    assert upTo[..|upTo| - 1] == before;
    RootsAreSettled(c, before);
    assert h !in s.rootHashes;
    forall d' ensures !Pending(t, d', h) {
      if Pending(s, d', h) {
        PendingOnce(c, before, d, d', h);
      }
    }
    NotPendingNeverApproved(t, later, h);
    RunAppend(c, upTo, later);
    BroadcastsAppend(c, upTo, later);
    forall d', m | m in Approved(c, upTo + later, d') ensures m.transactionHash != h {
      ApprovedAppend(c, upTo, later, d', m);
      if m in Approved(c, upTo, d') {
        assert m in Approved(c, before, d');
        NotApprovedWhilePending(c, before, d', d, h, m);
      }
    }
  }

  lemma ApprovedOrPending(approved: seq<ModificationRequest>, queue: seq<ModificationRequest>,
                          a: ModificationRequest, q: ModificationRequest)
    requires DistinctHashes(approved + queue) && a in approved && q in queue
    ensures a.transactionHash != q.transactionHash
  {
    var i :| 0 <= i < |approved| && approved[i] == a;
    var j :| 0 <= j < |queue| && queue[j] == q;
    assert (approved + queue)[i] == a && (approved + queue)[|approved| + j] == q;
  }

  lemma NotApprovedWhilePending(c: Chain, events: seq<Event>, d: Key, d': Key, h: Hash, m: ModificationRequest)
    requires Initial(c) && FreshModifications(events)
    requires m in Approved(c, events, d) && Pending(Run(c, events), d', h)
    ensures m.transactionHash != h
  {
    var approved, queue := Approved(c, events, d), Run(c, events).Drive(d).pendingModifications;
    var p :| p in Run(c, events).Drive(d').pendingModifications && p.transactionHash == h;
    if d == d' {
      ApprovedOrPendingDistinct(c, events, d);
      ApprovedOrPending(approved, queue, m, p);
    } else {
      Conservation(c, events, d);
      SubmittedFromEvents(events, d);
      PendingIsFresh(c, events, d');
      assert m in approved + queue;
      var i :| 0 <= i < |events| && events[i] == ModifyEvent(d, m);
      var j :| 0 <= j < |events| && events[j] == ModifyEvent(d', p);
      assert i != j;
    }
  }

  lemma BroadcastsAppend(c: Chain, a: seq<Event>, b: seq<Event>)
    ensures Broadcasts(c, a + b) == Broadcasts(c, a) + Broadcasts(Run(c, a), b)
    decreases |b|
  {
    if b == [] {
      assert a + b == a;
    } else {
      assert (a + b)[..|a + b| - 1] == a + b[..|b| - 1];
      BroadcastsAppend(c, a, b[..|b| - 1]);
      RunAppend(c, a, b[..|b| - 1]);
    }
  }

  lemma ApprovedLast(c: Chain, events: seq<Event>, d: Key, m: ModificationRequest)
    requires events != []
    ensures var earlier, e := events[..|events| - 1], events[|events| - 1];
            var s := Run(c, earlier);
            m in Approved(c, events, d) <==>
              !(e.AddDriveEvent? && e.d == d)
              && (m in Approved(c, earlier, d)
                  || (Pops(s, e) && e.info.driveKey == d && m == s.Drive(d).pendingModifications[0]))
  {
  }

  lemma {:induction false} ApprovedAppend(c: Chain, a: seq<Event>, b: seq<Event>, d: Key, m: ModificationRequest)
    ensures m in Approved(c, a + b, d) ==> m in Approved(c, a, d) || m in Approved(Run(c, a), b, d)
    decreases |b|
  {
    if b == [] {
      assert a + b == a;
    } else {
      var earlier, e := b[..|b| - 1], b[|b| - 1];
      assert (a + b)[..|a + b| - 1] == a + earlier && (a + b)[|a + b| - 1] == e;
      ApprovedAppend(c, a, earlier, d, m);
      RunAppend(c, a, earlier);
      ApprovedLast(c, a + b, d, m);
      ApprovedLast(Run(c, a), b, d, m);
    }
  }
}
