/** Replay convergence: what a running member makes of its messages is what the ledger records,
    however it came to be a member and however often it was stopped. */
module Convergence {
  import opened Basics
  import opened Protocol
  import opened Replica
  import opened Chain
  import opened History
  import opened Verification

  function PublishedLast(di: DriveInfo): Option<PublishedApproval> {
    if di.lastApprovedModification.Some? then Some(Publish(di.lastApprovedModification.value)) else None
  }

  /** The replicator's own key may or may not be in the shards it was sent, and of the completed
      modifications it knows those that were listed when it was told of the drive. */
  ghost predicate Agrees(v: View, di: DriveInfo, r: Key, listening: bool) {
    && v.pending == di.pendingModifications
    && v.lastApproval == PublishedLast(di)
    && v.cumulativeDownload == di.driveRequest.expectedCumulativeDownloadSize
    && v.verification == (if listening then di.pendingVerification else None)
    && v.replicators == di.driveRequest.fullReplicatorList
    && v.driveSize == di.driveRequest.driveSize && v.client == di.driveRequest.client
    && v.completed <= di.driveRequest.completedModifications
    && Without(v.donatorShard, r) == Without(di.driveRequest.modifyDonatorShard, r)
    && Without(v.recipientShard, r) == Without(di.driveRequest.modifyRecipientShard, r)
  }

  /** A member holds a view that agrees with the ledger; any other replicator holds none. */
  ghost predicate Mirrors(view: Option<View>, di: DriveInfo, r: Key, listening: bool) {
    if r in di.driveRequest.fullReplicatorList then view.Some? && Agrees(view.value, di, r, listening)
    else view.None?
  }

  /** The members that were told of the pending verification and have not dropped it since: a member
      drops it when an approval is published, and a replicator that joins is not told. */
  ghost function Listening(c: Chain, events: seq<Event>, d: Key): set<Key> {
    if events == [] then {}
    else
      var earlier, e := events[..|events| - 1], events[|events| - 1];
      NowListening(Run(c, earlier), e, d, Listening(c, earlier, d))
  }

  ghost function NowListening(c: Chain, e: Event, d: Key, before: set<Key>): set<Key> {
    if e.StartVerificationEvent? && e.d == d && c.Drive(d).pendingVerification.None? then set r | r in c.Members(d)
    else if Approves(c, e) && e.info.driveKey == d then {}
    else if e.AddReplicatorEvent? && e.d == d then before - {e.replicator}
    else if e.StartEvent? && e.replicator !in c.mail then before + {e.replicator}
    else before
  }

  /** Whether `r` listens after an event of its drive. */
  ghost predicate ListensAfter(c: Chain, e: Event, d: Key, r: Key, listening: bool) {
    if e.StartVerificationEvent? && c.Drive(d).pendingVerification.None? then r in c.Members(d)
    else if Approves(c, e) then false
    else if e.AddReplicatorEvent? && r == e.replicator then false
    else listening
  }

  lemma ListeningMatches(c: Chain, e: Event, d: Key, r: Key, before: set<Key>)
    requires r in c.mail && r in Step(c, e).mail
    ensures r in NowListening(c, e, d, before) <==>
            if e.Subject() == Some(d) then ListensAfter(c, e, d, r, r in before) else r in before
  {
  }

  // ----- replays

  lemma ReceiveModifies(d: Key, v: View, queue: seq<ModificationRequest>)
    ensures ReceiveAll(d, Some(v), Modifies(d, queue)) == Some(v.(pending := v.pending + queue))
    decreases |queue|
  {
    if queue == [] {
      assert v.pending + [] == v.pending;
    } else {
      var v' := v.(pending := v.pending + [queue[0]]);
      assert Modifies(d, queue)[1..] == Modifies(d, queue[1..]);
      ReceiveModifies(d, v', queue[1..]);
      assert v.pending + queue == v'.pending + queue[1..];
    }
  }

  /** A replay from nothing gives the recorded state. */
  lemma ReceiveReplay(d: Key, request: AddDriveRequest, di: DriveInfo, withVerification: bool)
    requires di.lastApprovedModification.Some? ==> di.lastApprovedModification.value.driveKey == d
    ensures ReceiveAll(d, None, Replay(d, request, di, withVerification)) ==
            Some(View(di.pendingModifications, PublishedLast(di), request.expectedCumulativeDownloadSize,
                      if withVerification then di.pendingVerification else None, request.fullReplicatorList,
                      request.modifyDonatorShard, request.modifyRecipientShard, request.driveSize, request.client,
                      request.completedModifications))
  {
    var a, b, v, m := [AddDrive(d, request)], ReplayApproval(di), ReplayVerification(d, di, withVerification),
      Modifies(d, di.pendingModifications);
    ReceiveAllAppend(d, None, a + b + v, m);
    ReceiveAllAppend(d, None, a + b, v);
    ReceiveAllAppend(d, None, a, b);
    var start := View([], None, request.expectedCumulativeDownloadSize, None, request.fullReplicatorList,
                      request.modifyDonatorShard, request.modifyRecipientShard, request.driveSize, request.client,
                      request.completedModifications);
    ReceiveOne(d, None, AddDrive(d, request));
    assert ReceiveAll(d, None, a) == Some(start);
    var approved := start.(lastApproval := PublishedLast(di));
    if b != [] {
      assert b == [b[0]];
      ReceiveOne(d, Some(start), b[0]);
    }
    assert ReceiveAll(d, Some(start), b) == Some(approved);
    var verifying := approved.(verification := if withVerification then di.pendingVerification else None);
    if v != [] {
      assert v == [v[0]];
      ReceiveOne(d, Some(approved), v[0]);
    }
    assert ReceiveAll(d, Some(approved), v) == Some(verifying);
    ReceiveModifies(d, verifying, di.pendingModifications);
    assert [] + di.pendingModifications == di.pendingModifications;
    assert Replay(d, request, di, withVerification) == a + b + v + m;
  }

  lemma ReceiveOne(d: Key, view: Option<View>, m: Message)
    ensures ReceiveAll(d, view, [m]) == Receive(d, view, m)
  {
    assert [m][1..] == [];
  }

  lemma ReplayIsAbout(d: Key, request: AddDriveRequest, di: DriveInfo, withVerification: bool)
    requires di.lastApprovedModification.Some? ==> di.lastApprovedModification.value.driveKey == d
    ensures forall m :: m in Replay(d, request, di, withVerification) ==> m.Drive() == d
  {
    forall m | m in Modifies(d, di.pendingModifications) ensures m.Drive() == d {}
  }

  /** Only a drive's own part of the replay matters to its view. */
  lemma ReceiveReplayDrives(drives: map<Key, DriveInfo>, keys: set<Key>, r: Key, d: Key, view: Option<View>)
    requires keys <= drives.Keys && forall k :: k in drives ==> WellFormedDrive(k, drives[k])
    ensures ReceiveAll(d, view, ReplayDrives(drives, keys, r)) ==
            if d in keys && r in drives[d].driveRequest.fullReplicatorList
            then ReceiveAll(d, view, Replay(d, drives[d].driveRequest, drives[d], true)) else view
    decreases |keys|
  {
    if keys == {} {
    } else {
      var k := Least(keys);
      var first := if r in drives[k].driveRequest.fullReplicatorList
                   then Replay(k, drives[k].driveRequest, drives[k], true) else [];
      ReceiveAllAppend(d, view, first, ReplayDrives(drives, keys - {k}, r));
      ReceiveReplayDrives(drives, keys - {k}, r, d, ReceiveAll(d, view, first));
      assert WellFormedDrive(k, drives[k]);
      if k != d {
        ReplayIsAbout(k, drives[k].driveRequest, drives[k], true);
        ReceiveAllForeign(d, view, first);
      }
    }
  }

  // ----- one event

  /** The approval front is the first entry of the queue, so catching up pops exactly it. */
  lemma CatchUpFront(v: View, approval: PublishedApproval)
    requires v.pending != [] && v.pending[0].transactionHash == approval.modifyTransactionHash
    ensures CatchUp(v, approval) == v.(lastApproval := Some(approval), verification := None,
              pending := v.pending[1..], cumulativeDownload := v.cumulativeDownload + v.pending[0].maxDataSize)
  {
    assert v.pending[..1] == [v.pending[0]];
    assert SumOfMaxSizes([v.pending[0]]) == v.pending[0].maxDataSize;
  }

  lemma ReceiveReconfigured(d: Key, v: View, full: seq<Key>, donator: seq<Key>, recipient: seq<Key>)
    ensures ReceiveAll(d, Some(v), Reconfigured(d, full, donator, recipient)) ==
            Some(v.(replicators := full, donatorShard := donator, recipientShard := recipient))
  {
    var v1 := v.(replicators := full);
    var v2 := v1.(donatorShard := donator);
    var all := Reconfigured(d, full, donator, recipient);
    assert all == [SetReplicators(d, full)] + ([SetShardDonator(d, donator)] + [SetShardRecipient(d, recipient)]);
    ReceiveAllAppend(d, Some(v), [SetReplicators(d, full)],
                     [SetShardDonator(d, donator)] + [SetShardRecipient(d, recipient)]);
    ReceiveAllAppend(d, Some(v1), [SetShardDonator(d, donator)], [SetShardRecipient(d, recipient)]);
    ReceiveOne(d, Some(v), SetReplicators(d, full));
    ReceiveOne(d, Some(v1), SetShardDonator(d, donator));
    ReceiveOne(d, Some(v2), SetShardRecipient(d, recipient));
  }

  /** Under what convergence needs of one event: a new drive key, distinct hashes in the queue, a
      verification result that is the first, and no failed upload check. */
  ghost predicate Trackable(c: Chain, e: Event) {
    && (e.AddDriveEvent? ==> e.d !in c.drives)
    && (e.CancelEvent? ==> DistinctHashes(c.Drive(e.d).pendingModifications))
    && (e.VerificationReadyEvent? && VerifiesNow(c.Drive(e.verifyInfo.driveKey), e.verifyInfo.tx) ==>
          e.verifyInfo.tx !in c.verified)
    && (e.ApprovalReadyEvent? ==> !ApprovalVerdict(c.Drive(e.info.driveKey), e.info).UploadFault?)
  }

  lemma MembershipMirrored(c: Chain, e: Event, view: Option<View>, r: Key, listening: bool)
    requires e.AddReplicatorEvent? || e.RemoveReplicatorEvent?
    requires WellFormed(c) && Defined(c, e) && Mirrors(view, c.Drive(e.d), r, listening)
    ensures Mirrors(ReceiveAll(e.d, view, Outgoing(c, e, r)), Step(c, e).Drive(e.d), r,
                    ListensAfter(c, e, e.d, r, listening))
  {
    var d, k := e.d, e.replicator;
    var di := c.Drive(d);
    assert WellFormedDrive(d, di);
    var di' := Local(c.addrList, di, e);
    var q := di'.driveRequest;
    if r == k && e.AddReplicatorEvent? {
      var told := q.(modifyDonatorShard := Without(q.modifyDonatorShard, r),
                     modifyRecipientShard := Without(q.modifyRecipientShard, r));
      ReceiveReplay(d, told, di', false);
      WithoutTwice(q.fullReplicatorList, r);
    } else if r == k {
      ReceiveOne(d, view, RemoveDrive(d));
    } else if r in q.fullReplicatorList {
      assert r in di.driveRequest.fullReplicatorList;
      var donator := if e.AddReplicatorEvent? then Without(q.modifyDonatorShard, r) else q.modifyDonatorShard;
      var recipient := if e.AddReplicatorEvent? then Without(q.modifyRecipientShard, r) else q.modifyRecipientShard;
      ReceiveReconfigured(d, view.value, q.fullReplicatorList, donator, recipient);
      WithoutTwice(q.fullReplicatorList, r);
    }
  }

  lemma ApprovalMirrored(c: Chain, e: Event, view: Option<View>, r: Key, listening: bool)
    requires e.ApprovalReadyEvent? && Trackable(c, e)
    requires Mirrors(view, c.Drive(e.info.driveKey), r, listening)
    ensures var d := e.info.driveKey;
            Mirrors(ReceiveAll(d, view, Outgoing(c, e, r)), Step(c, e).Drive(d), r, ListensAfter(c, e, d, r, listening))
  {
    if Outgoing(c, e, r) != [] {
      ReceiveOne(e.info.driveKey, view, Outgoing(c, e, r)[0]);
      if Approves(c, e) {
        CatchUpFront(view.value, Publish(e.info));
      }
    }
  }

  lemma ModifyMirrored(c: Chain, e: Event, view: Option<View>, r: Key, listening: bool)
    requires e.ModifyEvent? && Mirrors(view, c.Drive(e.d), r, listening)
    ensures Mirrors(ReceiveAll(e.d, view, Outgoing(c, e, r)), Step(c, e).Drive(e.d), r,
                    ListensAfter(c, e, e.d, r, listening))
  {
    if r in c.Members(e.d) {
      ReceiveOne(e.d, view, Modify(e.d, e.modification));
    }
  }

  lemma CancelReceived(view: Option<View>, di: DriveInfo, d: Key, h: Hash, r: Key, listening: bool, addrList: seq<Key>)
    requires DistinctHashes(di.pendingModifications) && Mirrors(view, di, r, listening)
    ensures Mirrors(Receive(d, view, CancelModify(d, h)), Local(addrList, di, CancelEvent(d, h)), r, listening)
  {
    if view.Some? {
      EraseFirstIsEraseAllIff(view.value.pending, h);
    }
  }

  lemma CancelMirrored(c: Chain, e: Event, view: Option<View>, r: Key, listening: bool)
    requires e.CancelEvent? && Trackable(c, e) && Mirrors(view, c.Drive(e.d), r, listening)
    ensures Mirrors(ReceiveAll(e.d, view, Outgoing(c, e, r)), Step(c, e).Drive(e.d), r,
                    ListensAfter(c, e, e.d, r, listening))
  {
    CancelReceived(view, c.Drive(e.d), e.d, e.hash, r, listening, c.addrList);
    ReceiveOne(e.d, view, CancelModify(e.d, e.hash));
    assert Step(c, e).Drive(e.d) == Local(c.addrList, c.Drive(e.d), e);
  }

  lemma VerificationMirrored(c: Chain, e: Event, view: Option<View>, r: Key, listening: bool)
    requires e.StartVerificationEvent? || e.CancelVerificationEvent? || e.VerificationReadyEvent?
    requires Trackable(c, e)
    requires Mirrors(view, c.Drive(e.Subject().value), r, listening)
    ensures var d := e.Subject().value;
            Mirrors(ReceiveAll(d, view, Outgoing(c, e, r)), Step(c, e).Drive(d), r, ListensAfter(c, e, d, r, listening))
  {
    var d := e.Subject().value;
    if Outgoing(c, e, r) != [] {
      ReceiveOne(d, view, Outgoing(c, e, r)[0]);
    }
  }

  lemma AddDriveMirrored(c: Chain, e: Event, view: Option<View>, r: Key, listening: bool)
    requires e.AddDriveEvent? && Trackable(c, e)
    requires Mirrors(view, c.Drive(e.d), r, listening)
    ensures Mirrors(ReceiveAll(e.d, view, Outgoing(c, e, r)), Step(c, e).Drive(e.d), r,
                    ListensAfter(c, e, e.d, r, listening))
  {
    if Outgoing(c, e, r) != [] {
      ReceiveOne(e.d, view, Outgoing(c, e, r)[0]);
    }
  }

  /** Messages caused by another drive's event are about that drive. */
  lemma OtherDriveUntouched(c: Chain, e: Event, d: Key, view: Option<View>, r: Key)
    requires WellFormed(c) && Addressed(e) && e.Subject() != Some(d)
    ensures ReceiveAll(d, view, Outgoing(c, e, r)) == view && Step(c, e).Drive(d) == c.Drive(d)
  {
    var own := e.Subject().value;
    assert WellFormedDrive(own, c.Drive(own));
    if e.AddReplicatorEvent? {
      var di := Joined(c.Drive(own), e.replicator);
      var q := di.driveRequest;
      ReplayIsAbout(own, q.(modifyDonatorShard := Without(q.modifyDonatorShard, r),
                            modifyRecipientShard := Without(q.modifyRecipientShard, r)), di, false);
    }
    assert forall m :: m in Outgoing(c, e, r) ==> m.Drive() == own;
    ReceiveAllForeign(d, view, Outgoing(c, e, r));
  }

  lemma SingleApprovalMirrored(c: Chain, e: Event, view: Option<View>, r: Key, listening: bool)
    requires e.SingleApprovalReadyEvent?
    requires Mirrors(view, c.Drive(e.info.driveKey), r, listening)
    ensures var d := e.info.driveKey;
            Mirrors(ReceiveAll(d, view, Outgoing(c, e, r)), Step(c, e).Drive(d), r, ListensAfter(c, e, d, r, listening))
  {
    if Outgoing(c, e, r) != [] {
      ReceiveOne(e.info.driveKey, view, Outgoing(c, e, r)[0]);
    }
  }

  lemma {:induction false} OwnEventMirrored(c: Chain, e: Event, d: Key, view: Option<View>, r: Key, listening: bool)
    requires WellFormed(c) && Defined(c, e) && Trackable(c, e) && e.Subject() == Some(d)
    requires Mirrors(view, c.Drive(d), r, listening)
    ensures Mirrors(ReceiveAll(d, view, Outgoing(c, e, r)), Step(c, e).Drive(d), r, ListensAfter(c, e, d, r, listening))
  {
    if e.AddDriveEvent? {
      AddDriveMirrored(c, e, view, r, listening);
    } else if e.AddReplicatorEvent? || e.RemoveReplicatorEvent? {
      MembershipMirrored(c, e, view, r, listening);
    } else if e.ModifyEvent? {
      ModifyMirrored(c, e, view, r, listening);
    } else if e.CancelEvent? {
      CancelMirrored(c, e, view, r, listening);
    } else if e.ApprovalReadyEvent? {
      ApprovalMirrored(c, e, view, r, listening);
    } else if e.SingleApprovalReadyEvent? {
      SingleApprovalMirrored(c, e, view, r, listening);
    } else {
      VerificationMirrored(c, e, view, r, listening);
    }
  }

  lemma StartMirrored(c: Chain, d: Key, r: Key)
    requires WellFormed(c) && r !in c.mail && r in c.addrList
    ensures Mirrors(ViewOf(d, Deliver(c, StartEvent(r))[r]), c.Drive(d), r, true)
  {
    ReceiveReplayDrives(c.drives, c.drives.Keys, r, d, None);
    assert WellFormedDrive(d, c.Drive(d));
    ReceiveReplay(d, c.Drive(d).driveRequest, c.Drive(d), true);
  }

  lemma {:induction false} StepMirrored(c: Chain, e: Event, d: Key, r: Key, listening: set<Key>)
    requires WellFormed(c) && Defined(c, e) && Trackable(c, e) && r in Step(c, e).mail
    requires r in c.mail ==> Mirrors(ViewOf(d, c.mail[r]), c.Drive(d), r, r in listening)
    ensures Mirrors(ViewOf(d, Step(c, e).mail[r]), Step(c, e).Drive(d), r, r in NowListening(c, e, d, listening))
  {
    if r !in c.mail {
      StartMirrored(c, d, r);
    } else {
      ListeningMatches(c, e, d, r, listening);
      if Addressed(e) {
        ToldMirrored(c, e, d, ViewOf(d, c.mail[r]), r, r in listening);
        ReceiveAllAppend(d, None, c.mail[r], Outgoing(c, e, r));
      }
    }
  }

  lemma ToldMirrored(c: Chain, e: Event, d: Key, view: Option<View>, r: Key, listening: bool)
    requires WellFormed(c) && Defined(c, e) && Trackable(c, e) && Addressed(e)
    requires Mirrors(view, c.Drive(d), r, listening)
    ensures Mirrors(ReceiveAll(d, view, Outgoing(c, e, r)), Step(c, e).Drive(d), r,
                    if e.Subject() == Some(d) then ListensAfter(c, e, d, r, listening) else listening)
  {
    if e.Subject() == Some(d) {
      OwnEventMirrored(c, e, d, view, r, listening);
    } else {
      OtherDriveUntouched(c, e, d, view, r);
    }
  }

  // ----- whole runs

  ghost predicate NoUploadFaults(c: Chain, events: seq<Event>) {
    forall i :: 0 <= i < |events| && events[i].ApprovalReadyEvent? ==>
      !ApprovalVerdict(Run(c, events[..i]).Drive(events[i].info.driveKey), events[i].info).UploadFault?
  }

  lemma NoUploadFaultsPrefix(c: Chain, events: seq<Event>)
    requires NoUploadFaults(c, events) && events != []
    ensures NoUploadFaults(c, events[..|events| - 1])
  {
    var earlier := events[..|events| - 1];
    forall i | 0 <= i < |earlier| && earlier[i].ApprovalReadyEvent?
      ensures !ApprovalVerdict(Run(c, earlier[..i]).Drive(earlier[i].info.driveKey), earlier[i].info).UploadFault?
    {
      assert earlier[..i] == events[..i] && events[i].ApprovalReadyEvent?;
    }
  }

  /** Fresh drive keys and transaction hashes, and no failed upload check. */
  ghost predicate OrderlyRun(c: Chain, events: seq<Event>) {
    && Initial(c) && DefinedRun(c, events)
    && FreshModifications(events) && FreshVerifications(events) && FreshDrives(c, events)
    && NoUploadFaults(c, events)
  }

  lemma {:induction false} OrderlyPrefix(c: Chain, events: seq<Event>)
    requires OrderlyRun(c, events) && events != []
    ensures var earlier := events[..|events| - 1];
            OrderlyRun(c, earlier) && Defined(Run(c, earlier), events[|events| - 1])
            && Trackable(Run(c, earlier), events[|events| - 1])
  {
    var earlier, e := events[..|events| - 1], events[|events| - 1];
    PrefixRuns(c, events);
    FreshPrefix(events);
    FreshEarlier(events);
    FreshDrivesPrefix(c, events);
    NoUploadFaultsPrefix(c, events);
    if e.CancelEvent? {
      PendingIsFresh(c, earlier, e.d);
    } else if e.VerificationReadyEvent? {
      PendingVerificationIsFresh(c, earlier);
      if VerifiesNow(Run(c, earlier).Drive(e.verifyInfo.driveKey), e.verifyInfo.tx) {
        assert Verifying(Run(c, earlier), e.verifyInfo.driveKey, e.verifyInfo.tx);
      }
    }
  }

  /** In every state an orderly run reaches, the fold of every running replicator's log gives, for
      every drive, the ledger's own record if it is a member and nothing if it is not. */
  lemma {:induction false} ReplayConvergence(c: Chain, events: seq<Event>, d: Key, r: Key)
    requires OrderlyRun(c, events) && r in Run(c, events).mail
    ensures var s := Run(c, events);
            Mirrors(ViewOf(d, s.mail[r]), s.Drive(d), r, r in Listening(c, events, d))
  {
    if events == [] {
    } else {
      var earlier, e := events[..|events| - 1], events[|events| - 1];
      OrderlyPrefix(c, events);
      RunWellFormed(c, earlier);
      if r in Run(c, earlier).mail {
        ReplayConvergence(c, earlier, d, r);
      }
      StepMirrored(Run(c, earlier), e, d, r, Listening(c, earlier, d));
    }
  }

  /** Hence two running members of a drive agree with each other; on a pending verification exactly
      when both or neither of them were told of it and have not dropped it. */
  lemma {:induction false} MembersAgree(c: Chain, events: seq<Event>, d: Key, r: Key, r': Key)
    requires OrderlyRun(c, events)
    requires var s := Run(c, events); {r, r'} <= s.mail.Keys && r in s.Members(d) && r' in s.Members(d)
    ensures var v, v' := ViewOf(d, Run(c, events).mail[r]), ViewOf(d, Run(c, events).mail[r']);
            && v.Some? && v'.Some?
            && v.value.pending == v'.value.pending
            && v.value.lastApproval == v'.value.lastApproval
            && v.value.cumulativeDownload == v'.value.cumulativeDownload
            && v.value.replicators == v'.value.replicators
            && v.value.driveSize == v'.value.driveSize && v.value.client == v'.value.client
            && (v.value.verification == v'.value.verification <==>
                  Run(c, events).Drive(d).pendingVerification.None?
                  || (r in Listening(c, events, d) <==> r' in Listening(c, events, d)))
  {
    ReplayConvergence(c, events, d, r);
    ReplayConvergence(c, events, d, r');
  }

  /** The one condition on approvals is needed: an approval that takes the queue's front keeps a running
      member in agreement exactly when its upload check passes. */
  lemma FaultBreaksAgreement(c: Chain, e: Event, r: Key, listening: bool, listening': bool)
    requires Pops(c, e) && r in c.Members(e.info.driveKey)
    requires r in c.mail && Mirrors(ViewOf(e.info.driveKey, c.mail[r]), c.Drive(e.info.driveKey), r, listening)
    requires Approves(c, e) ==> !listening'
    ensures var d, t := e.info.driveKey, Step(c, e);
            Mirrors(ViewOf(d, t.mail[r]), t.Drive(d), r, listening') <==> Approves(c, e)
  {
    var d := e.info.driveKey;
    ReceiveAllAppend(d, None, c.mail[r], Outgoing(c, e, r));
    if Approves(c, e) {
      ApprovalMirrored(c, e, ViewOf(d, c.mail[r]), r, listening);
    } else {
      assert Outgoing(c, e, r) == [];
      assert |Step(c, e).Drive(d).pendingModifications| == |c.Drive(d).pendingModifications| - 1;
    }
  }
}
