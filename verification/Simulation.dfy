/** Each drive of the multi-drive ledger, with quorums and the completed list projected away, behaves
    like the single-drive ledger. */
module Simulation {
  import opened Basics
  import opened Protocol
  import opened Replica
  import opened Chain
  import opened Convergence
  import opened Isolation
  import opened SingleDrive

  /** The single-drive step that matches an event for drive `d`; events of other drives, rejected or
      premature approvals, uncounted single approvals, membership and verification stutter. */
  function Project(s: Chain, e: Event, d: Key): seq<SingleEvent> {
    if e.Subject() != Some(d) then []
    else match e
      case AddDriveEvent(_, client, size, _) => [AddOnly(d, client, size)]
      case ModifyEvent(_, m) => [ModifyOnly(d, m)]
      case CancelEvent(_, h) => [CancelOnly(d, h)]
      case ApprovalReadyEvent(r, info) => if Approves(s, e) then [ApproveOnly(r, info)] else []
      case SingleApprovalReadyEvent(r, info) => if Counts(s, e) then [ApproveSingleOnly(r, info)] else []
      case _ => []
  }

  ghost predicate SameRecord(s: Chain, t: Single, d: Key) {
    && t.pending == s.Drive(d).pendingModifications
    && t.lastApproved == s.Drive(d).lastApprovedModification
    && t.Cumulative() == s.Drive(d).driveRequest.expectedCumulativeDownloadSize
    && (s.Members(d) != [] ==> t.drive.Some?)
    && (t.drive.Some? ==> t.drive.value.1.driveSize == s.Drive(d).driveRequest.driveSize
                          && t.drive.value.1.client == s.Drive(d).driveRequest.client)
  }

  ghost predicate SameSharedEntries(s: Chain, t: Single, h: Hash) {
    SameEntry(s.rootHashes, t.rootHashes, h) && SameEntry(s.sizes, t.sizes, h)
  }

  /** The two ledgers hold the same of the drive, and of every hash that no other drive uses. */
  ghost predicate Matches(s: Chain, t: Single, events: seq<Event>, d: Key) {
    SameRecord(s, t, d) && forall h: Hash :: OnlyOn(events, d, h) ==> SameSharedEntries(s, t, h)
  }

  /** The single-drive ledger's run; `None` if some step would not be defined. */
  ghost function SingleRun(t: Option<Single>, events: seq<SingleEvent>): Option<Single>
    decreases |events|
  {
    if events == [] || t.None? then t
    else if !SingleDefined(t.value, events[0]) then None
    else SingleRun(Some(SingleStep(t.value, events[0])), events[1..])
  }

  ghost function Simulated(c: Chain, t: Single, events: seq<Event>, d: Key): Option<Single> {
    if events == [] then Some(t)
    else SingleRun(Simulated(c, t, events[..|events| - 1], d),
                   Project(Run(c, events[..|events| - 1]), events[|events| - 1], d))
  }

  lemma {:induction false} SingleRunOne(t: Single, e: SingleEvent)
    requires SingleDefined(t, e)
    ensures SingleRun(Some(t), [e]) == Some(SingleStep(t, e))
  {
    assert [e][1..] == [];
  }

  /** One event that does not fail the upload check is matched by at most one defined step. */
  lemma {:induction false} RecordSimulated(s: Chain, e: Event, t: Single, d: Key)
    requires SameRecord(s, t, d)
    requires Defined(s, e) && (e.AddDriveEvent? ==> e.d !in s.drives)
    requires e.AddReplicatorEvent? && e.d == d ==> t.drive.Some?
    requires e.ApprovalReadyEvent? ==> !ApprovalVerdict(s.Drive(e.info.driveKey), e.info).UploadFault?
    ensures |Project(s, e, d)| <= 1
    ensures var t' := SingleRun(Some(t), Project(s, e, d));
            t'.Some? && SameRecord(Step(s, e), t'.value, d)
  {
    var told := Project(s, e, d);
    if told != [] {
      if e.ApprovalReadyEvent? {
        assert e.info.opinions[0] in e.info.opinions;
        assert e.info.opinions[0].replicatorKey in s.Members(d);
      }
      assert SingleDefined(t, told[0]);
      SingleRunOne(t, told[0]);
    }
  }

  /** The shared maps after a matched event: both ledgers write the same entry, or none. */
  lemma EntryMatched(s: Chain, e: Event, t: Single, told: SingleEvent, h: Hash)
    requires e.Subject().Some? && Project(s, e, e.Subject().value) == [told] && SingleDefined(t, told)
    requires SameRecord(s, t, e.Subject().value) && SameSharedEntries(s, t, h)
    ensures SameSharedEntries(Step(s, e), SingleStep(t, told), h)
  {
    if told.ApproveOnly? {
      ApprovalMatched(s, e, t, h);
    } else if told.ApproveSingleOnly? {
      SingleApprovalMatched(s, e, t, h);
    }
  }

  lemma ApprovalMatched(s: Chain, e: Event, t: Single, h: Hash)
    requires Approves(s, e) && SameRecord(s, t, e.info.driveKey) && SameSharedEntries(s, t, h)
    requires SingleDefined(t, ApproveOnly(e.reporter, e.info))
    ensures SameSharedEntries(Step(s, e), SingleStep(t, ApproveOnly(e.reporter, e.info)), h)
  {
    assert s.Sizes(h) == t.Sizes(h);
    assert Step(s, e).rootHashes == NewRootHashes(s, e) && Step(s, e).sizes == NewSizes(s, e);
  }

  lemma SingleApprovalMatched(s: Chain, e: Event, t: Single, h: Hash)
    requires Counts(s, e) && SameRecord(s, t, e.info.driveKey) && SameSharedEntries(s, t, h)
    requires SingleDefined(t, ApproveSingleOnly(e.reporter, e.info))
    ensures SameSharedEntries(Step(s, e), SingleStep(t, ApproveSingleOnly(e.reporter, e.info)), h)
  {
    assert s.Sizes(h) == t.Sizes(h);
    assert Step(s, e).rootHashes == NewRootHashes(s, e) && Step(s, e).sizes == NewSizes(s, e);
  }

  /** An event that is not matched writes no entry for a hash that only this drive uses. */
  lemma EntryUnmatched(s: Chain, e: Event, d: Key, h: Hash)
    requires Project(s, e, d) == [] && (SharedHash(e) == Some(h) ==> e.Subject() == Some(d))
    ensures SameEntry(Step(s, e).rootHashes, s.rootHashes, h) && SameEntry(Step(s, e).sizes, s.sizes, h)
  {
  }

  lemma {:induction false} EntrySimulated(s: Chain, e: Event, t: Single, d: Key, h: Hash)
    requires SameRecord(s, t, d) && SameSharedEntries(s, t, h)
    requires |Project(s, e, d)| <= 1 && SingleRun(Some(t), Project(s, e, d)).Some?
    requires SharedHash(e) == Some(h) ==> e.Subject() == Some(d)
    ensures SameSharedEntries(Step(s, e), SingleRun(Some(t), Project(s, e, d)).value, h)
  {
    var told := Project(s, e, d);
    if told == [] {
      EntryUnmatched(s, e, d, h);
    } else {
      assert told == [told[0]];
      SingleRunOne(t, told[0]);
      EntryMatched(s, e, t, told[0], h);
    }
  }

  /** Replicators join the drive only after it was added; the older ledger has no drive before that. */
  ghost predicate JoinedAfterAdded(events: seq<Event>, d: Key) {
    forall i :: 0 <= i < |events| && events[i].AddReplicatorEvent? && events[i].d == d ==> Added(events[..i], d)
  }

  ghost predicate Added(events: seq<Event>, d: Key) {
    exists e :: e in events && e.AddDriveEvent? && e.d == d
  }

  lemma JoinedAfterAddedPrefix(events: seq<Event>, d: Key)
    requires events != [] && JoinedAfterAdded(events, d)
    ensures JoinedAfterAdded(events[..|events| - 1], d)
    ensures var e := events[|events| - 1]; e.AddReplicatorEvent? && e.d == d ==> Added(events[..|events| - 1], d)
  {
    var earlier := events[..|events| - 1];
    forall i | 0 <= i < |earlier| && earlier[i].AddReplicatorEvent? && earlier[i].d == d
      ensures Added(earlier[..i], d) {
      assert earlier[..i] == events[..i] && events[i] == earlier[i];
    }
  }

  lemma {:induction false} DriveOnceAdded(s: Chain, e: Event, t: Single, d: Key)
    requires SingleRun(Some(t), Project(s, e, d)).Some?
    ensures SingleRun(Some(t), Project(s, e, d)).value.drive.Some? <==> t.drive.Some? || (e.AddDriveEvent? && e.d == d)
  {
    var told := Project(s, e, d);
    if told != [] {
      SingleRunOne(t, told[0]);
    }
  }

  /** The runs that the older ledger can follow: drive keys are fresh, no upload check fails, and
      replicators join after the drive was added. */
  ghost predicate Followable(c: Chain, t: Single, events: seq<Event>, d: Key) {
    && Initial(c) && DefinedRun(c, events) && FreshDrives(c, events) && NoUploadFaults(c, events)
    && JoinedAfterAdded(events, d)
    && t == Single(c.addrList, None, [], None, map[], map[], t.mail)
  }

  lemma FollowablePrefix(c: Chain, t: Single, events: seq<Event>, d: Key)
    requires Followable(c, t, events, d) && events != []
    ensures var earlier, e := events[..|events| - 1], events[|events| - 1];
            && Followable(c, t, earlier, d)
            && Defined(Run(c, earlier), e)
            && (e.AddDriveEvent? ==> e.d !in Run(c, earlier).drives)
            && (e.AddReplicatorEvent? && e.d == d ==> Added(earlier, d))
            && (e.ApprovalReadyEvent? ==>
                  !ApprovalVerdict(Run(c, earlier).Drive(e.info.driveKey), e.info).UploadFault?)
  {
    PrefixRuns(c, events);
    FreshDrivesPrefix(c, events);
    NoUploadFaultsPrefix(c, events);
    JoinedAfterAddedPrefix(events, d);
  }

  lemma AddedLater(events: seq<Event>, d: Key)
    requires events != []
    ensures var e := events[|events| - 1];
            Added(events, d) <==> Added(events[..|events| - 1], d) || (e.AddDriveEvent? && e.d == d)
  {
    assert events == events[..|events| - 1] + [events[|events| - 1]];
  }

  lemma {:induction false} RecordsSimulated(c: Chain, t: Single, events: seq<Event>, d: Key)
    requires Followable(c, t, events, d)
    ensures var t' := Simulated(c, t, events, d);
            t'.Some? && SameRecord(Run(c, events), t'.value, d) && (t'.value.drive.Some? <==> Added(events, d))
  {
    if events == [] {
    } else {
      var earlier, e := events[..|events| - 1], events[|events| - 1];
      FollowablePrefix(c, t, events, d);
      RecordsSimulated(c, t, earlier, d);
      AddedLater(events, d);
      var s, t0 := Run(c, earlier), Simulated(c, t, earlier, d).value;
      RecordSimulated(s, e, t0, d);
      DriveOnceAdded(s, e, t0, d);
      assert Simulated(c, t, events, d) == SingleRun(Some(t0), Project(s, e, d));
    }
  }

  lemma {:induction false} EntriesSimulated(c: Chain, t: Single, events: seq<Event>, d: Key, h: Hash)
    requires Followable(c, t, events, d) && OnlyOn(events, d, h)
    ensures var t' := Simulated(c, t, events, d); t'.Some? && SameSharedEntries(Run(c, events), t'.value, h)
  {
    if events == [] {
    } else {
      var earlier, e := events[..|events| - 1], events[|events| - 1];
      FollowablePrefix(c, t, events, d);
      assert e in events;
      OnlyOnPrefix(events, d, h);
      RecordsSimulated(c, t, earlier, d);
      EntriesSimulated(c, t, earlier, d, h);
      var s, t0 := Run(c, earlier), Simulated(c, t, earlier, d).value;
      RecordSimulated(s, e, t0, d);
      EntrySimulated(s, e, t0, d, h);
    }
  }

  /** Forward simulation of whole runs, started from the empty single-drive ledger: every step the
      older ledger is asked to make is defined, and the two ledgers keep holding the same. */
  lemma {:induction false} ForwardSimulation(c: Chain, t: Single, events: seq<Event>, d: Key)
    requires Followable(c, t, events, d)
    ensures var t' := Simulated(c, t, events, d);
            t'.Some? && Matches(Run(c, events), t'.value, events, d) && (t'.value.drive.Some? <==> Added(events, d))
  {
    RecordsSimulated(c, t, events, d);
    forall h: Hash | OnlyOn(events, d, h)
      ensures SameSharedEntries(Run(c, events), Simulated(c, t, events, d).value, h)
    {
      EntriesSimulated(c, t, events, d, h);
    }
  }

  // ----- a failed upload check

  /** The old ledger can make the step, and then holds the record. */
  ghost predicate Follows(after: Chain, t: Single, told: SingleEvent, d: Key) {
    SingleDefined(t, told) && SameRecord(after, SingleStep(t, told), d)
  }

  /** What a failed upload check leaves of the drive: popped and counted, but not recorded. */
  lemma FaultLeaves(s: Chain, e: Event)
    requires e.ApprovalReadyEvent? && ApprovalVerdict(s.Drive(e.info.driveKey), e.info).UploadFault?
    ensures var d, u := e.info.driveKey, Step(s, e);
            var queue := s.Drive(d).pendingModifications;
            && queue != [] && u.Drive(d).pendingModifications == queue[1..] && s.Members(d) != []
            && u.Members(d) == s.Members(d)
            && u.Drive(d).lastApprovedModification == s.Drive(d).lastApprovedModification
            && u.Drive(d).driveRequest.expectedCumulativeDownloadSize
               == s.Drive(d).driveRequest.expectedCumulativeDownloadSize + queue[0].maxDataSize
  {
    assert e.info.opinions[0] in e.info.opinions;
    assert e.info.opinions[0].replicatorKey in s.Members(e.info.driveKey);
  }

  /** The modification is the one approved last. */
  predicate ApprovedAgain(di: DriveInfo, h: Hash) {
    di.lastApprovedModification.Some? && di.lastApprovedModification.value.modifyTransactionHash == h
  }

  /** The front has size zero, and erasing its hash takes only it. */
  predicate EmptyAndAlone(queue: seq<ModificationRequest>)
    requires queue != []
  {
    queue[0].maxDataSize == 0 && forall m :: m in queue[1..] ==> m.transactionHash != queue[0].transactionHash
  }

  lemma ErasesFrontIff(queue: seq<ModificationRequest>, h: Hash)
    requires queue != []
    ensures EraseHash(queue, h) == queue[1..] <==>
            h == queue[0].transactionHash && forall m :: m in queue[1..] ==> m.transactionHash != h
  {
    var rest := queue[1..];
    if forall m :: m in rest ==> m.transactionHash != h {
      EraseHashAbsent(rest, h);
      if queue[0].transactionHash != h {
        assert queue == [queue[0]] + rest;
        EraseHashAbsent(queue, h);
      }
    }
  }

  lemma FaultFollowed(s: Chain, e: Event, t: Single, d: Key) returns (told: SingleEvent)
    requires e.ApprovalReadyEvent? && e.info.driveKey == d && SameRecord(s, t, d)
    requires ApprovalVerdict(s.Drive(d), e.info).UploadFault?
    requires ApprovedAgain(s.Drive(d), e.info.modifyTransactionHash) || EmptyAndAlone(s.Drive(d).pendingModifications)
    ensures Follows(Step(s, e), t, told, d)
  {
    var queue := s.Drive(d).pendingModifications;
    FaultLeaves(s, e);
    if ApprovedAgain(s.Drive(d), e.info.modifyTransactionHash) {
      told := ApproveOnly(0, s.Drive(d).lastApprovedModification.value);
    } else {
      told := CancelOnly(d, queue[0].transactionHash);
      ErasesFrontIff(queue, queue[0].transactionHash);
    }
  }

  lemma FollowsOnlyIf(s: Chain, e: Event, t: Single, d: Key, told: SingleEvent)
    requires e.ApprovalReadyEvent? && e.info.driveKey == d && SameRecord(s, t, d)
    requires ApprovalVerdict(s.Drive(d), e.info).UploadFault? && Follows(Step(s, e), t, told, d)
    ensures ApprovedAgain(s.Drive(d), e.info.modifyTransactionHash) || EmptyAndAlone(s.Drive(d).pendingModifications)
  {
    FaultLeaves(s, e);
    if told.CancelOnly? {
      ErasesFrontIff(s.Drive(d).pendingModifications, told.hash);
    }
  }

  /** After a failed upload check no single step of the old ledger leaves the same record, except that an
      approval reported a second time is recorded twice there, and that popping an empty modification
      looks like cancelling it. */
  lemma FaultFollowedIff(s: Chain, e: Event, t: Single, d: Key)
    requires e.ApprovalReadyEvent? && e.info.driveKey == d && SameRecord(s, t, d)
    requires ApprovalVerdict(s.Drive(d), e.info).UploadFault?
    ensures (exists told :: Follows(Step(s, e), t, told, d)) <==>
            ApprovedAgain(s.Drive(d), e.info.modifyTransactionHash)
            || EmptyAndAlone(s.Drive(d).pendingModifications)
  {
    if told :| Follows(Step(s, e), t, told, d) {
      FollowsOnlyIf(s, e, t, d, told);
    } else if ApprovedAgain(s.Drive(d), e.info.modifyTransactionHash)
              || EmptyAndAlone(s.Drive(d).pendingModifications) {
      var told := FaultFollowed(s, e, t, d);
      assert false;
    }
  }
}
