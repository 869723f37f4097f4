/** What a handler leaves behind, said in the fields it writes: the drive's record, the entries shared by
    all drives, and who is told what. */
module Effects {
  import opened Basics
  import opened Protocol
  import opened Chain
  import opened Uploads
  import opened SingleDrive

  ghost function AsSet(list: seq<Key>): set<Key> {
    set r | r in list
  }

  /** Exactly the running replicators in `who` are told, exactly `m`. */
  ghost predicate Tells(c: Chain, t: Chain, who: set<Key>, m: Message) {
    && t.mail.Keys == c.mail.Keys
    && forall r :: r in c.mail ==> t.mail[r] == if r in who then c.mail[r] + [m] else c.mail[r]
  }

  ghost predicate TellsNobody(c: Chain, t: Chain) {
    t.mail == c.mail
  }

  ghost predicate SameDrives(c: Chain, t: Chain) {
    forall d: Key :: t.Drive(d) == c.Drive(d)
  }

  ghost predicate SameOtherDrives(c: Chain, t: Chain, d: Key) {
    forall k: Key :: k != d ==> t.Drive(k) == c.Drive(k)
  }

  /** Nothing is recorded, at most an empty record is created for a drive that had none. */
  ghost predicate RecordsNothing(c: Chain, t: Chain) {
    && SameDrives(c, t) && t.addrList == c.addrList
    && t.rootHashes == c.rootHashes && t.sizes == c.sizes && t.verified == c.verified
  }

  // ----- an addition

  /** Without a list every replicator of the environment becomes a member, with one exactly the listed
      ones; each running member is told the whole request once, and nobody else anything. */
  lemma AdditionRecorded(c: Chain, d: Key, client: Key, driveSize: nat, list: seq<Key>)
    ensures var t := Step(c, AddDriveEvent(d, client, driveSize, list));
            var members := if list == [] then c.addrList else list;
            && d in t.drives && SameOtherDrives(c, t, d)
            && t.Drive(d).driveRequest.fullReplicatorList == members
            && t.Drive(d).driveRequest.modifyDonatorShard == members
            && t.Drive(d).driveRequest.modifyRecipientShard == members
            && t.Drive(d).driveRequest.driveSize == driveSize && t.Drive(d).driveRequest.client == client
            && t.Drive(d).driveRequest.expectedCumulativeDownloadSize == 0
            && t.Drive(d).driveRequest.completedModifications == []
            && t.Drive(d).pendingModifications == [] && t.Drive(d).uploads == map[]
            && t.Drive(d).pendingVerification.None? && t.Drive(d).lastApprovedModification.None?
            && Tells(c, t, AsSet(members), AddDrive(d, t.Drive(d).driveRequest))
  {
    var e := AddDriveEvent(d, client, driveSize, list);
    forall r | r in c.mail && r !in Step(c, e).Members(d) ensures Step(c, e).mail[r] == c.mail[r] {
      assert c.mail[r] + [] == c.mail[r];
    }
  }

  /** Without a list the request is the one the older ledger would record and send. */
  lemma SameAddition(c: Chain, t: Single, d: Key, client: Key, driveSize: nat)
    requires t.addrList == c.addrList
    ensures var u := SingleStep(t, AddOnly(d, client, driveSize));
            u.drive == Some((d, Step(c, AddDriveEvent(d, client, driveSize, [])).Drive(d).driveRequest))
  {
  }

  // ----- a report of an approval

  /** The queue of the report's drive starts with its modification. */
  predicate AboutFront(c: Chain, info: ApprovalTransactionInfo) {
    var queue := c.Drive(info.driveKey).pendingModifications;
    queue != [] && queue[0].transactionHash == info.modifyTransactionHash
  }

  /** Every opinion is by a member, and there are more than two thirds as many as members. */
  predicate EnoughMembersOpine(c: Chain, info: ApprovalTransactionInfo) {
    && (forall o :: o in info.opinions ==> o.replicatorKey in c.Members(info.driveKey))
    && 3 * |info.opinions| > 2 * |c.Members(info.driveKey)|
  }

  /** A report that is not about the front is ignored. */
  lemma PrematureReport(c: Chain, reporter: Key, info: ApprovalTransactionInfo)
    requires !AboutFront(c, info)
    ensures var e := ApprovalReadyEvent(reporter, info);
            RecordsNothing(c, Step(c, e)) && TellsNobody(c, Step(c, e)) && Passes(c, e)
  {
    var e := ApprovalReadyEvent(reporter, info);
    ApprovalUnanswered(c, reporter, info);
    assert NewDrives(c, e) == c.drives[info.driveKey := c.Drive(info.driveKey)];
  }

  /** One about the front without enough members' opinions changes nothing; only the reporter is told. */
  lemma RejectedReport(c: Chain, reporter: Key, info: ApprovalTransactionInfo)
    requires AboutFront(c, info) && !EnoughMembersOpine(c, info)
    ensures var e := ApprovalReadyEvent(reporter, info);
            && RecordsNothing(c, Step(c, e)) && Passes(c, e)
            && Tells(c, Step(c, e), {reporter}, ApprovalFailed(info.driveKey, info.modifyTransactionHash))
  {
    var e := ApprovalReadyEvent(reporter, info);
    assert ApprovalVerdict(c.Drive(info.driveKey), info).InvalidOpinions?;
    assert NewDrives(c, e) == c.drives[info.driveKey := c.Drive(info.driveKey)];
    ToldOnly(c, e, {reporter}, ApprovalFailed(info.driveKey, info.modifyTransactionHash));
  }

  lemma ToldOnly(c: Chain, e: Event, who: set<Key>, m: Message)
    requires Addressed(e) && forall r :: r in c.mail ==> Outgoing(c, e, r) == if r in who then [m] else []
    ensures Tells(c, Step(c, e), who, m)
  {
    forall r | r in c.mail && r !in who ensures Step(c, e).mail[r] == c.mail[r] {
      assert c.mail[r] + [] == c.mail[r];
    }
  }

  /** The front is gone and its size added; the layouts recorded are those of the first `n` opinions. */
  ghost predicate FrontTaken(c: Chain, t: Chain, info: ApprovalTransactionInfo, n: nat)
    requires AboutFront(c, info) && n <= |info.opinions|
  {
    var before, after := c.Drive(info.driveKey), t.Drive(info.driveKey);
    && SameOtherDrives(c, t, info.driveKey) && t.addrList == c.addrList && t.verified == c.verified
    && after.pendingModifications == before.pendingModifications[1..]
    && after.driveRequest == before.driveRequest.(expectedCumulativeDownloadSize :=
         before.driveRequest.expectedCumulativeDownloadSize + before.pendingModifications[0].maxDataSize)
    && after.pendingVerification == before.pendingVerification
    && (forall r :: LayoutOf(after.uploads, r) == LayoutBefore(before.uploads, info.opinions, n, r))
  }

  /** The opinions' totals are added to those of the modification, and no other's change. */
  ghost predicate TotalsAdded(c: Chain, t: Chain, info: ApprovalTransactionInfo) {
    && (forall h: Hash :: h != info.modifyTransactionHash ==> t.Sizes(h) == c.Sizes(h))
    && (forall x: nat :: x in t.Sizes(info.modifyTransactionHash) <==>
          x in c.Sizes(info.modifyTransactionHash) || exists o :: o in info.opinions && Total(o.uploadLayout) == x)
  }

  /** The approval told is the one reported: its root hash, and as keys the authors of its opinions in order. */
  ghost predicate IsReported(p: PublishedApproval, info: ApprovalTransactionInfo) {
    && p.driveKey == info.driveKey && p.modifyTransactionHash == info.modifyTransactionHash
    && p.rootHash == info.rootHash && |p.replicatorKeys| == |info.opinions|
    && forall i :: 0 <= i < |info.opinions| ==> p.replicatorKeys[i] == info.opinions[i].replicatorKey
  }

  ghost predicate PublishesReport(m: Message, info: ApprovalTransactionInfo) {
    m.ApprovalPublished? && IsReported(m.approval, info)
  }

  /** With enough members' opinions whose counters do not fall, the front is taken, and the approval is
      recorded with its root hash and its totals; each running member is told of it once. The last
      assertion fails exactly if the modification's totals are then not one. */
  lemma AcceptedReport(c: Chain, reporter: Key, info: ApprovalTransactionInfo) returns (m: Message)
    requires AboutFront(c, info) && EnoughMembersOpine(c, info)
    requires PassUpTo(c.Drive(info.driveKey).uploads, info.opinions, |info.opinions|)
    ensures var e := ApprovalReadyEvent(reporter, info);
            var t, h := Step(c, e), info.modifyTransactionHash;
            && FrontTaken(c, t, info, |info.opinions|)
            && t.Drive(info.driveKey).lastApprovedModification == Some(info)
            && t.rootHashes == c.rootHashes[h := info.rootHash] && TotalsAdded(c, t, info)
            && PublishesReport(m, info) && Tells(c, t, AsSet(c.Members(info.driveKey)), m)
            && (Passes(c, e) <==> |t.Sizes(h)| == 1)
  {
    var e := ApprovalReadyEvent(reporter, info);
    m := ApprovalPublished(Publish(info));
    RecordStops(c.Drive(info.driveKey).uploads, info.opinions, |info.opinions|);
    assert ApprovalVerdict(c.Drive(info.driveKey), info).Accepted?;
    ToldOnly(c, e, AsSet(c.Members(info.driveKey)), m);
    AddedTotals(c, e);
    SingletonSet(Step(c, e).Sizes(info.modifyTransactionHash));
  }

  lemma AddedTotals(c: Chain, e: Event)
    requires Approves(c, e) || Counts(c, e)
    ensures TotalsAdded(c, Step(c, e), e.info)
    ensures SizesAgree(c, e.info) <==> exists x :: Step(c, e).Sizes(e.info.modifyTransactionHash) == {x}
  {
  }

  /** When the counters of the opinion after the first `n` fall, an assertion fails: the front is gone, and
      its size and the first `n` layouts are recorded, but no approval is, and nobody is told. */
  lemma FailedReport(c: Chain, reporter: Key, info: ApprovalTransactionInfo, n: nat)
    requires AboutFront(c, info) && EnoughMembersOpine(c, info)
    requires n < |info.opinions| && PassUpTo(c.Drive(info.driveKey).uploads, info.opinions, n)
    ensures var e := ApprovalReadyEvent(reporter, info);
            var t := Step(c, e);
            && FrontTaken(c, t, info, n) && !Passes(c, e) && TellsNobody(c, t)
            && t.Drive(info.driveKey).lastApprovedModification == c.Drive(info.driveKey).lastApprovedModification
            && t.rootHashes == c.rootHashes && t.sizes == c.sizes
  {
    RecordStops(c.Drive(info.driveKey).uploads, info.opinions, n);
    assert ApprovalVerdict(c.Drive(info.driveKey), info).UploadFault?;
    ApprovalUnanswered(c, reporter, info);
  }

  // ----- a report of a single opinion

  /** The first author is a member. */
  predicate MemberOpines(c: Chain, info: ApprovalTransactionInfo)
    requires info.opinions != []
  {
    info.opinions[0].replicatorKey in c.Members(info.driveKey)
  }

  /** The report is about the drive's last approval. */
  predicate AboutLast(c: Chain, info: ApprovalTransactionInfo) {
    var approval := c.Drive(info.driveKey).lastApprovedModification;
    approval.Some? && approval.value.modifyTransactionHash == info.modifyTransactionHash
  }

  /** One whose first author is not a member, or that is not about the last approval, is ignored. */
  lemma IgnoredSingle(c: Chain, reporter: Key, info: ApprovalTransactionInfo)
    requires info.opinions != [] && (!MemberOpines(c, info) || !AboutLast(c, info))
    ensures var e := SingleApprovalReadyEvent(reporter, info);
            RecordsNothing(c, Step(c, e)) && TellsNobody(c, Step(c, e)) && Passes(c, e)
  {
    var e := SingleApprovalReadyEvent(reporter, info);
    SingleApprovalUnanswered(c, reporter, info);
    assert NewDrives(c, e) == c.drives[info.driveKey := c.Drive(info.driveKey)];
  }

  /** Only the layouts of the first `n` opinions are recorded for the drive. */
  ghost predicate LayoutsRecorded(c: Chain, t: Chain, info: ApprovalTransactionInfo, n: nat)
    requires n <= |info.opinions|
  {
    var before, after := c.Drive(info.driveKey), t.Drive(info.driveKey);
    && SameOtherDrives(c, t, info.driveKey) && t.addrList == c.addrList
    && t.verified == c.verified && t.rootHashes == c.rootHashes
    && after == before.(uploads := after.uploads)
    && (forall r :: LayoutOf(after.uploads, r) == LayoutBefore(before.uploads, info.opinions, n, r))
  }

  /** A member's one opinion about the last approval, whose counters do not fall, is recorded with its
      total. If that is the modification's only one, the reporter, and nobody else, is told once; if not,
      an assertion fails and nobody is told. */
  lemma CountedSingle(c: Chain, reporter: Key, info: ApprovalTransactionInfo)
    requires |info.opinions| == 1 && MemberOpines(c, info) && AboutLast(c, info)
    requires PassUpTo(c.Drive(info.driveKey).uploads, info.opinions, 1)
    ensures var e := SingleApprovalReadyEvent(reporter, info);
            var t, d, h, o := Step(c, e), info.driveKey, info.modifyTransactionHash, info.opinions[0];
            && LayoutsRecorded(c, t, info, 1) && TotalsAdded(c, t, info)
            && t.Drive(d).uploads == c.Drive(d).uploads[o.replicatorKey := o.uploadLayout]
            && (Passes(c, e) <==> c.Sizes(h) <= {Total(o.uploadLayout)})
            && (if c.Sizes(h) <= {Total(o.uploadLayout)} then Tells(c, t, {reporter}, SingleApprovalPublished(d, h))
                else TellsNobody(c, t))
  {
    var e := SingleApprovalReadyEvent(reporter, info);
    var h, total := info.modifyTransactionHash, Total(info.opinions[0].uploadLayout);
    RecordStops(c.Drive(info.driveKey).uploads, info.opinions, 1);
    assert info.opinions == [info.opinions[0]];
    assert Counts(c, e);
    AddedTotals(c, e);
    assert Totals(info.opinions) == {total};
    assert SizesAgree(c, info) <==> c.Sizes(h) <= {total} by {
      if c.Sizes(h) <= {total} {
        assert c.Sizes(h) + Totals(info.opinions) == {total};
      }
    }
    if c.Sizes(h) <= {total} {
      ToldOnly(c, e, {reporter}, SingleApprovalPublished(info.driveKey, h));
    } else {
      SingleApprovalUnanswered(c, reporter, info);
    }
  }

  /** With falling counters, or with more than one opinion, an assertion fails after the layouts up to the
      failure are recorded: no total is, and nobody is told. */
  lemma FailedSingle(c: Chain, reporter: Key, info: ApprovalTransactionInfo, n: nat)
    requires info.opinions != [] && MemberOpines(c, info) && AboutLast(c, info)
    requires PassUpTo(c.Drive(info.driveKey).uploads, info.opinions, n) && (n < |info.opinions| || n > 1)
    ensures var e := SingleApprovalReadyEvent(reporter, info);
            var t := Step(c, e);
            && LayoutsRecorded(c, t, info, n) && t.sizes == c.sizes && TellsNobody(c, t) && !Passes(c, e)
  {
    RecordStops(c.Drive(info.driveKey).uploads, info.opinions, n);
    SingleApprovalUnanswered(c, reporter, info);
  }

  // ----- the client's requests

  /** A modification is queued last and told to each running member, and to nobody else, once. */
  lemma ModificationRequested(c: Chain, d: Key, m: ModificationRequest)
    ensures var t := Step(c, ModifyEvent(d, m));
            && SameOtherDrives(c, t, d)
            && t.rootHashes == c.rootHashes && t.sizes == c.sizes && t.verified == c.verified
            && t.Drive(d) == c.Drive(d).(pendingModifications := c.Drive(d).pendingModifications + [m])
            && Tells(c, t, AsSet(c.Members(d)), Modify(d, m))
  {
    ToldOnly(c, ModifyEvent(d, m), AsSet(c.Members(d)), Modify(d, m));
  }

  /** A cancellation is told to each running member, and to nobody else, once, pending or not; of the record
      only the queue and the completed list change. */
  lemma CancellationRequested(c: Chain, d: Key, h: Hash)
    ensures var t := Step(c, CancelEvent(d, h));
            var q, queue' := c.Drive(d).driveRequest, t.Drive(d).pendingModifications;
            && SameOtherDrives(c, t, d)
            && t.rootHashes == c.rootHashes && t.sizes == c.sizes && t.verified == c.verified
            && t.Drive(d) == c.Drive(d).(pendingModifications := queue', driveRequest := q.(completedModifications :=
                 q.completedModifications + [CompletedModification(h, CANCELLED)]))
            && (forall m :: m in queue' <==> m in c.Drive(d).pendingModifications && m.transactionHash != h)
            && Tells(c, t, AsSet(c.Members(d)), CancelModify(d, h))
  {
    ToldOnly(c, CancelEvent(d, h), AsSet(c.Members(d)), CancelModify(d, h));
  }

  /** A drive that no handler has mentioned is created empty. */
  lemma UnknownDriveIsEmpty(c: Chain, d: Key, m: ModificationRequest)
    requires d !in c.drives
    ensures var t := Step(c, ModifyEvent(d, m));
            d in t.drives
            && t.drives[d] == DriveInfo(AddDriveRequest(0, 0, [], [], 0, [], []), [m], None, None, map[])
  {
  }

  // ----- membership

  /** A replay of one drive, message by message: the request, the last approval if there is one, the pending
      verification if there is one and it is not left out, and the queue in order. */
  lemma ReplayMessages(d: Key, request: AddDriveRequest, di: DriveInfo, withVerification: bool)
    ensures var told := Replay(d, request, di, withVerification);
            var a := if di.lastApprovedModification.Some? then 1 else 0;
            var v := if withVerification && di.pendingVerification.Some? then 1 else 0;
            && |told| == 1 + a + v + |di.pendingModifications|
            && told[0] == AddDrive(d, request)
            && (a == 1 ==> PublishesReport(told[1], di.lastApprovedModification.value))
            && (v == 1 ==> told[1 + a] == StartDriveVerification(d, di.pendingVerification.value))
            && (forall i :: 0 <= i < |di.pendingModifications| ==>
                  told[1 + a + v + i] == Modify(d, di.pendingModifications[i]))
  {
  }

  /** What a running replicator is told of a new list and of its shards. */
  function ListsFor(d: Key, list: seq<Key>, shard: seq<Key>): seq<Message> {
    [SetReplicators(d, list), SetShardDonator(d, shard), SetShardRecipient(d, shard)]
  }

  /** When a replicator joins, it is told of the drive as it is, without a pending verification and with its own
      key left out of the shards; the other running members of the lists, likewise; and nobody else of anything. */
  lemma JoiningTold(c: Chain, d: Key, k: Key, r: Key)
    requires WellFormed(c) && k !in c.Members(d) && r in c.mail
    ensures var t, list := Step(c, AddReplicatorEvent(d, k)), c.Members(d) + [k];
            var request := c.Drive(d).driveRequest.(fullReplicatorList := list,
                             modifyDonatorShard := c.Members(d), modifyRecipientShard := c.Members(d));
            && r in t.mail && t.Members(d) == list
            && t.mail[r] == if r == k then c.mail[r] + Replay(d, request, c.Drive(d), false)
                            else if r in list then c.mail[r] + ListsFor(d, list, Without(list, r))
                            else c.mail[r]
  {
    assert WellFormedDrive(d, c.Drive(d));
    AppendThenWithout(c.Members(d), k);
    if r != k && r !in c.Members(d) {
      assert c.mail[r] + [] == c.mail[r];
    }
  }

  /** When one leaves, it is told so, member or not; the remaining members of the lists; and nobody else of
      anything. */
  lemma LeavingTold(c: Chain, d: Key, k: Key, r: Key)
    requires WellFormed(c) && r in c.mail
    ensures var t, list := Step(c, RemoveReplicatorEvent(d, k)), Without(c.Members(d), k);
            && r in t.mail && t.Members(d) == list
            && t.mail[r] == if r == k then c.mail[r] + [RemoveDrive(d)]
                            else if r in list then c.mail[r] + ListsFor(d, list, list)
                            else c.mail[r]
  {
    assert WellFormedDrive(d, c.Drive(d));
    if r != k && r !in c.Members(d) {
      assert c.mail[r] + [] == c.mail[r];
    }
  }

  /** Of a drive's record only the lists change when somebody joins or leaves. */
  lemma MembershipKeepsTheRest(c: Chain, e: Event)
    requires e.AddReplicatorEvent? || e.RemoveReplicatorEvent?
    ensures var t := Step(c, e);
            && SameOtherDrives(c, t, e.d) && t.rootHashes == c.rootHashes && t.sizes == c.sizes
            && t.verified == c.verified
            && var q, q' := c.Drive(e.d).driveRequest, t.Drive(e.d).driveRequest;
               && t.Drive(e.d) == c.Drive(e.d).(driveRequest := q')
               && q' == q.(fullReplicatorList := q'.fullReplicatorList, modifyDonatorShard := q'.modifyDonatorShard,
                           modifyRecipientShard := q'.modifyRecipientShard)
  {
  }

  // ----- starting and stopping

  /** Starting and stopping record nothing, and nobody else is told anything. A replicator that runs already is
      told nothing either; one that starts has the replay of its drives as its log, and one that stops none. */
  lemma StartedOrStopped(c: Chain, k: Key)
    requires k in c.addrList
    ensures var t, u := Step(c, StartEvent(k)), Step(c, StopEvent(k));
            && RecordsNothing(c, t) && RecordsNothing(c, u)
            && t.mail == (if k in c.mail then c.mail else c.mail[k := ReplayDrives(c.drives, c.drives.Keys, k)])
            && u.mail == c.mail - {k}
  {
  }

  // ----- verifications

  /** A cancellation of the pending verification empties the slot, and each running member is told once; any
      other changes nothing. */
  lemma VerificationCancelled(c: Chain, d: Key, tx: Hash)
    ensures var t, slot := Step(c, CancelVerificationEvent(d, tx)), c.Drive(d).pendingVerification;
            if slot.Some? && slot.value.tx == tx
            then SameOtherDrives(c, t, d) && t.Drive(d) == c.Drive(d).(pendingVerification := None)
                 && Tells(c, t, AsSet(c.Members(d)), CancelDriveVerification(d))
            else RecordsNothing(c, t) && TellsNobody(c, t)
  {
    var e, slot := CancelVerificationEvent(d, tx), c.Drive(d).pendingVerification;
    if slot.Some? && slot.value.tx == tx {
      ToldOnly(c, e, AsSet(c.Members(d)), CancelDriveVerification(d));
    } else {
      Delivered(c, e, c.mail);
    }
  }

  /** A request finds the slot empty, and every running member is told, or fails an assertion. */
  lemma VerificationRequested(c: Chain, d: Key, v: VerificationRequest)
    ensures var e := StartVerificationEvent(d, v);
            var t, empty := Step(c, e), c.Drive(d).pendingVerification.None?;
            && SameOtherDrives(c, t, d)
            && (if empty
                then t.Drive(d) == c.Drive(d).(pendingVerification := Some(v))
                     && Tells(c, t, AsSet(c.Members(d)), StartDriveVerification(d, v))
                else t.Drive(d) == c.Drive(d) && TellsNobody(c, t))
            && (Passes(c, e) <==> empty)
  {
    var e := StartVerificationEvent(d, v);
    if c.Drive(d).pendingVerification.None? {
      ToldOnly(c, e, AsSet(c.Members(d)), StartDriveVerification(d, v));
    } else {
      Delivered(c, e, c.mail);
    }
  }

  /** The pending verification of the result's drive is the one the result is of. */
  predicate Awaited(c: Chain, info: VerifyApprovalTxInfo) {
    var slot := c.Drive(info.driveKey).pendingVerification;
    slot.Some? && slot.value.tx == info.tx
  }

  /** An awaited result empties the slot. If it is the transaction's first, it is recorded as it is and all
      replicators that run are told, members or not; any other changes nothing more. */
  lemma ResultReported(c: Chain, info: VerifyApprovalTxInfo)
    ensures var t := Step(c, VerificationReadyEvent(info));
            && SameOtherDrives(c, t, info.driveKey) && t.rootHashes == c.rootHashes && t.sizes == c.sizes
            && t.Drive(info.driveKey) == (if Awaited(c, info) then c.Drive(info.driveKey).(pendingVerification := None)
                                          else c.Drive(info.driveKey))
            && (if Awaited(c, info) && info.tx !in c.verified
                then t.verified == c.verified[info.tx := info]
                     && Tells(c, t, c.mail.Keys, VerifyApprovalPublished(info))
                else t.verified == c.verified && TellsNobody(c, t))
  {
    var e := VerificationReadyEvent(info);
    if Awaited(c, info) && info.tx !in c.verified {
      ToldOnly(c, e, c.mail.Keys, VerifyApprovalPublished(info));
    } else {
      Delivered(c, e, c.mail);
    }
  }
}
