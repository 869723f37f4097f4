/** The ledger object itself. Every handler is proved to be one step of the state machine, and its
    result tells whether all the test assertions inside it held. */
module Environment {
  import opened Basics
  import opened Protocol
  import opened Chain

  class Ledger {
    const keys: seq<Key>
    var running: seq<bool>
    var drives: map<Key, DriveInfo>
    var rootHashes: map<Hash, Hash>
    var modificationSizes: map<Hash, set<nat>>
    var verifyApprovals: map<Hash, VerifyApprovalTxInfo>
    var mail: map<Key, seq<Message>>

    ghost function State(): Chain
      reads this
    {
      Chain(keys, drives, rootHashes, modificationSizes, verifyApprovals, mail)
    }

    ghost predicate SlotsMatch()
      reads this
    {
      && |running| == |keys|
      && (forall i :: 0 <= i < |keys| ==> (running[i] <==> keys[i] in mail))
      && (forall r :: r in mail ==> r in keys)
      && Distinct(keys)
    }

    ghost predicate Valid()
      reads this
    {
      SlotsMatch() && WellFormed(State())
    }

    /** What is left to show at the end of a handler. */
    lemma Concluded(c: Chain, e: Event)
      requires SlotsMatch() && WellFormed(c) && Defined(c, e) && e.Subject().Some?
      requires keys == c.addrList
      requires drives == NewDrives(c, e) && rootHashes == NewRootHashes(c, e)
      requires modificationSizes == NewSizes(c, e) && verifyApprovals == NewVerified(c, e)
      requires mail == Deliver(c, e)
      ensures Valid() && State() == Step(c, e)
    {
      StepWellFormed(c, e);
    }

    /** Likewise when nobody is told anything. */
    lemma ConcludedSilently(c: Chain, e: Event)
      requires SlotsMatch() && WellFormed(c) && Defined(c, e) && e.Subject().Some?
      requires keys == c.addrList
      requires drives == NewDrives(c, e) && rootHashes == NewRootHashes(c, e)
      requires modificationSizes == NewSizes(c, e) && verifyApprovals == NewVerified(c, e)
      requires mail == c.mail && forall r :: r in mail ==> Outgoing(c, e, r) == []
      ensures Valid() && State() == Step(c, e)
    {
      Delivered(c, e, mail);
      Concluded(c, e);
    }

    /** The first `started` of the given replicators run from the beginning. */
    constructor (keys: seq<Key>, started: nat)
      requires Distinct(keys) && started <= |keys|
      ensures Valid() && Initial(State()) && this.keys == keys
      ensures forall i :: 0 <= i < |keys| ==> (keys[i] in mail <==> i < started)
    {
      this.keys := keys;
      drives, rootHashes, modificationSizes, verifyApprovals := map[], map[], map[], map[];
      running := seq(|keys|, i => i < started);
      mail := map r | r in keys[..started] :: [];
      new;
      forall i | 0 <= i < |keys| ensures keys[i] in mail <==> i < started {
        if i < started {
          assert keys[..started][i] == keys[i];
        }
      }
      assert forall r :: r in keys[..started] ==> r in keys;
    }

    method GetReplicator(key: Key) returns (found: bool)
      requires SlotsMatch()
      ensures found <==> key in mail
    {
      for i := 0 to |keys|
        invariant forall j :: 0 <= j < i ==> !(running[j] && keys[j] == key)
      {
        if running[i] && keys[i] == key {
          return true;
        }
      }
      return false;
    }

    method Send(key: Key, m: Message)
      requires SlotsMatch() && key in mail
      modifies `mail
      ensures SlotsMatch() && mail == old(mail)[key := old(mail)[key] + [m]]
    {
      mail := mail[key := mail[key] + [m]];
    }

    /** The loop `for key in list: if it runs, call it`. */
    method Broadcast(list: seq<Key>, m: Message)
      requires SlotsMatch() && Distinct(list)
      modifies `mail
      ensures SlotsMatch()
      ensures mail == map r | r in old(mail) :: old(mail)[r] + (if r in list then [m] else [])
    {
      for i := 0 to |list|
        modifies `mail
        invariant SlotsMatch() && mail.Keys == old(mail).Keys
        invariant forall r :: r in mail ==> mail[r] == old(mail)[r] + (if r in list[..i] then [m] else [])
      {
        assert list[..i + 1] == list[..i] + [list[i]];
        assert list[i] !in list[..i];
        var found := GetReplicator(list[i]);
        if found {
          Send(list[i], m);
        }
      }
      assert list[..|list|] == list;
    }

    method AddDrive(driveKey: Key, client: Key, driveSize: nat, replicators: seq<Key>)
      requires Valid() && Distinct(replicators)
      modifies this
      ensures Valid() && running == old(running)
      ensures State() == Step(old(State()), AddDriveEvent(driveKey, client, driveSize, replicators))
      ensures State().Members(driveKey) == if replicators == [] then keys else replicators
    {
      ghost var e := AddDriveEvent(driveKey, client, driveSize, replicators);
      ghost var c := State();
      var list := replicators;
      if list == [] {
        list := keys;
      }
      drives := drives[driveKey := DriveInfo(AddDriveRequest(driveSize, 0, [], list, client, list, list), [], None,
                                             None, map[])];
      Broadcast(list, Message.AddDrive(driveKey, drives[driveKey].driveRequest));
      Delivered(c, e, mail);
      Concluded(c, e);
    }

    /** `operator[]`: a drive that is not there yet is created empty. */
    method Touch(driveKey: Key)
      requires SlotsMatch()
      modifies `drives
      ensures SlotsMatch() && driveKey in drives
      ensures drives == old(drives)[driveKey := old(State()).Drive(driveKey)]
    {
      if driveKey !in drives {
        drives := drives[driveKey := EMPTY_DRIVE];
      }
    }

    /** Sends a list of messages to one replicator. */
    method SendAll(r: Key, messages: seq<Message>)
      requires SlotsMatch() && r in mail
      modifies `mail
      ensures SlotsMatch()
      ensures mail == old(mail)[r := old(mail)[r] + messages]
    {
      ghost var before := mail[r];
      assert before + messages[..0] == before;
      for i := 0 to |messages|
        invariant SlotsMatch() && r in mail
        invariant mail == old(mail)[r := before + messages[..i]]
      {
        assert before + messages[..i + 1] == (before + messages[..i]) + [messages[i]];
        Send(r, messages[i]);
      }
      assert messages[..|messages|] == messages;
    }

    method SendReplay(r: Key, driveKey: Key, request: AddDriveRequest, withVerification: bool)
      requires SlotsMatch() && r in mail && driveKey in drives
      modifies `mail
      ensures SlotsMatch()
      ensures mail == old(mail)[r := old(mail)[r] + Replay(driveKey, request, drives[driveKey], withVerification)]
    {
      var drive := drives[driveKey];
      ghost var before := mail[r];
      SendAll(r, [Message.AddDrive(driveKey, request)]);
      SendAll(r, ReplayApproval(drive));
      SendAll(r, ReplayVerification(driveKey, drive, withVerification));
      SendAll(r, Modifies(driveKey, drive.pendingModifications));
      Regroup(before, [Message.AddDrive(driveKey, request)], ReplayApproval(drive),
              ReplayVerification(driveKey, drive, withVerification), Modifies(driveKey, drive.pendingModifications));
    }

    static lemma Regroup(a: seq<Message>, b: seq<Message>, c: seq<Message>, d: seq<Message>, e: seq<Message>)
      ensures a + b + c + d + e == a + (b + c + d + e)
    {
    }

    /** The loop over all drives, in ascending key order. */
    method ReplayTo(r: Key)
      requires SlotsMatch() && r in mail && mail[r] == []
      modifies `mail
      ensures SlotsMatch() && mail == old(mail)[r := ReplayDrives(drives, drives.Keys, r)]
    {
      var rest := drives.Keys;
      while rest != {}
        invariant SlotsMatch() && r in mail && rest <= drives.Keys
        invariant mail == old(mail)[r := mail[r]]
        invariant mail[r] + ReplayDrives(drives, rest, r) == ReplayDrives(drives, drives.Keys, r)
      {
        LeastExists(rest);
        var d :| d in rest && forall k :: k in rest ==> d <= k;
        assert d == Least(rest);
        ReplayFirst(drives, rest, r, mail[r]);
        if r in drives[d].driveRequest.fullReplicatorList {
          SendReplay(r, d, drives[d].driveRequest, true);
        }
        rest := rest - {d};
      }
      assert mail[r] + [] == mail[r];
    }

    method StartReplicator(i: nat)
      requires Valid() && 1 <= i <= |keys|
      modifies `running, `mail
      ensures Valid() && running == old(running)[i - 1 := true]
      ensures State() == Step(old(State()), StartEvent(keys[i - 1]))
    {
      if running[i - 1] {
        return;
      }
      var r := keys[i - 1];
      running := running[i - 1 := true];
      mail := mail[r := []];
      ReplayTo(r);
    }

    method StopReplicator(i: nat)
      requires Valid() && 1 <= i <= |keys|
      modifies `running, `mail
      ensures Valid() && running == old(running)[i - 1 := false]
      ensures State() == Step(old(State()), StopEvent(keys[i - 1]))
    {
      if running[i - 1] {
        running := running[i - 1 := false];
        mail := mail - {keys[i - 1]};
      } else {
        assert mail - {keys[i - 1]} == mail;
      }
    }

    method Reconfigure(r: Key, driveKey: Key, full: seq<Key>, donator: seq<Key>, recipient: seq<Key>)
      requires SlotsMatch() && r in mail
      modifies `mail
      ensures SlotsMatch()
      ensures mail == old(mail)[r := old(mail)[r] + Reconfigured(driveKey, full, donator, recipient)]
    {
      SendAll(r, Reconfigured(driveKey, full, donator, recipient));
    }

    /** The other members are told the new list; their own keys are taken out of the shards. */
    method AnnounceJoined(driveKey: Key, request: AddDriveRequest, replicatorKey: Key)
      requires SlotsMatch() && Distinct(request.fullReplicatorList)
      modifies `mail
      ensures SlotsMatch()
      ensures mail == map r | r in old(mail) :: old(mail)[r] +
        (if r in request.fullReplicatorList && r != replicatorKey
         then Reconfigured(driveKey, request.fullReplicatorList, Without(request.modifyDonatorShard, r),
                           Without(request.modifyRecipientShard, r))
         else [])
    {
      var list := request.fullReplicatorList;
      for i := 0 to |list|
        invariant SlotsMatch() && mail.Keys == old(mail).Keys
        invariant forall r :: r in mail ==> (mail[r] == old(mail)[r] +
          (if r in list[..i] && r != replicatorKey
           then Reconfigured(driveKey, list, Without(request.modifyDonatorShard, r),
                             Without(request.modifyRecipientShard, r))
           else []))
      {
        assert list[..i + 1] == list[..i] + [list[i]];
        assert list[i] !in list[..i];
        var found := GetReplicator(list[i]);
        if found && list[i] != replicatorKey {
          Reconfigure(list[i], driveKey, list, Without(request.modifyDonatorShard, list[i]),
                      Without(request.modifyRecipientShard, list[i]));
        }
      }
      assert list[..|list|] == list;
    }

    /** The remaining members are told the new lists as they are. */
    method AnnounceLeft(driveKey: Key, request: AddDriveRequest)
      requires SlotsMatch() && Distinct(request.fullReplicatorList)
      modifies `mail
      ensures SlotsMatch()
      ensures mail == map r | r in old(mail) :: old(mail)[r] +
        (if r in request.fullReplicatorList
         then Reconfigured(driveKey, request.fullReplicatorList, request.modifyDonatorShard,
                           request.modifyRecipientShard)
         else [])
    {
      var list := request.fullReplicatorList;
      for i := 0 to |list|
        invariant SlotsMatch() && mail.Keys == old(mail).Keys
        invariant forall r :: r in mail ==> (mail[r] == old(mail)[r] +
          (if r in list[..i]
           then Reconfigured(driveKey, list, request.modifyDonatorShard, request.modifyRecipientShard) else []))
      {
        assert list[..i + 1] == list[..i] + [list[i]];
        assert list[i] !in list[..i];
        var found := GetReplicator(list[i]);
        if found {
          Reconfigure(list[i], driveKey, list, request.modifyDonatorShard, request.modifyRecipientShard);
        }
      }
      assert list[..|list|] == list;
    }

    method NotifyJoined(ghost c: Chain, driveKey: Key, replicatorKey: Key)
      requires SlotsMatch() && mail == c.mail && driveKey in drives
      requires drives[driveKey] == Joined(c.Drive(driveKey), replicatorKey)
      requires Distinct(drives[driveKey].driveRequest.fullReplicatorList)
      modifies `mail
      ensures SlotsMatch() && mail == Deliver(c, AddReplicatorEvent(driveKey, replicatorKey))
    {
      var request := drives[driveKey].driveRequest;
      AnnounceJoined(driveKey, request, replicatorKey);
      var found := GetReplicator(replicatorKey);
      if found {
        // the source also tests that the key is in the list it has just been appended to
        assert mail[replicatorKey] == c.mail[replicatorKey];
        SendReplay(replicatorKey, driveKey,
                   request.(modifyDonatorShard := Without(request.modifyDonatorShard, replicatorKey),
                            modifyRecipientShard := Without(request.modifyRecipientShard, replicatorKey)), false);
      }
      Delivered(c, AddReplicatorEvent(driveKey, replicatorKey), mail);
    }

    method AddReplicatorToDrive(driveKey: Key, replicatorKey: Key)
      requires Valid() && replicatorKey !in State().Members(driveKey)
      modifies this
      ensures Valid() && running == old(running)
      ensures State() == Step(old(State()), AddReplicatorEvent(driveKey, replicatorKey))
    {
      ghost var e := AddReplicatorEvent(driveKey, replicatorKey);
      ghost var c := State();
      assert WellFormedDrive(driveKey, c.Drive(driveKey));
      Touch(driveKey);
      drives := drives[driveKey := Joined(drives[driveKey], replicatorKey)];
      NotifyJoined(c, driveKey, replicatorKey);
      Concluded(c, e);
    }

    method NotifyLeft(ghost c: Chain, driveKey: Key, replicatorKey: Key)
      requires SlotsMatch() && mail == c.mail && driveKey in drives
      requires drives[driveKey] == Left(c.Drive(driveKey), replicatorKey)
      requires Distinct(drives[driveKey].driveRequest.fullReplicatorList)
      modifies `mail
      ensures SlotsMatch() && mail == Deliver(c, RemoveReplicatorEvent(driveKey, replicatorKey))
    {
      AnnounceLeft(driveKey, drives[driveKey].driveRequest);
      var found := GetReplicator(replicatorKey);
      if found {
        assert mail[replicatorKey] == c.mail[replicatorKey];
        Send(replicatorKey, RemoveDrive(driveKey));
      }
      Delivered(c, RemoveReplicatorEvent(driveKey, replicatorKey), mail);
    }

    method RemoveReplicatorFromDrive(driveKey: Key, replicatorKey: Key)
      requires Valid()
      modifies this
      ensures Valid() && running == old(running)
      ensures State() == Step(old(State()), RemoveReplicatorEvent(driveKey, replicatorKey))
    {
      ghost var e := RemoveReplicatorEvent(driveKey, replicatorKey);
      ghost var c := State();
      assert WellFormedDrive(driveKey, c.Drive(driveKey));
      WithoutDistinct(c.Members(driveKey), replicatorKey);
      Touch(driveKey);
      drives := drives[driveKey := Left(drives[driveKey], replicatorKey)];
      NotifyLeft(c, driveKey, replicatorKey);
      Concluded(c, e);
    }

    method ModifyDrive(driveKey: Key, request: ModificationRequest)
      requires Valid()
      modifies this
      ensures Valid() && running == old(running)
      ensures State() == Step(old(State()), ModifyEvent(driveKey, request))
    {
      ghost var e := ModifyEvent(driveKey, request);
      ghost var c := State();
      Touch(driveKey);
      var drive := drives[driveKey];
      drives := drives[driveKey := drive.(pendingModifications := drive.pendingModifications + [request])];
      Broadcast(drives[driveKey].driveRequest.fullReplicatorList, Modify(driveKey, request));
      Delivered(c, e, mail);
      Concluded(c, e);
    }

    method CancelModification(driveKey: Key, transactionHash: Hash)
      requires Valid()
      modifies this
      ensures Valid() && running == old(running)
      ensures State() == Step(old(State()), CancelEvent(driveKey, transactionHash))
    {
      ghost var e := CancelEvent(driveKey, transactionHash);
      ghost var c := State();
      Touch(driveKey);
      var drive := drives[driveKey];
      var request := drive.driveRequest;
      drives := drives[driveKey := drive.(
        driveRequest := request.(completedModifications :=
          request.completedModifications + [CompletedModification(transactionHash, CANCELLED)]),
        pendingModifications := EraseHash(drive.pendingModifications, transactionHash))];
      Broadcast(request.fullReplicatorList, CancelModify(driveKey, transactionHash));
      Delivered(c, e, mail);
      Concluded(c, e);
    }

    method StartVerification(driveKey: Key, request: VerificationRequest) returns (passed: bool)
      requires Valid()
      modifies this
      ensures Valid() && running == old(running)
      ensures State() == Step(old(State()), StartVerificationEvent(driveKey, request))
      ensures passed == Passes(old(State()), StartVerificationEvent(driveKey, request))
    {
      ghost var e := StartVerificationEvent(driveKey, request);
      ghost var c := State();
      Touch(driveKey);
      var drive := drives[driveKey];
      if drive.pendingVerification.Some? {
        ConcludedSilently(c, e);
        return false;
      }
      drives := drives[driveKey := drive.(pendingVerification := Some(request))];
      Broadcast(drive.driveRequest.fullReplicatorList, StartDriveVerification(driveKey, request));
      Delivered(c, e, mail);
      Concluded(c, e);
      return true;
    }

    /** The loop dereferences every member's replicator, so all of them must run. */
    method CancelVerification(driveKey: Key, tx: Hash)
      requires Valid() && Defined(State(), CancelVerificationEvent(driveKey, tx))
      modifies this
      ensures Valid() && running == old(running)
      ensures State() == Step(old(State()), CancelVerificationEvent(driveKey, tx))
    {
      ghost var e := CancelVerificationEvent(driveKey, tx);
      ghost var c := State();
      Touch(driveKey);
      var drive := drives[driveKey];
      if drive.pendingVerification.None? || drive.pendingVerification.value.tx != tx {
        ConcludedSilently(c, e);
        return;
      }
      drives := drives[driveKey := drive.(pendingVerification := None)];
      Broadcast(drive.driveRequest.fullReplicatorList, CancelDriveVerification(driveKey));
      Delivered(c, e, mail);
      Concluded(c, e);
    }

    /** The loop over all replicator slots. */
    method BroadcastToAll(m: Message)
      requires SlotsMatch()
      modifies `mail
      ensures SlotsMatch()
      ensures mail == map r | r in old(mail) :: old(mail)[r] + [m]
    {
      for i := 0 to |keys|
        invariant SlotsMatch() && mail.Keys == old(mail).Keys
        invariant forall r :: r in mail ==> mail[r] == old(mail)[r] + (if r in keys[..i] then [m] else [])
      {
        assert keys[..i + 1] == keys[..i] + [keys[i]];
        assert keys[i] !in keys[..i];
        if running[i] {
          Send(keys[i], m);
        }
      }
      assert keys[..|keys|] == keys;
    }

    /** A result goes to every running replicator, member or not, and only the first time. */
    method VerificationTransactionIsReady(info: VerifyApprovalTxInfo)
      requires Valid()
      modifies this
      ensures Valid() && running == old(running)
      ensures State() == Step(old(State()), VerificationReadyEvent(info))
    {
      ghost var e := VerificationReadyEvent(info);
      ghost var c := State();
      Touch(info.driveKey);
      var drive := drives[info.driveKey];
      if drive.pendingVerification.None? || drive.pendingVerification.value.tx != info.tx {
        ConcludedSilently(c, e);
        return;
      }
      drives := drives[info.driveKey := drive.(pendingVerification := None)];
      AnnounceResult(c, info);
      Concluded(c, e);
    }

    /** The part of the verification handler after the slot was cleared. */
    method AnnounceResult(ghost c: Chain, info: VerifyApprovalTxInfo)
      requires SlotsMatch() && State() == c.(drives := drives) && VerifiesNow(c.Drive(info.driveKey), info.tx)
      modifies `verifyApprovals, `mail
      ensures SlotsMatch()
      ensures verifyApprovals == NewVerified(c, VerificationReadyEvent(info))
      ensures mail == Deliver(c, VerificationReadyEvent(info))
    {
      if info.tx !in verifyApprovals {
        verifyApprovals := verifyApprovals[info.tx := info];
        BroadcastToAll(VerifyApprovalPublished(info));
      }
      Delivered(c, VerificationReadyEvent(info), mail);
    }

    /** The upload check over one layout: whether no counter it mentions falls. */
    method CheckLayout(known: seq<KeyAndBytes>, layout: seq<KeyAndBytes>) returns (passed: bool)
      ensures passed <==> forall e :: e in layout ==>
        (BytesOf(known, e.key).Some? ==> BytesOf(known, e.key).value <= e.uploadedBytes)
    {
      for j := 0 to |layout|
        invariant forall k :: 0 <= k < j ==>
          (BytesOf(known, layout[k].key).Some? ==> BytesOf(known, layout[k].key).value <= layout[k].uploadedBytes)
      {
        var before := BytesOf(known, layout[j].key);
        if before.Some? && before.value > layout[j].uploadedBytes {
          assert layout[j] in layout;
          return false;
        }
      }
      return true;
    }

    /** The loop that checks and records each opinion, up to the first failed check. */
    method RecordOpinions(known: map<Key, seq<KeyAndBytes>>, opinions: seq<SingleOpinion>)
      returns (uploads: map<Key, seq<KeyAndBytes>>, passed: bool)
      ensures Recorded(uploads, passed) == Record(known, opinions)
    {
      uploads := known;
      for i := 0 to |opinions|
        invariant Record(uploads, opinions[i..]) == Record(known, opinions)
      {
        var opinion := opinions[i];
        assert opinions[i..][1..] == opinions[i + 1..];
        if opinion.replicatorKey in uploads {
          var ok := CheckLayout(uploads[opinion.replicatorKey], opinion.uploadLayout);
          if !ok {
            return uploads, false;
          }
        }
        uploads := uploads[opinion.replicatorKey := opinion.uploadLayout];
      }
      passed := true;
    }

    /** The loop that inserts every opinion's total, and the assertion that there is one total. */
    method RecordSizes(known: set<nat>, opinions: seq<SingleOpinion>) returns (totals: set<nat>, passed: bool)
      ensures totals == known + Totals(opinions)
      ensures passed <==> exists t :: totals == {t}
    {
      totals := known;
      for i := 0 to |opinions|
        invariant totals == known + Totals(opinions[..i])
      {
        assert opinions[..i + 1] == opinions[..i] + [opinions[i]];
        assert Totals(opinions[..i + 1]) == Totals(opinions[..i]) + {Total(opinions[i].uploadLayout)};
        totals := totals + {Total(opinions[i].uploadLayout)};
      }
      assert opinions[..|opinions|] == opinions;
      passed := |totals| == 1;
      SingletonSet(totals);
    }

    method RecordSizesOf(h: Hash, opinions: seq<SingleOpinion>) returns (passed: bool)
      modifies `modificationSizes
      ensures modificationSizes == old(modificationSizes)[h := old(State()).Sizes(h) + Totals(opinions)]
      ensures passed <==> exists t :: old(State()).Sizes(h) + Totals(opinions) == {t}
    {
      var totals;
      totals, passed := RecordSizes(if h in modificationSizes then modificationSizes[h] else {}, opinions);
      modificationSizes := modificationSizes[h := totals];
    }

    method NotifyRejected(ghost c: Chain, reporter: Key, info: ApprovalTransactionInfo)
      requires SlotsMatch() && mail == c.mail && reporter in mail
      requires ApprovalVerdict(c.Drive(info.driveKey), info).InvalidOpinions?
      modifies `mail
      ensures SlotsMatch() && mail == Deliver(c, ApprovalReadyEvent(reporter, info))
    {
      Send(reporter, ApprovalFailed(info.driveKey, info.modifyTransactionHash));
      Delivered(c, ApprovalReadyEvent(reporter, info), mail);
    }

    method NotifyApproved(ghost c: Chain, reporter: Key, info: ApprovalTransactionInfo, members: seq<Key>)
      requires SlotsMatch() && mail == c.mail && members == c.Members(info.driveKey) && Distinct(members)
      requires ApprovalVerdict(c.Drive(info.driveKey), info).Accepted?
      modifies `mail
      ensures SlotsMatch() && mail == Deliver(c, ApprovalReadyEvent(reporter, info))
    {
      Broadcast(members, ApprovalPublished(Publish(info)));
      Delivered(c, ApprovalReadyEvent(reporter, info), mail);
    }

    method NotifyCounted(ghost c: Chain, reporter: Key, info: ApprovalTransactionInfo)
      requires SlotsMatch() && mail == c.mail && reporter in mail
      requires SingleApprovalVerdict(c.Drive(info.driveKey), info).Counted? && SizesAgree(c, info)
      modifies `mail
      ensures SlotsMatch() && mail == Deliver(c, SingleApprovalReadyEvent(reporter, info))
    {
      Send(reporter, SingleApprovalPublished(info.driveKey, info.modifyTransactionHash));
      Delivered(c, SingleApprovalReadyEvent(reporter, info), mail);
    }

    /** Pops the front, adds its size, records the opinions and, if all pass, the approval. */
    method PopAndRecord(info: ApprovalTransactionInfo) returns (passed: bool)
      requires info.driveKey in drives
      requires var v := ApprovalVerdict(drives[info.driveKey], info); v.UploadFault? || v.Accepted?
      modifies `drives
      ensures drives == old(drives)[info.driveKey := Approve(old(drives)[info.driveKey], info)]
      ensures passed == ApprovalVerdict(old(drives)[info.driveKey], info).Accepted?
    {
      var drive := drives[info.driveKey];
      var queue := drive.pendingModifications;
      var uploads;
      uploads, passed := RecordOpinions(drive.uploads, info.opinions);
      drives := drives[info.driveKey := drive.(
        driveRequest := drive.driveRequest.(expectedCumulativeDownloadSize :=
          drive.driveRequest.expectedCumulativeDownloadSize + queue[0].maxDataSize),
        pendingModifications := queue[1..],
        uploads := uploads,
        lastApprovedModification := if passed then Some(info) else drive.lastApprovedModification)];
    }

    /** The part of the approval handler from the pop on. */
    method Accept(reporter: Key, info: ApprovalTransactionInfo) returns (passed: bool)
      requires Valid() && reporter in mail && info.driveKey in drives
      requires var v := ApprovalVerdict(drives[info.driveKey], info); v.UploadFault? || v.Accepted?
      modifies this
      ensures Valid() && running == old(running)
      ensures State() == Step(old(State()), ApprovalReadyEvent(reporter, info))
      ensures passed == Passes(old(State()), ApprovalReadyEvent(reporter, info))
    {
      ghost var e := ApprovalReadyEvent(reporter, info);
      ghost var c := State();
      assert WellFormedDrive(info.driveKey, c.Drive(info.driveKey));
      passed := PopAndRecord(info);
      if passed {
        passed := AnnounceApproval(c, reporter, info);
      } else {
        ApprovalUnanswered(c, reporter, info);
      }
      Concluded(c, e);
    }

    /** The part of the approval handler after the upload check. */
    method AnnounceApproval(ghost c: Chain, reporter: Key, info: ApprovalTransactionInfo) returns (passed: bool)
      requires SlotsMatch() && State() == c.(drives := drives) && info.driveKey in drives
      requires drives[info.driveKey].driveRequest.fullReplicatorList == c.Members(info.driveKey)
      requires Distinct(c.Members(info.driveKey)) && Approves(c, ApprovalReadyEvent(reporter, info))
      modifies `rootHashes, `mail, `modificationSizes
      ensures SlotsMatch()
      ensures rootHashes == NewRootHashes(c, ApprovalReadyEvent(reporter, info))
      ensures rootHashes == old(rootHashes)[info.modifyTransactionHash := info.rootHash]
      ensures modificationSizes == NewSizes(c, ApprovalReadyEvent(reporter, info))
      ensures mail == Deliver(c, ApprovalReadyEvent(reporter, info))
      ensures passed == SizesAgree(c, info)
    {
      rootHashes := rootHashes[info.modifyTransactionHash := info.rootHash];
      NotifyApproved(c, reporter, info, drives[info.driveKey].driveRequest.fullReplicatorList);
      passed := RecordSizesOf(info.modifyTransactionHash, info.opinions);
    }

    method ModifyApprovalTransactionIsReady(reporter: Key, info: ApprovalTransactionInfo) returns (passed: bool)
      requires Valid() && reporter in mail
      modifies this
      ensures Valid() && running == old(running)
      ensures State() == Step(old(State()), ApprovalReadyEvent(reporter, info))
      ensures passed == Passes(old(State()), ApprovalReadyEvent(reporter, info))
    {
      ghost var e := ApprovalReadyEvent(reporter, info);
      ghost var c := State();
      var d := info.driveKey;
      Touch(d);
      var drive := drives[d];
      var queue := drive.pendingModifications;
      if queue == [] || queue[0].transactionHash != info.modifyTransactionHash {
        ApprovalUnanswered(c, reporter, info);
        Concluded(c, e);
        return true;
      }
      Touched(c, e);
      passed := Judge(reporter, info);
    }

    /** The part of the approval handler about the queue's front. */
    method Judge(reporter: Key, info: ApprovalTransactionInfo) returns (passed: bool)
      requires Valid() && reporter in mail && info.driveKey in drives
      requires !ApprovalVerdict(drives[info.driveKey], info).NotFront?
      modifies this
      ensures Valid() && running == old(running)
      ensures State() == Step(old(State()), ApprovalReadyEvent(reporter, info))
      ensures passed == Passes(old(State()), ApprovalReadyEvent(reporter, info))
    {
      ghost var e := ApprovalReadyEvent(reporter, info);
      ghost var c := State();
      var valid := OpinionsAreValid(info.opinions, drives[info.driveKey].driveRequest.fullReplicatorList);
      if valid {
        passed := Accept(reporter, info);
      } else {
        NotifyRejected(c, reporter, info);
        assert drives == NewDrives(c, e);
        Concluded(c, e);
        passed := true;
      }
    }

    /** Every opinion is a member's, and there are more than two thirds as many as members. */
    method OpinionsAreValid(opinions: seq<SingleOpinion>, members: seq<Key>) returns (valid: bool)
      ensures valid <==> OpinionsFromMembers(opinions, members) && !TooFew(|opinions|, |members|)
    {
      for i := 0 to |opinions|
        invariant forall j :: 0 <= j < i ==> opinions[j].replicatorKey in members
      {
        if opinions[i].replicatorKey !in members {
          assert opinions[i] in opinions;
          return false;
        }
      }
      return |opinions| > (2 * |members|) / 3;
    }

    /** The part of the single-approval handler that records the opinion. */
    method CountSingle(reporter: Key, info: ApprovalTransactionInfo) returns (passed: bool)
      requires Valid() && reporter in mail && info.driveKey in drives
      requires var v := SingleApprovalVerdict(drives[info.driveKey], info); !v.NotMember? && !v.Stale?
      modifies this
      ensures Valid() && running == old(running)
      ensures State() == Step(old(State()), SingleApprovalReadyEvent(reporter, info))
      ensures passed == Passes(old(State()), SingleApprovalReadyEvent(reporter, info))
    {
      ghost var e := SingleApprovalReadyEvent(reporter, info);
      ghost var c := State();
      var d := info.driveKey;
      var uploads;
      uploads, passed := RecordOpinions(drives[d].uploads, info.opinions);
      drives := drives[d := drives[d].(uploads := uploads)];
      assert drives == NewDrives(c, e);
      passed := passed && |info.opinions| == 1;
      assert passed == Counts(c, e);
      if passed {
        passed := CountTotal(c, reporter, info);
      } else {
        SingleApprovalUnanswered(c, reporter, info);
      }
      Concluded(c, e);
    }

    /** The part after the upload check: the total is recorded and, if it agrees, the reporter is told. */
    method CountTotal(ghost c: Chain, reporter: Key, info: ApprovalTransactionInfo) returns (passed: bool)
      requires SlotsMatch() && State() == c.(drives := drives) && reporter in mail
      requires Counts(c, SingleApprovalReadyEvent(reporter, info))
      modifies `mail, `modificationSizes
      ensures SlotsMatch()
      ensures modificationSizes == NewSizes(c, SingleApprovalReadyEvent(reporter, info))
      ensures mail == Deliver(c, SingleApprovalReadyEvent(reporter, info))
      ensures passed == SizesAgree(c, info)
    {
      passed := RecordSizesOf(info.modifyTransactionHash, info.opinions);
      if passed {
        NotifyCounted(c, reporter, info);
      } else {
        SingleApprovalUnanswered(c, reporter, info);
      }
    }

    /** The code reads the first opinion, and the last approval when that opinion is a member's,
        without testing that they are there. */
    method SingleModifyApprovalTransactionIsReady(reporter: Key, info: ApprovalTransactionInfo) returns (passed: bool)
      requires Valid() && Defined(State(), SingleApprovalReadyEvent(reporter, info))
      modifies this
      ensures Valid() && running == old(running)
      ensures State() == Step(old(State()), SingleApprovalReadyEvent(reporter, info))
      ensures passed == Passes(old(State()), SingleApprovalReadyEvent(reporter, info))
      ensures info.opinions[0].replicatorKey !in old(State()).Members(info.driveKey) ==>
                passed && mail == old(mail) && modificationSizes == old(modificationSizes)
                && State().Drive(info.driveKey) == old(State()).Drive(info.driveKey)
    {
      ghost var e := SingleApprovalReadyEvent(reporter, info);
      ghost var c := State();
      var d := info.driveKey;
      Touch(d);
      var drive := drives[d];
      if info.opinions[0].replicatorKey !in drive.driveRequest.fullReplicatorList
         || info.modifyTransactionHash != drive.lastApprovedModification.value.modifyTransactionHash {
        SingleApprovalUnanswered(c, reporter, info);
        Concluded(c, e);
        return true;
      }
      Touched(c, e);
      passed := CountSingle(reporter, info);
    }
  }
}
