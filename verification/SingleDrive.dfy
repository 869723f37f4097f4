/** The older ledger, which keeps one drive and knows neither membership nor quorums: every running
    replicator is told everything. */
module SingleDrive {
  import opened Basics
  import opened Protocol
  import opened Chain

  datatype SingleEvent =
    | AddOnly(driveKey: Key, client: Key, driveSize: nat)
    | ModifyOnly(driveKey: Key, modification: ModificationRequest)
    | CancelOnly(driveKey: Key, hash: Hash)
    | ApproveOnly(reporter: Key, info: ApprovalTransactionInfo)
    | ApproveSingleOnly(reporter: Key, info: ApprovalTransactionInfo)

  datatype Single = Single(
    addrList: seq<Key>,
    drive: Option<(Key, AddDriveRequest)>,
    pending: seq<ModificationRequest>,
    lastApproved: Option<ApprovalTransactionInfo>,
    rootHashes: map<Hash, Hash>,
    sizes: map<Hash, set<nat>>,
    mail: map<Key, seq<Message>>)
  {
    function Cumulative(): nat {
      if drive.Some? then drive.value.1.expectedCumulativeDownloadSize else 0
    }

    function Sizes(h: Hash): set<nat> {
      if h in sizes then sizes[h] else {}
    }
  }

  /** What the code takes for granted: a queue front, a drive and a last approval behind each access. */
  predicate SingleDefined(t: Single, e: SingleEvent) {
    match e
    case ApproveOnly(_, info) =>
      t.pending != [] && (t.pending[0].transactionHash == info.modifyTransactionHash ==> t.drive.Some?)
    case ApproveSingleOnly(_, _) => t.lastApproved.Some?
    case _ => true
  }

  function TellAll(mail: map<Key, seq<Message>>, m: Message): map<Key, seq<Message>> {
    map r | r in mail :: mail[r] + [m]
  }

  function Tell(mail: map<Key, seq<Message>>, r: Key, m: Message): map<Key, seq<Message>> {
    if r in mail then mail[r := mail[r] + [m]] else mail
  }

  function AddSizes(t: Single, info: ApprovalTransactionInfo): map<Hash, set<nat>> {
    t.sizes[info.modifyTransactionHash := t.Sizes(info.modifyTransactionHash) + Totals(info.opinions)]
  }

  function SingleStep(t: Single, e: SingleEvent): Single
    requires SingleDefined(t, e)
  {
    match e
    case AddOnly(k, client, size) =>
      var request := AddDriveRequest(size, 0, [], t.addrList, client, t.addrList, t.addrList);
      t.(drive := Some((k, request)), mail := TellAll(t.mail, AddDrive(k, request)))
    case ModifyOnly(k, m) => t.(pending := t.pending + [m], mail := TellAll(t.mail, Modify(k, m)))
    case CancelOnly(k, h) => t.(pending := EraseHash(t.pending, h), mail := TellAll(t.mail, CancelModify(k, h)))
    case ApproveOnly(_, info) =>
      if t.pending[0].transactionHash != info.modifyTransactionHash then t
      else
        var request := t.drive.value.1;
        t.(drive := Some((t.drive.value.0, request.(expectedCumulativeDownloadSize :=
             request.expectedCumulativeDownloadSize + t.pending[0].maxDataSize))),
           pending := t.pending[1..],
           lastApproved := Some(info),
           rootHashes := t.rootHashes[info.modifyTransactionHash := info.rootHash],
           sizes := AddSizes(t, info),
           mail := TellAll(t.mail, ApprovalPublished(Publish(info))))
    case ApproveSingleOnly(r, info) =>
      if t.lastApproved.value.modifyTransactionHash != info.modifyTransactionHash then t
      else t.(mail := Tell(t.mail, r, SingleApprovalPublished(info.driveKey, info.modifyTransactionHash)),
              sizes := if |info.opinions| != 1 then t.sizes else AddSizes(t, info))
  }

  /** The only drive as a record of the multi-drive ledger. */
  function OnlyDrive(t: Single): DriveInfo
    requires t.drive.Some?
  {
    DriveInfo(t.drive.value.1, t.pending, None, t.lastApproved, map[])
  }

  function SingleReplay(t: Single): seq<Message>
    requires t.drive.Some?
  {
    Replay(t.drive.value.0, t.drive.value.1, OnlyDrive(t), false)
  }

  class SingleDriveLedger {
    const keys: seq<Key>
    var running: seq<bool>
    var drive: Option<(Key, AddDriveRequest)>
    var pendingModifications: seq<ModificationRequest>
    var lastApprovedModification: Option<ApprovalTransactionInfo>
    var rootHashes: map<Hash, Hash>
    var modificationSizes: map<Hash, set<nat>>
    var mail: map<Key, seq<Message>>

    ghost function State(): Single
      reads this
    {
      Single(keys, drive, pendingModifications, lastApprovedModification, rootHashes, modificationSizes, mail)
    }

    ghost predicate Valid()
      reads this
    {
      && |running| == |keys|
      && (forall i :: 0 <= i < |keys| ==> (running[i] <==> keys[i] in mail))
      && (forall r :: r in mail ==> r in keys)
      && Distinct(keys)
    }

    constructor (keys: seq<Key>, started: nat)
      requires Distinct(keys) && started <= |keys|
      ensures Valid() && State() == Single(keys, None, [], None, map[], map[], map r | r in keys[..started] :: [])
    {
      this.keys := keys;
      running := seq(|keys|, i => i < started);
      drive, pendingModifications, lastApprovedModification := None, [], None;
      rootHashes, modificationSizes := map[], map[];
      mail := map r | r in keys[..started] :: [];
      new;
      forall i | 0 <= i < |keys| ensures keys[i] in mail <==> i < started {
        if i < started {
          assert keys[..started][i] == keys[i];
        }
      }
    }

    /** The loop over all replicator slots. */
    method BroadcastToAll(m: Message)
      requires Valid()
      modifies `mail
      ensures Valid() && mail == TellAll(old(mail), m)
    {
      for i := 0 to |keys|
        invariant Valid() && mail.Keys == old(mail).Keys
        invariant forall r :: r in mail ==> mail[r] == old(mail)[r] + (if r in keys[..i] then [m] else [])
      {
        assert keys[..i + 1] == keys[..i] + [keys[i]];
        assert keys[i] !in keys[..i];
        if running[i] {
          mail := mail[keys[i] := mail[keys[i]] + [m]];
        }
      }
      assert keys[..|keys|] == keys;
    }

    method InsertTotals(h: Hash, opinions: seq<SingleOpinion>)
      requires Valid()
      modifies `modificationSizes
      ensures modificationSizes == old(modificationSizes)[h := old(State()).Sizes(h) + Totals(opinions)]
    {
      var totals := if h in modificationSizes then modificationSizes[h] else {};
      ghost var known := totals;
      for i := 0 to |opinions|
        invariant totals == known + Totals(opinions[..i])
      {
        assert opinions[..i + 1] == opinions[..i] + [opinions[i]];
        assert Totals(opinions[..i + 1]) == Totals(opinions[..i]) + {Total(opinions[i].uploadLayout)};
        totals := totals + {Total(opinions[i].uploadLayout)};
      }
      assert opinions[..|opinions|] == opinions;
      modificationSizes := modificationSizes[h := totals];
    }

    /** What a starting replicator is told: the drive, the last approval and the queue. */
    method StartReplicator(i: nat)
      requires Valid() && 1 <= i <= |keys| && (running[i - 1] || drive.Some?)
      modifies `running, `mail
      ensures Valid() && running == old(running)[i - 1 := true]
      ensures mail == if old(running)[i - 1] then old(mail) else old(mail)[keys[i - 1] := SingleReplay(State())]
    {
      if !running[i - 1] {
        running := running[i - 1 := true];
        var told := [Message.AddDrive(drive.value.0, drive.value.1)];
        if lastApprovedModification.Some? {
          told := told + [ApprovalPublished(Publish(lastApprovedModification.value))];
        }
        ghost var before := told;
        for j := 0 to |pendingModifications|
          invariant told == before + Modifies(drive.value.0, pendingModifications[..j])
        {
          assert Modifies(drive.value.0, pendingModifications[..j + 1])
              == Modifies(drive.value.0, pendingModifications[..j]) + [Modify(drive.value.0, pendingModifications[j])];
          told := told + [Modify(drive.value.0, pendingModifications[j])];
        }
        assert pendingModifications[..|pendingModifications|] == pendingModifications;
        mail := mail[keys[i - 1] := told];
      }
    }

    method StopReplicator(i: nat)
      requires Valid() && 1 <= i <= |keys|
      modifies `running, `mail
      ensures Valid() && running == old(running)[i - 1 := false] && mail == old(mail) - {keys[i - 1]}
    {
      running := running[i - 1 := false];
      mail := mail - {keys[i - 1]};
    }

    method AddDrive(driveKey: Key, client: Key, driveSize: nat)
      requires Valid()
      modifies this
      ensures Valid() && State() == SingleStep(old(State()), AddOnly(driveKey, client, driveSize))
    {
      var request := AddDriveRequest(driveSize, 0, [], keys, client, keys, keys);
      drive := Some((driveKey, request));
      BroadcastToAll(Message.AddDrive(driveKey, request));
    }

    method ModifyDrive(driveKey: Key, request: ModificationRequest)
      requires Valid()
      modifies this
      ensures Valid() && State() == SingleStep(old(State()), ModifyOnly(driveKey, request))
    {
      pendingModifications := pendingModifications + [request];
      BroadcastToAll(Modify(driveKey, request));
    }

    method CancelModification(driveKey: Key, transactionHash: Hash)
      requires Valid()
      modifies this
      ensures Valid() && State() == SingleStep(old(State()), CancelOnly(driveKey, transactionHash))
    {
      pendingModifications := EraseHash(pendingModifications, transactionHash);
      BroadcastToAll(CancelModify(driveKey, transactionHash));
    }

    method ModifyApprovalTransactionIsReady(reporter: Key, info: ApprovalTransactionInfo) returns (passed: bool)
      requires Valid() && SingleDefined(State(), ApproveOnly(reporter, info))
      modifies this
      ensures Valid() && State() == SingleStep(old(State()), ApproveOnly(reporter, info))
      ensures passed <==> (old(pendingModifications)[0].transactionHash == info.modifyTransactionHash ==>
                             |State().Sizes(info.modifyTransactionHash)| == 1)
    {
      if pendingModifications[0].transactionHash != info.modifyTransactionHash {
        return true;
      }
      passed := Accept(info);
      assert State() == SingleStep(old(State()), ApproveOnly(reporter, info));
    }

    method Accept(info: ApprovalTransactionInfo) returns (passed: bool)
      requires Valid() && drive.Some? && pendingModifications != []
      modifies this
      ensures Valid()
      ensures drive == Some((old(drive).value.0, old(drive).value.1.(expectedCumulativeDownloadSize :=
                old(drive).value.1.expectedCumulativeDownloadSize + old(pendingModifications)[0].maxDataSize)))
      ensures pendingModifications == old(pendingModifications)[1..] && lastApprovedModification == Some(info)
      ensures rootHashes == old(rootHashes)[info.modifyTransactionHash := info.rootHash]
      ensures modificationSizes == AddSizes(old(State()), info)
      ensures mail == TellAll(old(mail), ApprovalPublished(Publish(info)))
      ensures passed == (|modificationSizes[info.modifyTransactionHash]| == 1)
    {
      var request := drive.value.1;
      drive := Some((drive.value.0, request.(expectedCumulativeDownloadSize :=
        request.expectedCumulativeDownloadSize + pendingModifications[0].maxDataSize)));
      pendingModifications := pendingModifications[1..];
      lastApprovedModification := Some(info);
      rootHashes := rootHashes[info.modifyTransactionHash := info.rootHash];
      BroadcastToAll(ApprovalPublished(Publish(info)));
      InsertTotals(info.modifyTransactionHash, info.opinions);
      passed := |modificationSizes[info.modifyTransactionHash]| == 1;
    }

    method SingleModifyApprovalTransactionIsReady(reporter: Key, info: ApprovalTransactionInfo) returns (passed: bool)
      requires Valid() && reporter in mail && SingleDefined(State(), ApproveSingleOnly(reporter, info))
      modifies this
      ensures Valid() && State() == SingleStep(old(State()), ApproveSingleOnly(reporter, info))
      ensures passed <==> (old(lastApprovedModification).value.modifyTransactionHash == info.modifyTransactionHash ==>
                             |info.opinions| == 1 && |State().Sizes(info.modifyTransactionHash)| == 1)
    {
      var h := info.modifyTransactionHash;
      if h != lastApprovedModification.value.modifyTransactionHash {
        return true;
      }
      mail := mail[reporter := mail[reporter] + [SingleApprovalPublished(info.driveKey, h)]];
      if |info.opinions| != 1 {
        return false;
      }
      InsertTotals(h, info.opinions);
      passed := |modificationSizes[h]| == 1;
    }
  }
}
