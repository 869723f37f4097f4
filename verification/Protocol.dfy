/** The values the ledger and its replicators exchange, and the ledger's record of one drive. */
module Protocol {
  import opened Basics

  /** 32-byte keys and hashes; only equality and the order used by `std::map` matter. */
  type Key = nat
  type Hash = nat

  datatype ModificationRequest = ModificationRequest(
    clientDataInfoHash: Hash, transactionHash: Hash, maxDataSize: nat, replicatorList: seq<Key>)

  datatype VerificationRequest = VerificationRequest(
    tx: Hash, shardId: nat, approvedModification: Hash, replicators: seq<Key>)

  /** Bytes the opining replicator says it received from `key`, since the drive was created. */
  datatype KeyAndBytes = KeyAndBytes(key: Key, uploadedBytes: nat)

  datatype SingleOpinion = SingleOpinion(replicatorKey: Key, uploadLayout: seq<KeyAndBytes>)

  datatype ApprovalTransactionInfo = ApprovalTransactionInfo(
    driveKey: Key, modifyTransactionHash: Hash, rootHash: Hash, opinions: seq<SingleOpinion>)

  datatype PublishedApproval = PublishedApproval(
    driveKey: Key, modifyTransactionHash: Hash, rootHash: Hash, replicatorKeys: seq<Key>)

  datatype VerifyApprovalTxInfo = VerifyApprovalTxInfo(tx: Hash, driveKey: Key, shardId: nat, opinions: seq<Hash>)

  datatype CompletedModificationStatus = APPROVED | CANCELLED

  datatype CompletedModification = CompletedModification(modificationId: Hash, status: CompletedModificationStatus)

  datatype AddDriveRequest = AddDriveRequest(
    driveSize: nat, expectedCumulativeDownloadSize: nat, completedModifications: seq<CompletedModification>,
    fullReplicatorList: seq<Key>, client: Key, modifyDonatorShard: seq<Key>, modifyRecipientShard: seq<Key>)

  datatype DriveInfo = DriveInfo(
    driveRequest: AddDriveRequest,
    pendingModifications: seq<ModificationRequest>,
    pendingVerification: Option<VerificationRequest>,
    lastApprovedModification: Option<ApprovalTransactionInfo>,
    uploads: map<Key, seq<KeyAndBytes>>)

  /** What `operator[]` of a `std::map` creates for a key it does not hold. */
  const EMPTY_DRIVE := DriveInfo(AddDriveRequest(0, 0, [], [], 0, [], []), [], None, None, map[])

  /** One asynchronous call on a running replicator. */
  datatype Message =
    | AddDrive(driveKey: Key, request: AddDriveRequest)
    | RemoveDrive(driveKey: Key)
    | SetReplicators(driveKey: Key, replicators: seq<Key>)
    | SetShardDonator(driveKey: Key, replicators: seq<Key>)
    | SetShardRecipient(driveKey: Key, replicators: seq<Key>)
    | Modify(driveKey: Key, modification: ModificationRequest)
    | CancelModify(driveKey: Key, transactionHash: Hash)
    | StartDriveVerification(driveKey: Key, verification: VerificationRequest)
    | CancelDriveVerification(driveKey: Key)
    | VerifyApprovalPublished(verifyInfo: VerifyApprovalTxInfo)
    | ApprovalPublished(approval: PublishedApproval)
    | ApprovalFailed(driveKey: Key, transactionHash: Hash)
    | SingleApprovalPublished(driveKey: Key, transactionHash: Hash)
  {
    function Drive(): Key {
      match this
      case VerifyApprovalPublished(info) => info.driveKey
      case ApprovalPublished(approval) => approval.driveKey
      case _ => driveKey
    }
  }

  /** The conversion operator of `ApprovalTransactionInfo`: the opinions shrink to their authors' keys. */
  function Publish(info: ApprovalTransactionInfo): (p: PublishedApproval)
    ensures p.driveKey == info.driveKey && p.modifyTransactionHash == info.modifyTransactionHash
    ensures p.rootHash == info.rootHash
    ensures |p.replicatorKeys| == |info.opinions|
    ensures forall i :: 0 <= i < |info.opinions| ==> p.replicatorKeys[i] == info.opinions[i].replicatorKey
  {
    PublishedApproval(info.driveKey, info.modifyTransactionHash, info.rootHash,
                      seq(|info.opinions|, i requires 0 <= i < |info.opinions| => info.opinions[i].replicatorKey))
  }

  /** All bytes of a layout. */
  function Total(layout: seq<KeyAndBytes>): nat {
    if layout == [] then 0 else layout[0].uploadedBytes + Total(layout[1..])
  }

  /** The first entry for `key` (`std::find_if`). */
  function BytesOf(layout: seq<KeyAndBytes>, key: Key): (r: Option<nat>)
    ensures r.None? <==> forall e :: e in layout ==> e.key != key
    ensures r.Some? ==> KeyAndBytes(key, r.value) in layout
    ensures r.Some? ==> exists i :: 0 <= i < |layout| && layout[i] == KeyAndBytes(key, r.value)
                                    && forall j :: 0 <= j < i ==> layout[j].key != key
  {
    if layout == [] then None
    else if layout[0].key == key then Some(layout[0].uploadedBytes)
    else BytesOf(layout[1..], key)
  }

  /** The queue without the modifications of one transaction hash (`std::erase_if`). */
  function EraseHash(queue: seq<ModificationRequest>, h: Hash): (r: seq<ModificationRequest>)
    ensures forall m :: m in r <==> m in queue && m.transactionHash != h
    ensures |r| <= |queue|
  {
    if queue == [] then []
    else (if queue[0].transactionHash == h then [] else [queue[0]]) + EraseHash(queue[1..], h)
  }

  function SumOfMaxSizes(queue: seq<ModificationRequest>): nat {
    if queue == [] then 0 else queue[0].maxDataSize + SumOfMaxSizes(queue[1..])
  }

  lemma SumOfMaxSizesAppend(a: seq<ModificationRequest>, m: ModificationRequest)
    ensures SumOfMaxSizes(a + [m]) == SumOfMaxSizes(a) + m.maxDataSize
  {
    if a == [] {
    } else {
      assert (a + [m])[1..] == a[1..] + [m];
      SumOfMaxSizesAppend(a[1..], m);
    }
  }
}
