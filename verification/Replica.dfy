/** What a replicator makes of the notifications it gets about one drive: the deferred queue of
    `FlatDrive` together with the modification it is working on, the bytes it expects to have
    downloaded once that queue front is approved, its verification slot, and what the addition said. */
module Replica {
  import opened Basics
  import opened Protocol

  datatype View = View(
    pending: seq<ModificationRequest>,
    lastApproval: Option<PublishedApproval>,
    cumulativeDownload: nat,
    verification: Option<VerificationRequest>,
    replicators: seq<Key>,
    donatorShard: seq<Key>,
    recipientShard: seq<Key>,
    driveSize: nat,
    client: Key,
    completed: seq<CompletedModification>)

  /** Index of the first queued modification with hash `h`, or the queue's length. */
  function IndexOfHash(queue: seq<ModificationRequest>, h: Hash): (i: nat)
    ensures i <= |queue|
    ensures i < |queue| ==> queue[i].transactionHash == h
    ensures forall j :: 0 <= j < i ==> queue[j].transactionHash != h
  {
    if queue == [] || queue[0].transactionHash == h then 0 else 1 + IndexOfHash(queue[1..], h)
  }

  /** `cancelModifyDrive` erases the first queued modification with the hash, if there is one. */
  function EraseFirst(queue: seq<ModificationRequest>, h: Hash): seq<ModificationRequest> {
    var i := IndexOfHash(queue, h);
    if i == |queue| then queue else queue[..i] + queue[i + 1..]
  }

  /** A published approval ends any verification; if its modification is queued, everything up to and
      including it leaves the queue and is added to the expected download. */
  function CatchUp(v: View, approval: PublishedApproval): View {
    var i := IndexOfHash(v.pending, approval.modifyTransactionHash);
    var v' := v.(lastApproval := Some(approval), verification := None);
    if i == |v.pending| then v'
    else v'.(pending := v.pending[i + 1..],
             cumulativeDownload := v.cumulativeDownload + SumOfMaxSizes(v.pending[..i + 1]))
  }

  /** The view of `drive` after one message; messages about other drives, or about a drive that is
      not held, change nothing. */
  function Receive(drive: Key, view: Option<View>, m: Message): Option<View> {
    if m.Drive() != drive then view
    else if view.None? then
      if m.AddDrive? then
        Some(View([], None, m.request.expectedCumulativeDownloadSize, None, m.request.fullReplicatorList,
                  m.request.modifyDonatorShard, m.request.modifyRecipientShard, m.request.driveSize,
                  m.request.client, m.request.completedModifications))
      else None
    else
      var v := view.value;
      match m
      case AddDrive(_, _) => view
      case RemoveDrive(_) => None
      case SetReplicators(_, list) => Some(v.(replicators := list))
      case SetShardDonator(_, list) => Some(v.(donatorShard := list))
      case SetShardRecipient(_, list) => Some(v.(recipientShard := list))
      case Modify(_, request) => Some(v.(pending := v.pending + [request]))
      case CancelModify(_, h) => Some(v.(pending := EraseFirst(v.pending, h)))
      case StartDriveVerification(_, request) => Some(v.(verification := Some(request)))
      case CancelDriveVerification(_) => Some(v.(verification := None))
      case VerifyApprovalPublished(_) => Some(v.(verification := None))
      case ApprovalPublished(approval) => Some(CatchUp(v, approval))
      case ApprovalFailed(_, _) => view
      case SingleApprovalPublished(_, _) => view
  }

  function ReceiveAll(drive: Key, view: Option<View>, log: seq<Message>): Option<View>
    decreases |log|
  {
    if log == [] then view else ReceiveAll(drive, Receive(drive, view, log[0]), log[1..])
  }

  /** The fold of a replicator's message log since its last start. */
  function ViewOf(drive: Key, log: seq<Message>): Option<View> {
    ReceiveAll(drive, None, log)
  }

  lemma {:induction false} ReceiveAllAppend(drive: Key, view: Option<View>, a: seq<Message>, b: seq<Message>)
    ensures ReceiveAll(drive, view, a + b) == ReceiveAll(drive, ReceiveAll(drive, view, a), b)
    decreases |a|
  {
    if a == [] {
      assert a + b == b;
    } else {
      assert (a + b)[1..] == a[1..] + b;
      ReceiveAllAppend(drive, Receive(drive, view, a[0]), a[1..], b);
    }
  }

  lemma ReceiveAllForeign(drive: Key, view: Option<View>, log: seq<Message>)
    requires forall m :: m in log ==> m.Drive() != drive
    ensures ReceiveAll(drive, view, log) == view
    decreases |log|
  {
    if log == [] {
    } else {
      ReceiveAllForeign(drive, view, log[1..]);
    }
  }

  /** Erasing the first match and erasing every match agree exactly when at most one entry matches. */
  lemma {:induction false} EraseFirstIsEraseAllIff(queue: seq<ModificationRequest>, h: Hash)
    ensures EraseFirst(queue, h) == EraseHash(queue, h) <==>
            forall i, j :: 0 <= i < j < |queue| ==> queue[i].transactionHash != h || queue[j].transactionHash != h
  {
    var i := IndexOfHash(queue, h);
    if k :| i < k < |queue| && queue[k].transactionHash == h {
      LeavesAnother(queue, h, k);
    } else {
      ErasesTheOne(queue, h);
    }
  }

  lemma LeavesAnother(queue: seq<ModificationRequest>, h: Hash, k: nat)
    requires IndexOfHash(queue, h) < k < |queue| && queue[k].transactionHash == h
    ensures EraseFirst(queue, h) != EraseHash(queue, h)
  {
    assert EraseFirst(queue, h)[k - 1] == queue[k];
    assert queue[k] !in EraseHash(queue, h);
  }

  lemma {:induction false} ErasesTheOne(queue: seq<ModificationRequest>, h: Hash)
    requires forall k :: IndexOfHash(queue, h) < k < |queue| ==> queue[k].transactionHash != h
    ensures EraseFirst(queue, h) == EraseHash(queue, h)
  {
    if queue == [] {
    } else {
      var rest := queue[1..];
      if queue[0].transactionHash == h {
        forall m | m in rest ensures m.transactionHash != h {
          var k :| 0 <= k < |rest| && rest[k] == m;
          assert queue[k + 1] == m;
        }
        EraseHashAbsent(rest, h);
      } else {
        forall k | IndexOfHash(rest, h) < k < |rest| ensures rest[k].transactionHash != h {
          assert queue[k + 1] == rest[k];
        }
        ErasesTheOne(rest, h);
        EraseFirstLater(queue, h);
      }
    }
  }

  lemma EraseFirstLater(queue: seq<ModificationRequest>, h: Hash)
    requires queue != [] && queue[0].transactionHash != h
    ensures EraseFirst(queue, h) == [queue[0]] + EraseFirst(queue[1..], h)
  {
    var i := IndexOfHash(queue[1..], h);
    assert IndexOfHash(queue, h) == i + 1;
    assert [queue[0]] + queue[1..] == queue;
    if i < |queue[1..]| {
      RemoveLater(queue, i);
    }
  }

  lemma {:induction false} EraseHashAppend(a: seq<ModificationRequest>, b: seq<ModificationRequest>, h: Hash)
    ensures EraseHash(a + b, h) == EraseHash(a, h) + EraseHash(b, h)
  {
    if a == [] {
      assert a + b == b;
    } else {
      assert (a + b)[1..] == a[1..] + b;
      EraseHashAppend(a[1..], b, h);
      Associative(if a[0].transactionHash == h then [] else [a[0]], EraseHash(a[1..], h), EraseHash(b, h));
    }
  }

  lemma {:induction false} EraseHashAbsent(queue: seq<ModificationRequest>, h: Hash)
    requires forall m :: m in queue ==> m.transactionHash != h
    ensures EraseHash(queue, h) == queue
  {
    if queue == [] {
    } else {
      EraseHashAbsent(queue[1..], h);
    }
  }

  // ----- catching up

  /** What an approval makes of the queue, wherever its modification stands: if it is not queued nothing
      leaves, else it leaves, with all before it and none after, and all that leave are added up. */
  lemma CaughtUp(v: View, approval: PublishedApproval, n: nat)
    requires n == |v.pending| - |CatchUp(v, approval).pending|
    ensures n <= |v.pending|
    ensures CatchUp(v, approval) == v.(lastApproval := Some(approval), verification := None, pending := v.pending[n..],
              cumulativeDownload := v.cumulativeDownload + SumOfMaxSizes(v.pending[..n]))
    ensures if exists m :: m in v.pending && m.transactionHash == approval.modifyTransactionHash
            then n > 0 && v.pending[n - 1].transactionHash == approval.modifyTransactionHash
                 && forall j :: 0 <= j < n - 1 ==> v.pending[j].transactionHash != approval.modifyTransactionHash
            else n == 0
  {
  }

  lemma {:induction false} SumOfTwoParts(queue: seq<ModificationRequest>, i: nat)
    requires i <= |queue|
    ensures SumOfMaxSizes(queue) == SumOfMaxSizes(queue[..i]) + SumOfMaxSizes(queue[i..])
  {
    if i == 0 {
      assert queue[0..] == queue;
    } else {
      SumOfTwoParts(queue[1..], i - 1);
      assert queue[1..][..i - 1] == queue[..i][1..] && queue[1..][i - 1..] == queue[i..];
    }
  }

  lemma TakenInTwo(queue: seq<ModificationRequest>, i: nat, j: nat)
    requires i <= j <= |queue|
    ensures queue[i..][j - i..] == queue[j..]
    ensures SumOfMaxSizes(queue[..j]) == SumOfMaxSizes(queue[..i]) + SumOfMaxSizes(queue[i..][..j - i])
  {
    SumOfTwoParts(queue[..j], i);
    assert queue[..j][..i] == queue[..i] && queue[..j][i..] == queue[i..][..j - i];
  }

  /** The view when the first `n` queued modifications are caught up on. */
  function Advanced(v: View, approval: PublishedApproval, n: nat): View
    requires n <= |v.pending|
  {
    v.(lastApproval := Some(approval), verification := None, pending := v.pending[n..],
       cumulativeDownload := v.cumulativeDownload + SumOfMaxSizes(v.pending[..n]))
  }

  lemma AdvancedTwice(v: View, a: PublishedApproval, b: PublishedApproval, i: nat, j: nat)
    requires i <= j <= |v.pending|
    ensures Advanced(Advanced(v, a, i), b, j - i) == Advanced(v, b, j)
  {
    TakenInTwo(v.pending, i, j);
  }

  /** The first queued modification with hash `h` stands at `i`. */
  ghost predicate StandsAt(queue: seq<ModificationRequest>, h: Hash, i: nat) {
    && i < |queue| && queue[i].transactionHash == h
    && forall j :: 0 <= j < i ==> queue[j].transactionHash != h
  }

  lemma CaughtUpAt(v: View, approval: PublishedApproval, i: nat)
    requires StandsAt(v.pending, approval.modifyTransactionHash, i)
    ensures CatchUp(v, approval) == Advanced(v, approval, i + 1)
  {
    assert IndexOfHash(v.pending, approval.modifyTransactionHash) == i;
  }

  lemma StandsLater(queue: seq<ModificationRequest>, h: Hash, i: nat, j: nat)
    requires i <= j && StandsAt(queue, h, j)
    ensures StandsAt(queue[i..], h, j - i)
  {
  }

  lemma CaughtUpFurther(v: View, w: View, a: PublishedApproval, b: PublishedApproval, i: nat, j: nat)
    requires i <= j && StandsAt(v.pending, b.modifyTransactionHash, j) && w == Advanced(v, a, i)
    ensures CatchUp(w, b) == Advanced(v, b, j + 1)
  {
    StandsLater(v.pending, b.modifyTransactionHash, i, j);
    CaughtUpAt(w, b, j - i);
    AdvancedTwice(v, a, b, i, j + 1);
  }

  /** It does not matter whether a replicator hears of the approvals in between: catching up on one and then
      on another queued behind it is catching up on the later one at once. */
  lemma ApprovalsMayBeSkipped(v: View, a: PublishedApproval, b: PublishedApproval, i: nat, j: nat)
    requires i < j && StandsAt(v.pending, a.modifyTransactionHash, i) && StandsAt(v.pending, b.modifyTransactionHash, j)
    ensures CatchUp(CatchUp(v, a), b) == CatchUp(v, b)
  {
    CaughtUpAt(v, a, i);
    CaughtUpAt(v, b, j);
    CaughtUpFurther(v, CatchUp(v, a), a, b, i + 1, j);
  }
}
