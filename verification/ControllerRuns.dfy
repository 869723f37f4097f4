/** The whole life of one opinion controller: what no sequence of its operations can undo. */
module ControllerRuns {
  import opened Protocol
  import opened Opinions

  /** The operations of a controller, whoever calls them and in whatever order. */
  datatype Operation =
    | IncreaseExpected(add: nat)
    | UpdateUploads(id: Hash, replicators: seq<Key>, addDownload: nat, traffic: map<Key, nat>)
    | ApproveUploads
    | DisapproveUploads

  ghost predicate Performs(a: Accounts, client: Key, op: Operation, b: Accounts) {
    match op
    case IncreaseExpected(add) => b == Increased(a, add)
    case UpdateUploads(id, replicators, add, traffic) =>
      Updatable(a, add) && Updates(a, b, client, id, replicators, add, traffic)
    case ApproveUploads => b == ApprovedAccounts(a)
    case DisapproveUploads => b == Disapproved(a)
  }

  /** `states` are the accounts before, between and after the operations. */
  ghost predicate Life(states: seq<Accounts>, client: Key, operations: seq<Operation>) {
    && |states| == |operations| + 1
    && forall i :: 0 <= i < |operations| ==> Performs(states[i], client, operations[i], states[i + 1])
  }

  /** The approved uploads are within the expected download and within the ones not approved yet. */
  ghost predicate Sound(a: Accounts) {
    Sum(a.approved.uploads) <= a.approvedExpected && Dominated(a.approved.uploads, a.notApproved.uploads)
  }

  /** Nothing approved is taken back. */
  ghost predicate Keeps(a: Accounts, b: Accounts) {
    a.approvedExpected <= b.approvedExpected && Dominated(a.approved.uploads, b.approved.uploads)
  }

  lemma {:induction false} PerformedKeeps(a: Accounts, client: Key, op: Operation, b: Accounts)
    requires Sound(a) && Performs(a, client, op, b)
    ensures Sound(b) && Keeps(a, b)
  {
    if op.UpdateUploads? {
      forall k | k in a.approved.uploads
        ensures k in b.notApproved.uploads && a.approved.uploads[k] <= b.notApproved.uploads[k]
      {
        assert k in a.notApproved.uploads;
      }
    }
  }

  /** Over every sequence of operations from a new controller: the expected download and every approved counter
      never fall, and the approved uploads together never exceed what is expected. */
  lemma {:induction false} NothingApprovedIsTakenBack(expected: nat, states: seq<Accounts>, client: Key,
                                                      operations: seq<Operation>, i: nat, j: nat)
    requires Life(states, client, operations) && states[0] == NewAccounts(expected) && i <= j < |states|
    ensures Sound(states[j]) && Keeps(states[i], states[j]) && states[j].approvedExpected >= expected
    decreases j
  {
    if j == 0 {
    } else {
      var before := if i < j then i else i - 1;
      NothingApprovedIsTakenBack(expected, states, client, operations, before, j - 1);
      PerformedKeeps(states[j - 1], client, operations[j - 1], states[j]);
    }
  }

  /** A disapproval undoes exactly the updates since the last approval. */
  lemma {:induction false} DisapprovalUndoesUpdates(states: seq<Accounts>, client: Key, operations: seq<Operation>)
    requires Life(states, client, operations) && states[0].notApproved == states[0].approved
    requires forall op :: op in operations ==> op.UpdateUploads? || op.IncreaseExpected?
    ensures var a, b := states[0], Disapproved(states[|operations|]);
            b == a.(approvedExpected := b.approvedExpected) && a.approvedExpected <= b.approvedExpected
    ensures (forall op :: op in operations ==> op.UpdateUploads?) ==> Disapproved(states[|operations|]) == states[0]
    decreases |operations|
  {
    if operations == [] {
    } else {
      var n := |operations| - 1;
      assert operations[n] in operations && forall op :: op in operations[..n] ==> op in operations;
      DisapprovalUndoesUpdates(states[..n + 1], client, operations[..n]);
    }
  }
}
