/** Whole runs of the older ledger: every replicator that runs, from the beginning or started later, makes of
    what it is told exactly what the ledger records of its one drive. */
module SingleDriveRuns {
  import opened Basics
  import opened Protocol
  import opened Replica
  import opened History
  import opened Convergence
  import opened Effects
  import opened Notices
  import opened SingleDrive

  /** A handler call, or a replicator that starts or stops. */
  datatype SingleAct = Call(e: SingleEvent) | StartOne(replicator: Key) | StopOne(replicator: Key)

  /** Every call is about drive `d`, which is added first and once. */
  predicate Proper(t: Single, a: SingleAct, d: Key) {
    match a
    case Call(AddOnly(k, _, _)) => k == d && t.drive.None?
    case Call(ModifyOnly(k, _)) => k == d && t.drive.Some?
    case Call(CancelOnly(k, _)) => k == d && t.drive.Some?
    case Call(ApproveOnly(_, info)) => info.driveKey == d && t.drive.Some? && t.pending != []
    case Call(ApproveSingleOnly(_, info)) => info.driveKey == d && t.drive.Some? && t.lastApproved.Some?
    case StartOne(r) => r in t.addrList && (r in t.mail || t.drive.Some?)
    case StopOne(_) => true
  }

  function ActStep(t: Single, a: SingleAct, d: Key): Single
    requires Proper(t, a, d)
  {
    match a
    case Call(e) => SingleStep(t, e)
    case StartOne(r) => if r in t.mail then t else t.(mail := t.mail[r := SingleReplay(t)])
    case StopOne(r) => t.(mail := t.mail - {r})
  }

  ghost predicate StartsSingle(t: Single) {
    && Distinct(t.addrList) && t.drive.None? && t.pending == [] && t.lastApproved.None?
    && t.rootHashes == map[] && t.sizes == map[] && forall r :: r in t.mail ==> t.mail[r] == []
  }

  /** The state after the acts; `None` if one of them is not proper. */
  ghost function ActRun(t: Single, acts: seq<SingleAct>, d: Key): Option<Single> {
    if acts == [] then Some(t)
    else
      var before, a := ActRun(t, acts[..|acts| - 1], d), acts[|acts| - 1];
      if before.Some? && Proper(before.value, a, d) then Some(ActStep(before.value, a, d)) else None
  }

  predicate SubmitsHash(a: SingleAct, h: Hash) {
    a.Call? && a.e.ModifyOnly? && a.e.modification.transactionHash == h
  }

  /** No two modifications submitted share a hash. */
  ghost predicate FreshActs(acts: seq<SingleAct>) {
    forall i, j, h :: 0 <= i < j < |acts| && SubmitsHash(acts[i], h) ==> !SubmitsHash(acts[j], h)
  }

  // ----- one act

  /** A running replicator's view is the record of the drive, or there is neither. */
  ghost predicate Reflects(view: Option<View>, t: Single) {
    if t.drive.None? then view.None?
    else
      var q := t.drive.value.1;
      && view.Some? && view.value.pending == t.pending
      && view.value.cumulativeDownload == q.expectedCumulativeDownloadSize
      && view.value.driveSize == q.driveSize && view.value.client == q.client && view.value.completed == []
      && view.value.replicators == t.addrList && view.value.donatorShard == t.addrList
      && view.value.recipientShard == t.addrList && view.value.verification.None?
      && (view.value.lastApproval.Some? <==> t.lastApproved.Some?)
      && (t.lastApproved.Some? ==> IsReported(view.value.lastApproval.value, t.lastApproved.value))
  }

  /** What the record keeps: the drive and its approval go by its key, everybody is a member of it, nothing is
      listed as completed, and there is no approval without it. */
  ghost predicate Consistent(t: Single, d: Key) {
    && (t.drive.Some? ==> t.drive.value.0 == d && t.drive.value.1.fullReplicatorList == t.addrList
                          && t.drive.value.1.modifyDonatorShard == t.addrList
                          && t.drive.value.1.modifyRecipientShard == t.addrList
                          && t.drive.value.1.completedModifications == [])
    && (t.drive.None? ==> t.pending == [] && t.lastApproved.None?)
    && (t.lastApproved.Some? ==> t.lastApproved.value.driveKey == d)
  }

  lemma StaysConsistent(t: Single, a: SingleAct, d: Key)
    requires Proper(t, a, d) && Consistent(t, d)
    ensures Consistent(ActStep(t, a, d), d)
  {
  }

  /** The one message with which a call tells every running replicator of what it does. */
  function Announcement(t: Single, e: SingleEvent): Message {
    match e
    case AddOnly(k, client, size) =>
      AddDrive(k, AddDriveRequest(size, 0, [], t.addrList, client, t.addrList, t.addrList))
    case ModifyOnly(k, m) => Modify(k, m)
    case CancelOnly(k, h) => CancelModify(k, h)
    case ApproveOnly(_, info) => ApprovalPublished(Publish(info))
    case ApproveSingleOnly(_, info) => SingleApprovalPublished(info.driveKey, info.modifyTransactionHash)
  }

  lemma AnnouncementReceived(t: Single, e: SingleEvent, d: Key, view: Option<View>)
    requires Proper(t, Call(e), d) && Consistent(t, d) && Reflects(view, t) && DistinctHashes(t.pending)
    requires e.ApproveOnly? ==> t.pending[0].transactionHash == e.info.modifyTransactionHash
    requires !e.ApproveSingleOnly?
    ensures Reflects(Receive(d, view, Announcement(t, e)), SingleStep(t, e))
  {
    if e.CancelOnly? {
      EraseFirstIsEraseAllIff(t.pending, e.hash);
    } else if e.ApproveOnly? {
      CatchUpFront(view.value, Publish(e.info));
    }
  }

  /** What a call tells a running replicator. */
  lemma CallTells(t: Single, e: SingleEvent, d: Key, r: Key)
    requires Proper(t, Call(e), d) && r in t.mail
    ensures var log, u := t.mail[r], SingleStep(t, e);
            r in u.mail &&
            if (e.ApproveOnly? && t.pending[0].transactionHash != e.info.modifyTransactionHash)
               || (e.ApproveSingleOnly?
                   && (r != e.reporter || t.lastApproved.value.modifyTransactionHash != e.info.modifyTransactionHash))
            then u.mail[r] == log else u.mail[r] == log + [Announcement(t, e)]
  {
  }

  lemma CallReflected(t: Single, e: SingleEvent, d: Key, r: Key)
    requires Proper(t, Call(e), d) && Consistent(t, d) && DistinctHashes(t.pending)
    requires r in t.mail && Reflects(ViewOf(d, t.mail[r]), t)
    ensures r in SingleStep(t, e).mail && Reflects(ViewOf(d, SingleStep(t, e).mail[r]), SingleStep(t, e))
  {
    CallTells(t, e, d, r);
    ReceiveAllAppend(d, None, t.mail[r], [Announcement(t, e)]);
    ReceiveOne(d, ViewOf(d, t.mail[r]), Announcement(t, e));
    if !e.ApproveSingleOnly? && (e.ApproveOnly? ==> t.pending[0].transactionHash == e.info.modifyTransactionHash) {
      AnnouncementReceived(t, e, d, ViewOf(d, t.mail[r]));
    }
  }

  /** A replicator that starts makes of its replay the recorded drive. */
  lemma StartReflected(t: Single, d: Key)
    requires t.drive.Some? && Consistent(t, d)
    ensures Reflects(ViewOf(d, SingleReplay(t)), t)
  {
    ReceiveReplay(d, t.drive.value.1, OnlyDrive(t), false);
  }

  lemma ActReflected(t: Single, a: SingleAct, d: Key, r: Key)
    requires Proper(t, a, d) && Consistent(t, d) && DistinctHashes(t.pending)
    requires r in ActStep(t, a, d).mail && (r in t.mail ==> Reflects(ViewOf(d, t.mail[r]), t))
    ensures Reflects(ViewOf(d, ActStep(t, a, d).mail[r]), ActStep(t, a, d))
  {
    if a.Call? {
      assert r in t.mail;
      CallReflected(t, a.e, d, r);
    } else if a.StartOne? && r !in t.mail {
      StartReflected(t, d);
    }
  }

  // ----- runs

  lemma ActQueue(t: Single, a: SingleAct, d: Key)
    requires Proper(t, a, d)
    ensures var queue' := ActStep(t, a, d).pending;
            if a.Call? && a.e.ModifyOnly? then queue' == t.pending + [a.e.modification]
            else if a.Call? && a.e.CancelOnly? then queue' == EraseHash(t.pending, a.e.hash)
            else queue' == t.pending || (t.pending != [] && queue' == t.pending[1..])
  {
  }

  ghost predicate WasSubmitted(acts: seq<SingleAct>, h: Hash) {
    exists i :: 0 <= i < |acts| && SubmitsHash(acts[i], h)
  }

  /** The record is consistent, and its queue holds distinct submitted hashes. */
  ghost predicate Sane(t: Single, acts: seq<SingleAct>, d: Key) {
    && Consistent(t, d) && DistinctHashes(t.pending)
    && forall m :: m in t.pending ==> WasSubmitted(acts, m.transactionHash)
  }

  lemma QueueStaysSane(t: Single, acts: seq<SingleAct>, d: Key)
    requires acts != [] && FreshActs(acts) && Sane(t, acts[..|acts| - 1], d) && Proper(t, acts[|acts| - 1], d)
    ensures Sane(ActStep(t, acts[|acts| - 1], d), acts, d)
  {
    var earlier, a := acts[..|acts| - 1], acts[|acts| - 1];
    StaysConsistent(t, a, d);
    ActQueue(t, a, d);
    forall m | m in t.pending
      ensures WasSubmitted(acts, m.transactionHash) && !SubmitsHash(a, m.transactionHash)
    {
      var i :| 0 <= i < |earlier| && SubmitsHash(earlier[i], m.transactionHash);
      assert SubmitsHash(acts[i], m.transactionHash);
    }
    if a.Call? && a.e.CancelOnly? {
      EraseHashDistinct(t.pending, a.e.hash);
    } else if a.Call? && a.e.ModifyOnly? {
      assert SubmitsHash(acts[|acts| - 1], a.e.modification.transactionHash);
      forall i | 0 <= i < |t.pending| ensures t.pending[i].transactionHash != a.e.modification.transactionHash {
        assert t.pending[i] in t.pending;
      }
    }
  }

  lemma {:induction false} RunIsSane(t: Single, acts: seq<SingleAct>, d: Key)
    requires StartsSingle(t) && FreshActs(acts) && ActRun(t, acts, d).Some?
    ensures Sane(ActRun(t, acts, d).value, acts, d)
  {
    if acts == [] {
    } else {
      FreshActsPrefix(acts);
      RunIsSane(t, acts[..|acts| - 1], d);
      QueueStaysSane(ActRun(t, acts[..|acts| - 1], d).value, acts, d);
    }
  }

  lemma FreshActsPrefix(acts: seq<SingleAct>)
    requires acts != [] && FreshActs(acts)
    ensures FreshActs(acts[..|acts| - 1])
  {
  }

  /** Replay convergence in the older ledger: in every reachable state the fold of each running replicator's log
      since its start is what the ledger records, and there is nothing before the drive is added. */
  lemma {:induction false} SingleConvergence(t: Single, acts: seq<SingleAct>, d: Key, r: Key)
    requires StartsSingle(t) && FreshActs(acts) && ActRun(t, acts, d).Some? && r in ActRun(t, acts, d).value.mail
    ensures Reflects(ViewOf(d, ActRun(t, acts, d).value.mail[r]), ActRun(t, acts, d).value)
  {
    if acts == [] {
    } else {
      var earlier := acts[..|acts| - 1];
      var s := ActRun(t, earlier, d).value;
      FreshActsPrefix(acts);
      RunIsSane(t, earlier, d);
      if r in s.mail {
        SingleConvergence(t, earlier, d, r);
      }
      ActReflected(s, acts[|acts| - 1], d, r);
    }
  }

  // ----- answers and totals

  /** The call is a single report about the last approval. */
  predicate ReportsLast(t: Single, a: SingleAct) {
    a.Call? && a.e.ApproveSingleOnly? && t.lastApproved.Some?
    && t.lastApproved.value.modifyTransactionHash == a.e.info.modifyTransactionHash
  }

  /** The answers due to `r` since it was started last: it is told of every report of its own about the last
      approval, even one that then fails an assertion. */
  ghost function AnswersDue(t: Single, acts: seq<SingleAct>, d: Key, r: Key): seq<Message> {
    if acts == [] then []
    else
      var earlier, a, s := acts[..|acts| - 1], acts[|acts| - 1], ActRun(t, acts[..|acts| - 1], d);
      if s.None? || r !in s.value.mail || a == StopOne(r) then []
      else AnswersDue(t, earlier, d, r)
           + (if ReportsLast(s.value, a) && a.e.reporter == r
              then [SingleApprovalPublished(a.e.info.driveKey, a.e.info.modifyTransactionHash)] else [])
  }

  lemma AnsweredStep(t: Single, a: SingleAct, d: Key, r: Key)
    requires Proper(t, a, d) && r in t.mail && r in ActStep(t, a, d).mail
    ensures NoticesIn(ActStep(t, a, d).mail[r]) == NoticesIn(t.mail[r])
              + (if ReportsLast(t, a) && a.e.reporter == r
                 then [SingleApprovalPublished(a.e.info.driveKey, a.e.info.modifyTransactionHash)] else [])
  {
    if a.Call? {
      var m := Announcement(t, a.e);
      CallTells(t, a.e, d, r);
      NoticesAppend(t.mail[r], [m]);
      assert NoticesIn([m]) == if IsNotice(m) then [m] else [];
    }
  }

  /** In every reachable state these, in order, are the answers in the log of a running replicator. */
  lemma {:induction false} SingleReportsAreAnswered(t: Single, acts: seq<SingleAct>, d: Key, r: Key)
    requires StartsSingle(t) && ActRun(t, acts, d).Some? && r in ActRun(t, acts, d).value.mail
    ensures NoticesIn(ActRun(t, acts, d).value.mail[r]) == AnswersDue(t, acts, d, r)
  {
    if acts == [] {
    } else {
      var earlier, a := acts[..|acts| - 1], acts[|acts| - 1];
      var s := ActRun(t, earlier, d).value;
      if r in s.mail {
        SingleReportsAreAnswered(t, earlier, d, r);
        AnsweredStep(s, a, d, r);
      } else {
        ReplayHasNoNotices(s.drive.value.0, s.drive.value.1, OnlyDrive(s), false);
        NoNotices(SingleReplay(s));
      }
    }
  }

  /** The totals reported for `h`: by approvals that take the front, and by single opinions alone in a report. */
  ghost function TotalsReported(t: Single, acts: seq<SingleAct>, d: Key, h: Hash): set<nat> {
    if acts == [] then {}
    else
      var earlier, a, s := acts[..|acts| - 1], acts[|acts| - 1], ActRun(t, acts[..|acts| - 1], d);
      TotalsReported(t, earlier, d, h) + (if s.Some? then TotalsBy(s.value, a, h) else {})
  }

  ghost function TotalsBy(t: Single, a: SingleAct, h: Hash): set<nat> {
    if a.Call? && a.e.ApproveOnly? && a.e.info.modifyTransactionHash == h
       && t.pending != [] && t.pending[0].transactionHash == h
      then set o | o in a.e.info.opinions :: Total(o.uploadLayout)
    else if ReportsLast(t, a) && a.e.info.modifyTransactionHash == h && |a.e.info.opinions| == 1
      then {Total(a.e.info.opinions[0].uploadLayout)}
    else {}
  }

  lemma TotalsActStep(t: Single, a: SingleAct, d: Key, h: Hash)
    requires Proper(t, a, d)
    ensures ActStep(t, a, d).Sizes(h) == t.Sizes(h) + TotalsBy(t, a, h)
  {
    if ReportsLast(t, a) && |a.e.info.opinions| == 1 {
      assert a.e.info.opinions == [a.e.info.opinions[0]];
    }
  }

  /** In every reachable state the recorded totals are exactly the reported ones, whether or not they agree. */
  lemma {:induction false} SingleTotalsAreReported(t: Single, acts: seq<SingleAct>, d: Key, h: Hash)
    requires StartsSingle(t) && ActRun(t, acts, d).Some?
    ensures ActRun(t, acts, d).value.Sizes(h) == TotalsReported(t, acts, d, h)
  {
    if acts == [] {
    } else {
      SingleTotalsAreReported(t, acts[..|acts| - 1], d, h);
      TotalsActStep(ActRun(t, acts[..|acts| - 1], d).value, acts[|acts| - 1], d, h);
    }
  }
}
