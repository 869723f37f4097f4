/** Why the ledger's assertions hold when replicators compute their opinions as they do: over any
    run of one drive in which every opinion comes from a replicator's controller, no upload check and
    no total check fails, and the common total of each approval is the drive's cumulative size. */
module HonestRuns {
  import opened Basics
  import opened Protocol
  import opened Chain
  import opened History
  import opened Isolation
  import opened Quorum
  import opened Uploads
  import opened Opinions

  /** The ledger and the controllers of the drive's replicators. `ready` have an opinion about the
      queue's front; the approved uploads of `settled` are those of the drive's last approval. */
  datatype Honest = Honest(chain: Chain, team: map<Key, Accounts>, ready: set<Key>, settled: set<Key>)

  datatype Move =
    | Submit(m: ModificationRequest)
    | Cancel(h: Hash)
    /** A replicator has applied the front's modification and updates its uploads. */
    | Calculate(r: Key, shard: seq<Key>, traffic: map<Key, nat>, updated: Accounts)
    | Report(reporter: Key, info: ApprovalTransactionInfo)
    /** A replicator that had no opinion when the approval was published accounts for it afterwards. */
    | CatchUp(r: Key, shard: seq<Key>, traffic: map<Key, nat>, updated: Accounts)
    | ReportSingle(reporter: Key, info: ApprovalTransactionInfo)
    /** A replicator joins and starts a controller from what the ledger tells it; if it was a member
        before, it has deleted what it had. */
    | Join(r: Key)
    | Leave(r: Key)
    /** Any handler that is about another drive, or about this drive's verification. */
    | Elsewhere(e: Event)

  function Cumulative(s: Chain, d: Key): nat {
    s.Drive(d).driveRequest.expectedCumulativeDownloadSize
  }

  function Queue(s: Chain, d: Key): seq<ModificationRequest> {
    s.Drive(d).pendingModifications
  }

  function LastHash(s: Chain, d: Key): Hash
    requires s.Drive(d).lastApprovedModification.Some?
  {
    s.Drive(d).lastApprovedModification.value.modifyTransactionHash
  }

  // ----- moves

  /** Opinions about the front are the layouts of replicators that are ready. */
  ghost predicate HonestOpinions(t: Honest, opinions: seq<SingleOpinion>) {
    forall o :: o in opinions ==>
      o.replicatorKey in t.team && o.replicatorKey in t.ready
      && o.uploadLayout == Layout(t.team[o.replicatorKey].notApproved.uploads)
  }

  ghost predicate HonestSingle(t: Honest, opinions: seq<SingleOpinion>) {
    |opinions| == 1 &&
    var o := opinions[0];
    o.replicatorKey in t.team && o.replicatorKey in t.settled
    && o.uploadLayout == Layout(t.team[o.replicatorKey].approved.uploads)
  }

  /** The hash is not one the drive still needs. */
  ghost predicate Foreign(s: Chain, d: Key, h: Hash) {
    && (forall m :: m in Queue(s, d) ==> m.transactionHash != h)
    && (s.Drive(d).lastApprovedModification.Some? ==> LastHash(s, d) != h)
  }

  /** A report of the front has honest opinions; one that is rejected or premature may have any. */
  ghost predicate HonestReport(t: Honest, d: Key, info: ApprovalTransactionInfo) {
    info.driveKey == d &&
    var verdict := ApprovalVerdict(t.chain.Drive(d), info);
    verdict.NotFront? || verdict.InvalidOpinions? || HonestOpinions(t, info.opinions)
  }

  ghost predicate HonestSingleReport(t: Honest, d: Key, info: ApprovalTransactionInfo) {
    info.driveKey == d &&
    var verdict := SingleApprovalVerdict(t.chain.Drive(d), info);
    verdict.NotMember? || verdict.Stale? || HonestSingle(t, info.opinions)
  }

  /** No positive counter is recorded for the replicator. */
  ghost predicate SafeJoin(s: Chain, d: Key, r: Key) {
    r in s.Drive(d).uploads ==> forall k :: Counter(s.Drive(d).uploads[r], k) == 0
  }

  ghost predicate Possible(t: Honest, d: Key, client: Key, mv: Move) {
    var s := t.chain;
    match mv
    case Submit(m) => s.Sizes(m.transactionHash) == {} && Foreign(s, d, m.transactionHash)
    case Cancel(_) => true
    case Calculate(r, shard, traffic, updated) =>
      r in t.team && r !in t.ready && Queue(s, d) != []
      && Updatable(t.team[r], Queue(s, d)[0].maxDataSize)
      && Updates(t.team[r], updated, client, Queue(s, d)[0].transactionHash, shard, Queue(s, d)[0].maxDataSize, traffic)
    case Report(_, info) => HonestReport(t, d, info)
    case CatchUp(r, shard, traffic, updated) =>
      r in t.team && r !in t.ready && s.Drive(d).lastApprovedModification.Some? && Updatable(t.team[r], 0)
      && Updates(t.team[r], updated, client, LastHash(s, d), shard, 0, traffic)
    case ReportSingle(_, info) => HonestSingleReport(t, d, info)
    case Join(r) => r !in s.Members(d)
    case Leave(_) => true
    case Elsewhere(e) =>
      (e.Subject() != Some(d) || e.StartVerificationEvent? || e.CancelVerificationEvent? || e.VerificationReadyEvent?)
      && (SharedHash(e).Some? && !e.VerificationReadyEvent? ==> Foreign(s, d, SharedHash(e).value))
  }

  predicate IsReport(mv: Move) {
    mv.Report? || mv.ReportSingle?
  }

  function ReportEvent(mv: Move): Event
    requires IsReport(mv)
  {
    if mv.Report? then ApprovalReadyEvent(mv.reporter, mv.info) else SingleApprovalReadyEvent(mv.reporter, mv.info)
  }

  function EventOf(d: Key, mv: Move): Option<Event> {
    match mv
    case Submit(m) => Some(ModifyEvent(d, m))
    case Cancel(h) => Some(CancelEvent(d, h))
    case Report(r, info) => Some(ApprovalReadyEvent(r, info))
    case ReportSingle(r, info) => Some(SingleApprovalReadyEvent(r, info))
    case Join(r) => Some(AddReplicatorEvent(d, r))
    case Leave(r) => Some(RemoveReplicatorEvent(d, r))
    case Elsewhere(e) => Some(e)
    case _ => None
  }

  /** What the controllers do when they hear of an approval of the front. */
  ghost function HearApproval(team: map<Key, Accounts>, ready: set<Key>, size: nat): map<Key, Accounts> {
    map r | r in team :: if r in ready then ApprovedAccounts(team[r]) else Increased(team[r], size)
  }

  function HearCancel(team: map<Key, Accounts>, ready: set<Key>): map<Key, Accounts> {
    map r | r in team :: if r in ready then Disapproved(team[r]) else team[r]
  }

  ghost function AfterMove(t: Honest, d: Key, mv: Move): Honest {
    var s := t.chain;
    var s' := if EventOf(d, mv).Some? then Step(s, EventOf(d, mv).value) else s;
    match mv
    case Cancel(h) =>
      if Queue(s, d) != [] && Queue(s, d)[0].transactionHash == h
      then Honest(s', HearCancel(t.team, t.ready), {}, t.settled) else t.(chain := s')
    case Calculate(r, _, _, updated) => Honest(s', t.team[r := updated], t.ready + {r}, t.settled)
    case Report(_, info) =>
      if ApprovalVerdict(s.Drive(info.driveKey), info).Accepted?
      then Honest(s', HearApproval(t.team, t.ready, s.Drive(info.driveKey).pendingModifications[0].maxDataSize), {},
                  t.ready)
      else t.(chain := s')
    case CatchUp(r, _, _, updated) => Honest(s', t.team[r := ApprovedAccounts(updated)], t.ready, t.settled + {r})
    case Join(r) => Honest(s', t.team[r := NewAccounts(Cumulative(s, d))], t.ready - {r}, t.settled - {r})
    case Leave(r) => Honest(s', t.team - {r}, t.ready - {r}, t.settled - {r})
    case _ => t.(chain := s')
  }

  // ----- the invariant

  function Front(queue: seq<ModificationRequest>): Option<ModificationRequest> {
    if queue == [] then None else Some(queue[0])
  }

  /** A controller expects what the ledger has approved; its opinion, if it has one, adds the front, and is
      kept under the front's hash. */
  ghost predicate AccountsInStep(a: Accounts, total: nat, front: Option<ModificationRequest>, ready: bool,
                                 settled: bool) {
    && a.approvedExpected == total
    && Sum(a.approved.uploads) <= total
    && (if ready
        then front.Some? && Sum(a.notApproved.uploads) == total + front.value.maxDataSize
             && a.notApproved.modificationId == front.value.transactionHash
             && Dominated(a.approved.uploads, a.notApproved.uploads)
        else a.notApproved == a.approved)
    && (settled ==> Sum(a.approved.uploads) == total)
  }

  ghost predicate TeamInStep(team: map<Key, Accounts>, ready: set<Key>, settled: set<Key>, total: nat,
                             front: Option<ModificationRequest>)
  {
    forall r :: r in team ==> AccountsInStep(team[r], total, front, r in ready, r in settled)
  }

  /** No counter of the layout has fallen in `n`. */
  ghost predicate Below(layout: seq<KeyAndBytes>, n: map<Key, nat>) {
    forall k :: Counter(layout, k) <= At(n, k)
  }

  /** What is recorded for the replicator is below what its controller has approved. */
  ghost predicate Covered(t: Honest, d: Key, r: Key) {
    r in t.chain.Drive(d).uploads && r in t.team ==>
      Below(t.chain.Drive(d).uploads[r], t.team[r].approved.uploads)
  }

  ghost predicate AllCovered(t: Honest, d: Key) {
    forall r: Key :: Covered(t, d, r)
  }

  ghost predicate TotalsAtMost(uploads: map<Key, seq<KeyAndBytes>>, total: nat) {
    forall r :: r in uploads ==> Total(uploads[r]) <= total
  }

  /** What is recorded, for former members too, was recorded for an approval and is part of the total. */
  ghost predicate RecordsInStep(di: DriveInfo) {
    && (di.uploads != map[] ==> di.lastApprovedModification.Some?)
    && TotalsAtMost(di.uploads, di.driveRequest.expectedCumulativeDownloadSize)
  }

  ghost predicate QueueInStep(s: Chain, d: Key) {
    && DistinctHashes(Queue(s, d))
    && (forall m :: m in Queue(s, d) ==> s.Sizes(m.transactionHash) == {})
    && (s.Drive(d).lastApprovedModification.Some? ==> s.Sizes(LastHash(s, d)) == {Cumulative(s, d)})
  }

  ghost predicate InStep(t: Honest, d: Key) {
    && TeamInStep(t.team, t.ready, t.settled, Cumulative(t.chain, d), Front(Queue(t.chain, d)))
    && RecordsInStep(t.chain.Drive(d))
    && QueueInStep(t.chain, d)
  }

  /** The drive has just been added: nothing is queued, approved or accounted for. */
  ghost predicate StartsHonest(t: Honest, d: Key) {
    var di := t.chain.Drive(d);
    && di.pendingModifications == [] && di.lastApprovedModification.None? && di.uploads == map[]
    && t.ready == {} && t.settled == {}
    && (forall r :: r in t.team ==> t.team[r] == NewAccounts(Cumulative(t.chain, d)))
  }

  // ----- opinions are admissible and have one total

  lemma BelowItself(n: map<Key, nat>)
    ensures Below(Layout(n), n)
  {
    forall k ensures Counter(Layout(n), k) <= At(n, k) {
      LayoutBytes(n, k);
    }
  }

  lemma BelowGrows(layout: seq<KeyAndBytes>, m: map<Key, nat>, n: map<Key, nat>)
    requires Below(layout, m) && Dominated(m, n)
    ensures Below(layout, n)
  {
    forall k ensures Counter(layout, k) <= At(n, k) {
      assert Counter(layout, k) <= At(m, k) <= At(n, k);
    }
  }

  /** Every opinion is the layout of its author's counters. */
  ghost predicate LayoutsOf(opinions: seq<SingleOpinion>, next: map<Key, map<Key, nat>>) {
    forall o :: o in opinions ==> o.replicatorKey in next && o.uploadLayout == Layout(next[o.replicatorKey])
  }

  ghost predicate AllAdmissible(uploads: map<Key, seq<KeyAndBytes>>, opinions: seq<SingleOpinion>) {
    forall o :: o in opinions ==> Admissible(uploads, o)
  }

  /** No recorded counter of an author is above its new one. */
  ghost predicate BelowOpinions(uploads: map<Key, seq<KeyAndBytes>>, opinions: seq<SingleOpinion>,
                                next: map<Key, map<Key, nat>>)
  {
    && LayoutsOf(opinions, next)
    && (forall o :: o in opinions && o.replicatorKey in uploads ==>
          Below(uploads[o.replicatorKey], next[o.replicatorKey]))
  }

  /** A layout of counters that have not fallen keeps the positive ones and passes the upload check. */
  lemma BelowIsAdmissible(uploads: map<Key, seq<KeyAndBytes>>, r: Key, n: map<Key, nat>)
    requires r in uploads ==> Below(uploads[r], n)
    ensures Admissible(uploads, SingleOpinion(r, Layout(n)))
    ensures r in uploads ==> Covers(Layout(n), uploads[r])
    ensures DistinctKeys(Layout(n))
  {
    LayoutEntries(n);
    if r in uploads {
      forall k ensures BytesOf(Layout(n), k) == (if k in n then Some(n[k]) else None) {
        LayoutBytes(n, k);
      }
      forall e | e in Layout(n) && BytesOf(uploads[r], e.key).Some?
        ensures BytesOf(uploads[r], e.key).value <= e.uploadedBytes
      {
        assert Counter(uploads[r], e.key) <= At(n, e.key);
      }
      forall k | Counter(uploads[r], k) > 0 ensures BytesOf(Layout(n), k).Some? {
        assert Counter(uploads[r], k) <= At(n, k);
      }
    }
  }

  lemma BelowAfterFirst(uploads: map<Key, seq<KeyAndBytes>>, opinions: seq<SingleOpinion>,
                        next: map<Key, map<Key, nat>>)
    requires opinions != [] && BelowOpinions(uploads, opinions, next)
    ensures BelowOpinions(uploads[opinions[0].replicatorKey := opinions[0].uploadLayout], opinions[1..], next)
  {
    assert opinions[0] in opinions;
    BelowItself(next[opinions[0].replicatorKey]);
  }

  /** Opinions that are layouts of counters above the recorded ones pass the upload check, and keep the
      recorded keys. */
  lemma {:induction false} HonestRecordPasses(uploads: map<Key, seq<KeyAndBytes>>, opinions: seq<SingleOpinion>,
                                              next: map<Key, map<Key, nat>>)
    requires BelowOpinions(uploads, opinions, next)
    ensures Record(uploads, opinions).passed && Disciplined(uploads, opinions)
    decreases |opinions|
  {
    if opinions == [] {
    } else {
      var o := opinions[0];
      assert o in opinions;
      assert o == SingleOpinion(o.replicatorKey, Layout(next[o.replicatorKey]));
      BelowIsAdmissible(uploads, o.replicatorKey, next[o.replicatorKey]);
      BelowAfterFirst(uploads, opinions, next);
      HonestRecordPasses(uploads[o.replicatorKey := o.uploadLayout], opinions[1..], next);
    }
  }

  /** All the opinions' totals are one. */
  lemma HonestTotals(opinions: seq<SingleOpinion>, next: map<Key, map<Key, nat>>, total: nat)
    requires opinions != []
    requires forall o :: o in opinions ==>
      o.replicatorKey in next && o.uploadLayout == Layout(next[o.replicatorKey]) && Sum(next[o.replicatorKey]) == total
    ensures Totals(opinions) == {total}
    ensures forall o :: o in opinions ==> Total(o.uploadLayout) == total
  {
    forall o | o in opinions ensures Total(o.uploadLayout) == total {
      LayoutEntries(next[o.replicatorKey]);
    }
    assert Total(opinions[0].uploadLayout) in Totals(opinions) by {
      assert opinions[0] in opinions;
    }
  }

  /** Recording an admissible opinion changes the admissibility of no other, when each author has one layout. */
  lemma StillAdmissible(uploads: map<Key, seq<KeyAndBytes>>, o: SingleOpinion, x: SingleOpinion)
    requires Admissible(uploads, o) && DistinctKeys(o.uploadLayout)
    requires x.replicatorKey == o.replicatorKey ==> x.uploadLayout == o.uploadLayout
    ensures Admissible(uploads[o.replicatorKey := o.uploadLayout], x) <==> Admissible(uploads, x)
  {
    if x.replicatorKey == o.replicatorKey {
      forall e | e in x.uploadLayout ensures BytesOf(o.uploadLayout, e.key) == Some(e.uploadedBytes) {
        DistinctBytes(o.uploadLayout, e);
      }
    }
  }

  lemma LayoutsAfterFirst(uploads: map<Key, seq<KeyAndBytes>>, opinions: seq<SingleOpinion>,
                          next: map<Key, map<Key, nat>>)
    requires opinions != [] && LayoutsOf(opinions, next) && Admissible(uploads, opinions[0])
    ensures var after := uploads[opinions[0].replicatorKey := opinions[0].uploadLayout];
            LayoutsOf(opinions[1..], next)
              && (AllAdmissible(after, opinions[1..]) <==> AllAdmissible(uploads, opinions))
  {
    var o := opinions[0];
    assert o in opinions && opinions == [o] + opinions[1..];
    LayoutEntries(next[o.replicatorKey]);
    var after := uploads[o.replicatorKey := o.uploadLayout];
    forall x | x in opinions ensures Admissible(after, x) <==> Admissible(uploads, x) {
      StillAdmissible(uploads, o, x);
    }
    assert forall x :: x in opinions <==> x == o || x in opinions[1..];
  }

  /** Layouts pass the upload check one after the other exactly if each one alone would. */
  lemma {:induction false} RecordPassesIff(uploads: map<Key, seq<KeyAndBytes>>, opinions: seq<SingleOpinion>,
                                           next: map<Key, map<Key, nat>>)
    requires LayoutsOf(opinions, next)
    ensures Record(uploads, opinions).passed <==> AllAdmissible(uploads, opinions)
    decreases |opinions|
  {
    if opinions == [] {
    } else {
      var o := opinions[0];
      assert o in opinions;
      if Admissible(uploads, o) {
        LayoutsAfterFirst(uploads, opinions, next);
        RecordPassesIff(uploads[o.replicatorKey := o.uploadLayout], opinions[1..], next);
      }
    }
  }

  /** And no recorded total exceeds what it was or the opinions' own. */
  lemma RecordedWithin(uploads: map<Key, seq<KeyAndBytes>>, opinions: seq<SingleOpinion>, before: nat, total: nat)
    requires Record(uploads, opinions).passed && before <= total && TotalsAtMost(uploads, before)
    requires forall o :: o in opinions ==> Total(o.uploadLayout) <= total
    ensures TotalsAtMost(Record(uploads, opinions).uploads, total)
  {
    var recorded := Record(uploads, opinions).uploads;
    forall r | r in recorded ensures Total(recorded[r]) <= total {
      RecordKeepsOpinions(uploads, opinions, r);
    }
  }

  ghost function NextUploads(team: map<Key, Accounts>): map<Key, map<Key, nat>> {
    map r | r in team :: team[r].notApproved.uploads
  }

  ghost function SettledUploads(team: map<Key, Accounts>): map<Key, map<Key, nat>> {
    map r | r in team :: team[r].approved.uploads
  }

  lemma OpinionsAreBelow(t: Honest, d: Key, opinions: seq<SingleOpinion>)
    requires InStep(t, d) && HonestOpinions(t, opinions)
    requires forall o :: o in opinions ==> Covered(t, d, o.replicatorKey)
    ensures BelowOpinions(t.chain.Drive(d).uploads, opinions, NextUploads(t.team))
  {
    var uploads := t.chain.Drive(d).uploads;
    forall o | o in opinions && o.replicatorKey in uploads
      ensures Below(uploads[o.replicatorKey], t.team[o.replicatorKey].notApproved.uploads)
    {
      var a := t.team[o.replicatorKey];
      BelowGrows(uploads[o.replicatorKey], a.approved.uploads, a.notApproved.uploads);
    }
  }

  /** All opinions about the front have the drive's cumulative size with the front's. */
  lemma FrontTotals(t: Honest, d: Key, opinions: seq<SingleOpinion>)
    requires InStep(t, d) && HonestOpinions(t, opinions) && opinions != [] && Queue(t.chain, d) != []
    ensures var total := Cumulative(t.chain, d) + Queue(t.chain, d)[0].maxDataSize;
            Totals(opinions) == {total} && forall o :: o in opinions ==> Total(o.uploadLayout) == total
  {
    HonestTotals(opinions, NextUploads(t.team), Cumulative(t.chain, d) + Queue(t.chain, d)[0].maxDataSize);
  }

  /** An honest report passes exactly if no counter of an author is below the one recorded for it: the one
      total is always the drive's cumulative size with the front's. */
  lemma HonestReportPassesIff(t: Honest, d: Key, reporter: Key, info: ApprovalTransactionInfo)
    requires InStep(t, d) && HonestReport(t, d, info)
    ensures var e := ApprovalReadyEvent(reporter, info);
            Passes(t.chain, e) <==> (Records(t.chain, e) ==> AllAdmissible(t.chain.Drive(d).uploads, info.opinions))
    ensures ApprovalVerdict(t.chain.Drive(d), info).Accepted? ==>
              Queue(t.chain, d) != [] && t.chain.Sizes(info.modifyTransactionHash) == {}
              && Totals(info.opinions) == {Cumulative(t.chain, d) + Queue(t.chain, d)[0].maxDataSize}
  {
    var verdict := ApprovalVerdict(t.chain.Drive(d), info);
    if verdict.UploadFault? || verdict.Accepted? {
      RecordPassesIff(t.chain.Drive(d).uploads, info.opinions, NextUploads(t.team));
      FrontSizesAgree(t, d, info);
    }
  }

  lemma FrontSizesAgree(t: Honest, d: Key, info: ApprovalTransactionInfo)
    requires InStep(t, d) && info.driveKey == d && HonestOpinions(t, info.opinions)
    requires var v := ApprovalVerdict(t.chain.Drive(d), info); v.UploadFault? || v.Accepted?
    ensures SizesAgree(t.chain, info) && info.opinions != [] && t.chain.Sizes(info.modifyTransactionHash) == {}
    ensures Queue(t.chain, d) != []
    ensures Totals(info.opinions) == {Cumulative(t.chain, d) + Queue(t.chain, d)[0].maxDataSize}
  {
    FrontTotals(t, d, info.opinions);
    assert Queue(t.chain, d)[0] in Queue(t.chain, d);
    var total := Cumulative(t.chain, d) + Queue(t.chain, d)[0].maxDataSize;
    assert t.chain.Sizes(info.modifyTransactionHash) + Totals(info.opinions) == {total};
  }

  /** A single opinion of a settled replicator has the drive's cumulative size. */
  lemma HonestSingleTotal(t: Honest, d: Key, opinions: seq<SingleOpinion>)
    requires InStep(t, d) && HonestSingle(t, opinions)
    ensures LayoutsOf(opinions, SettledUploads(t.team)) && Totals(opinions) == {Cumulative(t.chain, d)}
    ensures Total(opinions[0].uploadLayout) == Cumulative(t.chain, d)
  {
    assert opinions == [opinions[0]];
    HonestTotals(opinions, SettledUploads(t.team), Cumulative(t.chain, d));
  }

  lemma HonestSinglePassesIff(t: Honest, d: Key, reporter: Key, info: ApprovalTransactionInfo)
    requires InStep(t, d) && HonestSingleReport(t, d, info)
    ensures var e := SingleApprovalReadyEvent(reporter, info);
            Passes(t.chain, e) <==> (Records(t.chain, e) ==> AllAdmissible(t.chain.Drive(d).uploads, info.opinions))
    ensures SingleApprovalVerdict(t.chain.Drive(d), info).Counted? ==>
              t.chain.Sizes(info.modifyTransactionHash) + Totals(info.opinions) == {Cumulative(t.chain, d)}
  {
    var verdict := SingleApprovalVerdict(t.chain.Drive(d), info);
    if !verdict.NotMember? && !verdict.Stale? {
      HonestSingleTotal(t, d, info.opinions);
      RecordPassesIff(t.chain.Drive(d).uploads, info.opinions, SettledUploads(t.team));
    }
  }

  // ----- the invariant is kept

  /** What the invariant needs of the ledger when the event records no opinions. */
  lemma NothingRecorded(t: Honest, u: Honest, d: Key)
    requires InStep(t, d)
    requires var di, di' := t.chain.Drive(d), u.chain.Drive(d);
             && di'.lastApprovedModification == di.lastApprovedModification && di'.uploads == di.uploads
             && Cumulative(u.chain, d) == Cumulative(t.chain, d)
             && (di.lastApprovedModification.Some? ==>
                   u.chain.Sizes(LastHash(t.chain, d)) == t.chain.Sizes(LastHash(t.chain, d)))
    requires DistinctHashes(Queue(u.chain, d))
    requires forall m :: m in Queue(u.chain, d) ==> u.chain.Sizes(m.transactionHash) == {}
    requires TeamInStep(u.team, u.ready, u.settled, Cumulative(u.chain, d), Front(Queue(u.chain, d)))
    ensures InStep(u, d)
  {
  }

  lemma AppendDistinct(queue: seq<ModificationRequest>, m: ModificationRequest)
    requires DistinctHashes(queue) && forall x :: x in queue ==> x.transactionHash != m.transactionHash
    ensures DistinctHashes(queue + [m])
  {
    forall i | 0 <= i < |queue| ensures queue[i].transactionHash != m.transactionHash {
      assert queue[i] in queue;
    }
  }

  lemma SubmitKeeps(t: Honest, d: Key, m: ModificationRequest)
    requires InStep(t, d) && t.chain.Sizes(m.transactionHash) == {} && Foreign(t.chain, d, m.transactionHash)
    ensures InStep(AfterMove(t, d, Submit(m)), d)
  {
    AppendDistinct(Queue(t.chain, d), m);
    NothingRecorded(t, AfterMove(t, d, Submit(m)), d);
  }

  lemma EraseKeepsFront(queue: seq<ModificationRequest>, h: Hash)
    requires queue != [] && queue[0].transactionHash != h
    ensures EraseHash(queue, h) != [] && EraseHash(queue, h)[0] == queue[0]
  {
  }

  lemma CancelledTeam(t: Honest, d: Key, h: Hash)
    requires InStep(t, d)
    ensures var u := AfterMove(t, d, Cancel(h));
            TeamInStep(u.team, u.ready, u.settled, Cumulative(t.chain, d), Front(EraseHash(Queue(t.chain, d), h)))
  {
    var queue := Queue(t.chain, d);
    if queue != [] && queue[0].transactionHash != h {
      EraseKeepsFront(queue, h);
    }
  }

  lemma CancelKeeps(t: Honest, d: Key, h: Hash)
    requires InStep(t, d)
    ensures InStep(AfterMove(t, d, Cancel(h)), d)
  {
    EraseHashDistinct(Queue(t.chain, d), h);
    CancelledTeam(t, d, h);
    NothingRecorded(t, AfterMove(t, d, Cancel(h)), d);
  }

  lemma CalculateKeeps(t: Honest, d: Key, client: Key, mv: Move)
    requires InStep(t, d) && Possible(t, d, client, mv) && mv.Calculate?
    ensures InStep(AfterMove(t, d, mv), d)
  {
    NothingRecorded(t, AfterMove(t, d, mv), d);
  }

  lemma CatchUpKeeps(t: Honest, d: Key, client: Key, mv: Move)
    requires InStep(t, d) && Possible(t, d, client, mv) && mv.CatchUp?
    ensures InStep(AfterMove(t, d, mv), d)
  {
    NothingRecorded(t, AfterMove(t, d, mv), d);
  }

  lemma JoinKeeps(t: Honest, d: Key, r: Key)
    requires InStep(t, d)
    ensures InStep(AfterMove(t, d, Join(r)), d)
  {
    NothingRecorded(t, AfterMove(t, d, Join(r)), d);
  }

  lemma LeaveKeeps(t: Honest, d: Key, r: Key)
    requires InStep(t, d)
    ensures InStep(AfterMove(t, d, Leave(r)), d)
  {
    NothingRecorded(t, AfterMove(t, d, Leave(r)), d);
  }

  lemma AfterElsewhere(s: Chain, d: Key, e: Event)
    requires e.Subject() != Some(d) || e.StartVerificationEvent? || e.CancelVerificationEvent?
             || e.VerificationReadyEvent?
    ensures var di, di' := s.Drive(d), Step(s, e).Drive(d);
            && di'.pendingModifications == di.pendingModifications && di'.uploads == di.uploads
            && di'.lastApprovedModification == di.lastApprovedModification && di'.driveRequest == di.driveRequest
    ensures forall h: Hash :: (SharedHash(e) == Some(h) ==> e.VerificationReadyEvent?) ==>
              Step(s, e).Sizes(h) == s.Sizes(h)
  {
  }

  lemma ElsewhereKeeps(t: Honest, d: Key, e: Event)
    requires InStep(t, d) && Possible(t, d, 0, Elsewhere(e))
    ensures InStep(AfterMove(t, d, Elsewhere(e)), d)
  {
    AfterElsewhere(t.chain, d, e);
    NothingRecorded(t, AfterMove(t, d, Elsewhere(e)), d);
  }

  lemma QueueAfterApproval(s: Chain, d: Key, e: Event)
    requires QueueInStep(s, d) && e.ApprovalReadyEvent? && e.info.driveKey == d && Approves(s, e)
    requires s.Sizes(e.info.modifyTransactionHash) + Totals(e.info.opinions)
          == {Cumulative(s, d) + Queue(s, d)[0].maxDataSize}
    ensures QueueInStep(Step(s, e), d)
  {
    var queue := Queue(s, d);
    forall m | m in queue[1..] ensures Step(s, e).Sizes(m.transactionHash) == {} {
      var j :| 0 <= j < |queue[1..]| && queue[1..][j] == m;
      assert queue[j + 1] == m && m in queue;
    }
  }

  /** What an accepted approval leaves of the drive. */
  lemma AfterApproval(s: Chain, d: Key, e: Event)
    requires e.ApprovalReadyEvent? && e.info.driveKey == d && Approves(s, e)
    ensures var u := Step(s, e);
            && Queue(s, d) != [] && e.info.opinions != []
            && Cumulative(u, d) == Cumulative(s, d) + Queue(s, d)[0].maxDataSize
            && u.Drive(d).uploads == Record(s.Drive(d).uploads, e.info.opinions).uploads
            && u.Drive(d).lastApprovedModification == Some(e.info)
  {
  }

  lemma TeamAfterApproval(t: Honest, total: nat, m: ModificationRequest, front: Option<ModificationRequest>)
    requires TeamInStep(t.team, t.ready, t.settled, total, Some(m))
    ensures TeamInStep(HearApproval(t.team, t.ready, m.maxDataSize), {}, t.ready, total + m.maxDataSize, front)
  {
  }

  lemma TotalsAfterApproval(t: Honest, d: Key, opinions: seq<SingleOpinion>)
    requires InStep(t, d) && Queue(t.chain, d) != [] && Record(t.chain.Drive(d).uploads, opinions).passed
    requires Totals(opinions) == {Cumulative(t.chain, d) + Queue(t.chain, d)[0].maxDataSize}
    ensures TotalsAtMost(Record(t.chain.Drive(d).uploads, opinions).uploads,
                         Cumulative(t.chain, d) + Queue(t.chain, d)[0].maxDataSize)
  {
    var total := Cumulative(t.chain, d) + Queue(t.chain, d)[0].maxDataSize;
    forall o | o in opinions ensures Total(o.uploadLayout) <= total {
      assert Total(o.uploadLayout) in Totals(opinions);
    }
    RecordedWithin(t.chain.Drive(d).uploads, opinions, Cumulative(t.chain, d), total);
  }

  /** An accepted approval keeps ledger and controllers in step, whoever computed its opinions, if their
      total is the right one. */
  lemma ApprovalKeeps(t: Honest, d: Key, reporter: Key, info: ApprovalTransactionInfo)
    requires InStep(t, d) && info.driveKey == d && ApprovalVerdict(t.chain.Drive(d), info).Accepted?
    requires t.chain.Sizes(info.modifyTransactionHash) == {}
    requires Totals(info.opinions) == {Cumulative(t.chain, d) + Queue(t.chain, d)[0].maxDataSize}
    ensures InStep(AfterMove(t, d, Report(reporter, info)), d)
  {
    var s, e := t.chain, ApprovalReadyEvent(reporter, info);
    AfterApproval(s, d, e);
    QueueAfterApproval(s, d, e);
    TeamAfterApproval(t, Cumulative(s, d), Queue(s, d)[0], Front(Queue(Step(s, e), d)));
    TotalsAfterApproval(t, d, info.opinions);
    AfterReport(t, d, reporter, info);
  }

  lemma AfterReport(t: Honest, d: Key, reporter: Key, info: ApprovalTransactionInfo)
    requires info.driveKey == d && ApprovalVerdict(t.chain.Drive(d), info).Accepted?
    ensures var s' := Step(t.chain, ApprovalReadyEvent(reporter, info));
            AfterMove(t, d, Report(reporter, info)) ==
            Honest(s', HearApproval(t.team, t.ready, Queue(t.chain, d)[0].maxDataSize), {}, t.ready)
  {
  }

  lemma ReportKeeps(t: Honest, d: Key, reporter: Key, info: ApprovalTransactionInfo)
    requires InStep(t, d) && HonestReport(t, d, info) && Passes(t.chain, ApprovalReadyEvent(reporter, info))
    ensures InStep(AfterMove(t, d, Report(reporter, info)), d)
  {
    HonestReportPassesIff(t, d, reporter, info);
    if ApprovalVerdict(t.chain.Drive(d), info).Accepted? {
      ApprovalKeeps(t, d, reporter, info);
    } else {
      NothingRecorded(t, AfterMove(t, d, Report(reporter, info)), d);
    }
  }

  /** What a single report that is not ignored leaves of the drive and of the sizes. */
  lemma AfterSingle(s: Chain, d: Key, e: Event)
    requires e.SingleApprovalReadyEvent? && e.info.driveKey == d
    ensures var u, verdict := Step(s, e), SingleApprovalVerdict(s.Drive(d), e.info);
            && Queue(u, d) == Queue(s, d) && Cumulative(u, d) == Cumulative(s, d)
            && u.Drive(d).lastApprovedModification == s.Drive(d).lastApprovedModification
            && u.Drive(d).uploads == (if verdict.NotMember? || verdict.Stale? then s.Drive(d).uploads
                                      else Record(s.Drive(d).uploads, e.info.opinions).uploads)
            && u.sizes == (if verdict.Counted?
                           then s.sizes[e.info.modifyTransactionHash :=
                                        s.Sizes(e.info.modifyTransactionHash) + Totals(e.info.opinions)]
                           else s.sizes)
            && (verdict.Counted? ==> s.Drive(d).lastApprovedModification.Some?
                                     && LastHash(s, d) == e.info.modifyTransactionHash)
  {
  }

  /** A single opinion is recorded, or nothing is. */
  lemma RecordSingle(uploads: map<Key, seq<KeyAndBytes>>, opinions: seq<SingleOpinion>)
    requires |opinions| == 1
    ensures Record(uploads, opinions).uploads ==
            if Admissible(uploads, opinions[0])
            then uploads[opinions[0].replicatorKey := opinions[0].uploadLayout] else uploads
  {
    assert opinions[1..] == [];
  }

  /** A counted single report adds nothing to the last approval's one total. */
  lemma QueueAfterSingle(t: Honest, d: Key, reporter: Key, info: ApprovalTransactionInfo)
    requires InStep(t, d) && HonestSingleReport(t, d, info)
    ensures QueueInStep(Step(t.chain, SingleApprovalReadyEvent(reporter, info)), d)
  {
    var s := t.chain;
    AfterSingle(s, d, SingleApprovalReadyEvent(reporter, info));
    if SingleApprovalVerdict(s.Drive(d), info).Counted? {
      HonestSingleTotal(t, d, info.opinions);
      forall m | m in Queue(s, d) ensures m.transactionHash != LastHash(s, d) {
        assert s.Sizes(m.transactionHash) != s.Sizes(LastHash(s, d));
      }
    }
  }

  lemma RecordsAfterSingle(t: Honest, d: Key, reporter: Key, info: ApprovalTransactionInfo)
    requires InStep(t, d) && HonestSingleReport(t, d, info)
    ensures RecordsInStep(Step(t.chain, SingleApprovalReadyEvent(reporter, info)).Drive(d))
  {
    var verdict := SingleApprovalVerdict(t.chain.Drive(d), info);
    AfterSingle(t.chain, d, SingleApprovalReadyEvent(reporter, info));
    if !verdict.NotMember? && !verdict.Stale? {
      HonestSingleTotal(t, d, info.opinions);
      RecordSingle(t.chain.Drive(d).uploads, info.opinions);
    }
  }

  lemma ReportSingleKeeps(t: Honest, d: Key, reporter: Key, info: ApprovalTransactionInfo)
    requires InStep(t, d) && HonestSingleReport(t, d, info)
    ensures InStep(AfterMove(t, d, ReportSingle(reporter, info)), d)
  {
    AfterSingle(t.chain, d, SingleApprovalReadyEvent(reporter, info));
    QueueAfterSingle(t, d, reporter, info);
    RecordsAfterSingle(t, d, reporter, info);
  }

  // ----- what is recorded stays below the controllers' counters

  /** The event records nothing, and the replicator's approved counters have not fallen. */
  lemma StaysCovered(t: Honest, u: Honest, d: Key, r: Key)
    requires Covered(t, d, r) && u.chain.Drive(d).uploads == t.chain.Drive(d).uploads
    requires r in u.team ==> r in t.team && Dominated(t.team[r].approved.uploads, u.team[r].approved.uploads)
    ensures Covered(u, d, r)
  {
    if r in u.chain.Drive(d).uploads && r in u.team {
      BelowGrows(u.chain.Drive(d).uploads[r], t.team[r].approved.uploads, u.team[r].approved.uploads);
    }
  }

  /** An author's layout is recorded as it is; the others' stay. */
  lemma ApprovalCovers(t: Honest, d: Key, reporter: Key, info: ApprovalTransactionInfo, r: Key)
    requires InStep(t, d) && info.driveKey == d && HonestOpinions(t, info.opinions)
    requires ApprovalVerdict(t.chain.Drive(d), info).Accepted?
    requires Covered(t, d, r) || r in Authors(info.opinions)
    ensures Covered(AfterMove(t, d, Report(reporter, info)), d, r)
  {
    var uploads, u := t.chain.Drive(d).uploads, AfterMove(t, d, Report(reporter, info));
    AfterApproval(t.chain, d, ApprovalReadyEvent(reporter, info));
    AfterReport(t, d, reporter, info);
    RecordKeepsOpinions(uploads, info.opinions, r);
    if r in Authors(info.opinions) {
      BelowItself(t.team[r].notApproved.uploads);
    } else if r in uploads && r in t.team {
      BelowGrows(uploads[r], t.team[r].approved.uploads, u.team[r].approved.uploads);
    }
  }

  lemma SingleCovers(t: Honest, d: Key, reporter: Key, info: ApprovalTransactionInfo, r: Key)
    requires InStep(t, d) && HonestSingleReport(t, d, info) && Covered(t, d, r)
    ensures Covered(AfterMove(t, d, ReportSingle(reporter, info)), d, r)
  {
    var verdict := SingleApprovalVerdict(t.chain.Drive(d), info);
    AfterSingle(t.chain, d, SingleApprovalReadyEvent(reporter, info));
    if !verdict.NotMember? && !verdict.Stale? {
      RecordSingle(t.chain.Drive(d).uploads, info.opinions);
      BelowItself(t.team[info.opinions[0].replicatorKey].approved.uploads);
    }
  }

  /** The counters of a joining replicator are all zero; so must be the recorded ones. */
  lemma JoinCoversIff(t: Honest, d: Key, r: Key)
    ensures Covered(AfterMove(t, d, Join(r)), d, r) <==> SafeJoin(t.chain, d, r)
  {
    var u := AfterMove(t, d, Join(r));
    assert u.chain.Drive(d).uploads == t.chain.Drive(d).uploads;
    assert forall k: Key :: At(map[], k) == 0;
  }

  lemma MoveCovers(t: Honest, d: Key, client: Key, mv: Move, r: Key)
    requires InStep(t, d) && Possible(t, d, client, mv) && Covered(t, d, r)
    requires mv.Report? ==> Passes(t.chain, ReportEvent(mv))
    requires mv == Join(r) ==> SafeJoin(t.chain, d, r)
    ensures Covered(AfterMove(t, d, mv), d, r)
  {
    if mv == Join(r) {
      JoinCoversIff(t, d, r);
    } else if mv.Report? && ApprovalVerdict(t.chain.Drive(d), mv.info).Accepted? {
      ApprovalCovers(t, d, mv.reporter, mv.info, r);
    } else if mv.ReportSingle? {
      SingleCovers(t, d, mv.reporter, mv.info, r);
    } else {
      UploadsUnchanged(t, d, client, mv);
      ApprovedGrows(t, d, client, mv, r);
      StaysCovered(t, AfterMove(t, d, mv), d, r);
    }
  }

  lemma UploadsUnchanged(t: Honest, d: Key, client: Key, mv: Move)
    requires Possible(t, d, client, mv) && !mv.ReportSingle?
    requires mv.Report? ==> !ApprovalVerdict(t.chain.Drive(d), mv.info).Accepted?
    requires mv.Report? ==> Passes(t.chain, ReportEvent(mv))
    ensures AfterMove(t, d, mv).chain.Drive(d).uploads == t.chain.Drive(d).uploads
  {
    if mv.Elsewhere? {
      AfterElsewhere(t.chain, d, mv.e);
    }
  }

  lemma ApprovedGrows(t: Honest, d: Key, client: Key, mv: Move, r: Key)
    requires InStep(t, d) && Possible(t, d, client, mv) && mv != Join(r)
    requires mv.Report? ==> !ApprovalVerdict(t.chain.Drive(d), mv.info).Accepted?
    ensures var u := AfterMove(t, d, mv);
            r in u.team ==> r in t.team && Dominated(t.team[r].approved.uploads, u.team[r].approved.uploads)
  {
  }

  /** When the front is approved, those that have calculated an opinion, and only they, keep it as approved and
      may report it alone; the others raise what they expect by the front's size. All expect the same. */
  lemma ApprovalIsHeard(t: Honest, d: Key, reporter: Key, info: ApprovalTransactionInfo, r: Key)
    requires InStep(t, d) && info.driveKey == d && ApprovalVerdict(t.chain.Drive(d), info).Accepted? && r in t.team
    ensures var u, a := AfterMove(t, d, Report(reporter, info)), t.team[r];
            && u.ready == {} && u.settled == t.ready && r in u.team
            && u.team[r].approvedExpected == Cumulative(u.chain, d)
            && u.team[r].approved == (if r in t.ready then a.notApproved else a.approved)
            && u.team[r].notApproved == u.team[r].approved
  {
    AfterApproval(t.chain, d, ApprovalReadyEvent(reporter, info));
    AfterReport(t, d, reporter, info);
    assert AccountsInStep(t.team[r], Cumulative(t.chain, d), Front(Queue(t.chain, d)), r in t.ready, r in t.settled);
  }

  /** A replicator with an opinion about the front is back at its accounts from before when the front is
      cancelled. */
  lemma CalculateThenCancel(t: Honest, d: Key, client: Key, mv: Move)
    requires InStep(t, d) && Possible(t, d, client, mv) && mv.Calculate?
    ensures Queue(t.chain, d) != []
    ensures var u := AfterMove(AfterMove(t, d, mv), d, Cancel(Queue(t.chain, d)[0].transactionHash));
            mv.r in u.team && u.team[mv.r] == t.team[mv.r] && mv.r !in u.ready
  {
    assert AccountsInStep(t.team[mv.r], Cumulative(t.chain, d), Front(Queue(t.chain, d)), false, mv.r in t.settled);
  }

  /** Cancelling anything but the front leaves every controller, and who is ready, as it was. */
  lemma OtherCancelsUnheard(t: Honest, d: Key, h: Hash)
    requires Queue(t.chain, d) == [] || Queue(t.chain, d)[0].transactionHash != h
    ensures var u := AfterMove(t, d, Cancel(h));
            u.team == t.team && u.ready == t.ready && u.settled == t.settled
            && Front(Queue(u.chain, d)) == Front(Queue(t.chain, d))
  {
    if Queue(t.chain, d) != [] {
      EraseKeepsFront(Queue(t.chain, d), h);
    }
  }

  // ----- runs

  ghost function HonestRun(t: Honest, d: Key, moves: seq<Move>): Honest {
    if moves == [] then t else AfterMove(HonestRun(t, d, moves[..|moves| - 1]), d, moves[|moves| - 1])
  }

  ghost predicate PossibleRun(t: Honest, d: Key, client: Key, moves: seq<Move>) {
    moves == [] ||
    (var earlier := moves[..|moves| - 1];
     PossibleRun(t, d, client, earlier) && Possible(HonestRun(t, d, earlier), d, client, moves[|moves| - 1]))
  }

  /** No assertion of the ledger fails on the drive's reports. */
  ghost predicate AllPass(t: Honest, d: Key, moves: seq<Move>) {
    moves == [] ||
    (var earlier, mv := moves[..|moves| - 1], moves[|moves| - 1];
     AllPass(t, d, earlier) && (IsReport(mv) ==> Passes(HonestRun(t, d, earlier).chain, ReportEvent(mv))))
  }

  /** Whoever joins has no positive counter recorded. */
  ghost predicate SafeJoins(t: Honest, d: Key, moves: seq<Move>) {
    moves == [] ||
    (var earlier, mv := moves[..|moves| - 1], moves[|moves| - 1];
     SafeJoins(t, d, earlier) && (mv.Join? ==> SafeJoin(HonestRun(t, d, earlier).chain, d, mv.r)))
  }

  lemma MoveKeeps(t: Honest, d: Key, client: Key, mv: Move)
    requires InStep(t, d) && Possible(t, d, client, mv)
    requires mv.Report? ==> Passes(t.chain, ReportEvent(mv))
    ensures InStep(AfterMove(t, d, mv), d)
  {
    match mv
    case Submit(m) => SubmitKeeps(t, d, m);
    case Cancel(h) => CancelKeeps(t, d, h);
    case Calculate(_, _, _, _) => CalculateKeeps(t, d, client, mv);
    case Report(r, info) => ReportKeeps(t, d, r, info);
    case CatchUp(_, _, _, _) => CatchUpKeeps(t, d, client, mv);
    case ReportSingle(r, info) => ReportSingleKeeps(t, d, r, info);
    case Join(r) => JoinKeeps(t, d, r);
    case Leave(r) => LeaveKeeps(t, d, r);
    case Elsewhere(e) => ElsewhereKeeps(t, d, e);
  }

  lemma {:induction false} StaysInStep(t: Honest, d: Key, client: Key, moves: seq<Move>)
    requires InStep(t, d) && PossibleRun(t, d, client, moves) && AllPass(t, d, moves)
    ensures InStep(HonestRun(t, d, moves), d)
  {
    if moves == [] {
    } else {
      var earlier := moves[..|moves| - 1];
      StaysInStep(t, d, client, earlier);
      MoveKeeps(HonestRun(t, d, earlier), d, client, moves[|moves| - 1]);
    }
  }

  /** Whoever is covered stays so until it joins again. */
  lemma {:induction false} RunCovers(t: Honest, d: Key, client: Key, moves: seq<Move>, r: Key)
    requires InStep(t, d) && PossibleRun(t, d, client, moves) && AllPass(t, d, moves)
    requires Covered(t, d, r) && Join(r) !in moves
    ensures Covered(HonestRun(t, d, moves), d, r)
  {
    if moves == [] {
    } else {
      var earlier := moves[..|moves| - 1];
      assert forall x :: x in earlier ==> x in moves;
      StaysInStep(t, d, client, earlier);
      RunCovers(t, d, client, earlier, r);
      MoveCovers(HonestRun(t, d, earlier), d, client, moves[|moves| - 1], r);
    }
  }

  /** The next report passes exactly if each opinion it records is admissible. */
  lemma {:induction false} NextReportPassesIff(t: Honest, d: Key, client: Key, mv: Move)
    requires InStep(t, d) && Possible(t, d, client, mv) && IsReport(mv)
    ensures var e := ReportEvent(mv);
            Passes(t.chain, e) <==> (Records(t.chain, e) ==> AllAdmissible(t.chain.Drive(d).uploads, mv.info.opinions))
  {
    if mv.Report? {
      HonestReportPassesIff(t, d, mv.reporter, mv.info);
    } else {
      HonestSinglePassesIff(t, d, mv.reporter, mv.info);
    }
  }

  /** Opinions of covered authors are admissible and keep the recorded keys. */
  lemma {:induction false} CoveredOpinionsPass(t: Honest, d: Key, client: Key, mv: Move)
    requires InStep(t, d) && Possible(t, d, client, mv) && IsReport(mv)
    requires Records(t.chain, ReportEvent(mv))
    requires forall o :: o in mv.info.opinions ==> Covered(t, d, o.replicatorKey)
    ensures Passes(t.chain, ReportEvent(mv)) && Disciplined(t.chain.Drive(d).uploads, mv.info.opinions)
  {
    var uploads, opinions := t.chain.Drive(d).uploads, mv.info.opinions;
    var next := if mv.Report? then NextUploads(t.team) else SettledUploads(t.team);
    if mv.Report? {
      OpinionsAreBelow(t, d, opinions);
    }
    assert BelowOpinions(uploads, opinions, next);
    HonestRecordPasses(uploads, opinions, next);
    RecordPassesIff(uploads, opinions, next);
    NextReportPassesIff(t, d, client, mv);
  }

  /** None of the ledger's assertions fails on the report, and if it records opinions they keep the
      recorded keys. */
  ghost predicate ReportPasses(s: Chain, d: Key, mv: Move)
    requires IsReport(mv)
  {
    var e := ReportEvent(mv);
    Passes(s, e) && (Records(s, e) ==> Disciplined(s.Drive(d).uploads, e.info.opinions))
  }

  lemma {:induction false} NextReportPasses(t: Honest, d: Key, client: Key, mv: Move)
    requires InStep(t, d) && AllCovered(t, d) && Possible(t, d, client, mv) && IsReport(mv)
    ensures ReportPasses(t.chain, d, mv)
  {
    if Records(t.chain, ReportEvent(mv)) {
      CoveredOpinionsPass(t, d, client, mv);
    } else {
      NextReportPassesIff(t, d, client, mv);
    }
  }

  /** While all joins are safe, everybody is covered and every report passes. */
  lemma {:induction false} SafeRunsPass(t: Honest, d: Key, client: Key, moves: seq<Move>)
    requires StartsHonest(t, d) && PossibleRun(t, d, client, moves) && SafeJoins(t, d, moves)
    ensures AllPass(t, d, moves) && InStep(HonestRun(t, d, moves), d) && AllCovered(HonestRun(t, d, moves), d)
  {
    if moves == [] {
    } else {
      var earlier, mv := moves[..|moves| - 1], moves[|moves| - 1];
      var u := HonestRun(t, d, earlier);
      SafeRunsPass(t, d, client, earlier);
      if IsReport(mv) {
        NextReportPasses(u, d, client, mv);
      }
      MoveKeeps(u, d, client, mv);
      forall r: Key ensures Covered(AfterMove(u, d, mv), d, r) {
        MoveCovers(u, d, client, mv, r);
      }
    }
  }

  lemma HonestRunInStep(t: Honest, d: Key, client: Key, moves: seq<Move>)
    requires StartsHonest(t, d) && PossibleRun(t, d, client, moves) && AllPass(t, d, moves)
    ensures InStep(HonestRun(t, d, moves), d)
  {
    assert InStep(t, d);
    StaysInStep(t, d, client, moves);
  }

  /** Exactly when the next report of an honest run passes that has passed so far, whoever joined: when no
      counter of an author that is to be recorded is below the recorded one. */
  lemma {:induction false} HonestRunPassesIff(t: Honest, d: Key, client: Key, moves: seq<Move>, mv: Move)
    requires StartsHonest(t, d) && PossibleRun(t, d, client, moves) && AllPass(t, d, moves)
    requires Possible(HonestRun(t, d, moves), d, client, mv) && IsReport(mv)
    ensures var s, e := HonestRun(t, d, moves).chain, ReportEvent(mv);
            Passes(s, e) <==> (Records(s, e) ==> AllAdmissible(s.Drive(d).uploads, mv.info.opinions))
  {
    HonestRunInStep(t, d, client, moves);
    NextReportPassesIff(HonestRun(t, d, moves), d, client, mv);
  }

  /** In every state of an honest run in which nobody joins with a positive counter recorded: whatever
      this drive's next report is, quorum or single, it passes. */
  lemma {:induction false} HonestRunsPass(t: Honest, d: Key, client: Key, moves: seq<Move>, mv: Move)
    requires StartsHonest(t, d) && PossibleRun(t, d, client, moves) && SafeJoins(t, d, moves)
    requires Possible(HonestRun(t, d, moves), d, client, mv) && IsReport(mv)
    ensures ReportPasses(HonestRun(t, d, moves).chain, d, mv)
  {
    SafeRunsPass(t, d, client, moves);
    NextReportPasses(HonestRun(t, d, moves), d, client, mv);
  }

  /** The one total recorded for the last approved modification is the sum of all sizes approved. */
  lemma {:induction false} HonestTotalIsCumulative(t: Honest, d: Key, client: Key, moves: seq<Move>)
    requires StartsHonest(t, d) && PossibleRun(t, d, client, moves) && AllPass(t, d, moves)
    ensures var s := HonestRun(t, d, moves).chain;
            s.Drive(d).lastApprovedModification.Some? ==> s.Sizes(LastHash(s, d)) == {Cumulative(s, d)}
  {
    HonestRunInStep(t, d, client, moves);
  }

  /** The controllers' own assertions hold, when they are to update, exactly if something of positive
      size was approved or is about to be. */
  lemma {:induction false} CalculationsAreDefined(t: Honest, d: Key, client: Key, moves: seq<Move>, r: Key)
    requires StartsHonest(t, d) && PossibleRun(t, d, client, moves) && AllPass(t, d, moves)
    requires var u := HonestRun(t, d, moves); r in u.team && r !in u.ready
    ensures var u := HonestRun(t, d, moves);
            var total, queue := Cumulative(u.chain, d), Queue(u.chain, d);
            && (queue != [] ==> (Updatable(u.team[r], queue[0].maxDataSize) <==> total + queue[0].maxDataSize > 0))
            && (u.chain.Drive(d).lastApprovedModification.Some? ==> (Updatable(u.team[r], 0) <==> total > 0))
  {
    HonestRunInStep(t, d, client, moves);
    var u := HonestRun(t, d, moves);
    assert AccountsInStep(u.team[r], Cumulative(u.chain, d), Front(Queue(u.chain, d)), false, r in u.settled);
  }

  /** The assertion in the approval of a controller's uploads holds whenever it is reached: an opinion about
      the front is kept under the hash that is then approved, and so is one made after the approval. */
  lemma {:induction false} ApprovalsAreDefined(t: Honest, d: Key, client: Key, moves: seq<Move>, mv: Move)
    requires StartsHonest(t, d) && PossibleRun(t, d, client, moves) && AllPass(t, d, moves)
    requires Possible(HonestRun(t, d, moves), d, client, mv)
    ensures var u := HonestRun(t, d, moves);
            && (mv.Report? && ApprovalVerdict(u.chain.Drive(d), mv.info).Accepted? ==>
                  forall r :: r in u.team && r in u.ready ==>
                    u.team[r].notApproved.modificationId == mv.info.modifyTransactionHash)
            && (mv.CatchUp? ==> mv.updated.notApproved.modificationId == LastHash(u.chain, d))
  {
    HonestRunInStep(t, d, client, moves);
    var u := HonestRun(t, d, moves);
    forall r | r in u.team && r in u.ready
      ensures Queue(u.chain, d) != [] && u.team[r].notApproved.modificationId == Queue(u.chain, d)[0].transactionHash
    {
      assert AccountsInStep(u.team[r], Cumulative(u.chain, d), Front(Queue(u.chain, d)), true, r in u.settled);
    }
  }

  /** An input on which they do not: a first modification of size zero, which the ledger accepts. */
  lemma ZeroSizeStopsCalculation(t: Honest, d: Key, client: Key, m: ModificationRequest, r: Key)
    requires StartsHonest(t, d) && Cumulative(t.chain, d) == 0 && r in t.team
    requires m.maxDataSize == 0 && t.chain.Sizes(m.transactionHash) == {}
    ensures var u := HonestRun(t, d, [Submit(m)]);
            && PossibleRun(t, d, client, [Submit(m)])
            && r in u.team && r !in u.ready && Queue(u.chain, d) == [m] && !Updatable(u.team[r], m.maxDataSize)
  {
    var moves := [Submit(m)];
    assert moves[..|moves| - 1] == [];
    assert PossibleRun(t, d, client, []) && HonestRun(t, d, []) == t;
    assert Queue(t.chain, d) + [m] == [m];
  }
}
