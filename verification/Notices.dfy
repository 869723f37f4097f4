/** What replicators are told besides the course of a drive: who is told of a new drive, that an approval
    carries the recorded root hash, who gets the answers to reports and the results of verifications. */
module Notices {
  import opened Basics
  import opened Protocol
  import opened Replica
  import opened Chain
  import opened History
  import opened Convergence
  import opened Membership
  import opened Uploads
  import opened Effects

  // ----- a new drive

  lemma {:induction false} RunningAreListed(c: Chain, events: seq<Event>)
    requires Initial(c)
    ensures Run(c, events).addrList == c.addrList && Run(c, events).mail.Keys <= set r | r in c.addrList
  {
    if events == [] {
    } else {
      RunningAreListed(c, events[..|events| - 1]);
    }
  }

  /** In every reachable state: when a drive is added, every running replicator of the environment, or of
      the given list if there is one, holds a view with exactly what was asked for, and nobody else any. */
  lemma NewDriveIsKnown(c: Chain, events: seq<Event>, d: Key, client: Key, driveSize: nat, list: seq<Key>, r: Key)
    requires Initial(c) && DefinedRun(c, events) && FreshDrives(c, events)
    requires Distinct(list) && d !in Run(c, events).drives && r in Run(c, events).mail
    ensures var t, members := Step(Run(c, events), AddDriveEvent(d, client, driveSize, list)),
                              if list == [] then c.addrList else list;
            && r in t.mail && (list == [] ==> r in members)
            && ViewOf(d, t.mail[r]) == if r in members
                                       then Some(View([], None, 0, None, members, members, members, driveSize,
                                                      client, []))
                                       else None
  {
    var s, e := Run(c, events), AddDriveEvent(d, client, driveSize, list);
    RunningAreListed(c, events);
    MembersKnow(c, events, d, r);
    AdditionRecorded(s, d, client, driveSize, list);
    ReceiveAllAppend(d, None, s.mail[r], [AddDrive(d, Step(s, e).Drive(d).driveRequest)]);
    ReceiveOne(d, None, AddDrive(d, Step(s, e).Drive(d).driveRequest));
  }

  // ----- an approval

  /** A replicator that holds the drive and is told one more approval has that one as its last. */
  lemma LastHeard(d: Key, log: seq<Message>, m: Message)
    requires ViewOf(d, log).Some? && m.ApprovalPublished? && m.Drive() == d
    ensures ViewOf(d, log + [m]).Some? && ViewOf(d, log + [m]).value.lastApproval == Some(m.approval)
  {
    ReceiveAllAppend(d, None, log, [m]);
    ReceiveOne(d, ViewOf(d, log), m);
  }

  /** The view's last approval is the report's. */
  ghost predicate KnowsReport(view: Option<View>, info: ApprovalTransactionInfo) {
    view.Some? && view.value.lastApproval.Some? && IsReported(view.value.lastApproval.value, info)
  }

  /** The report is accepted: it is about the front, and enough members opine, with counters that do not fall. */
  ghost predicate Acceptable(c: Chain, info: ApprovalTransactionInfo) {
    && AboutFront(c, info) && EnoughMembersOpine(c, info)
    && PassUpTo(c.Drive(info.driveKey).uploads, info.opinions, |info.opinions|)
  }

  lemma HeardReport(s: Chain, t: Chain, info: ApprovalTransactionInfo, m: Message, r: Key)
    requires PublishesReport(m, info) && Tells(s, t, AsSet(s.Members(info.driveKey)), m)
    requires r in s.mail && r in s.Members(info.driveKey) && ViewOf(info.driveKey, s.mail[r]).Some?
    ensures r in t.mail && KnowsReport(ViewOf(info.driveKey, t.mail[r]), info)
  {
    LastHeard(info.driveKey, s.mail[r], m);
  }

  lemma ApprovalHeard(s: Chain, reporter: Key, info: ApprovalTransactionInfo, r: Key)
    requires Acceptable(s, info) && r in s.mail && r in s.Members(info.driveKey)
    requires ViewOf(info.driveKey, s.mail[r]).Some?
    ensures var t := Step(s, ApprovalReadyEvent(reporter, info));
            && r in t.mail && KnowsReport(ViewOf(info.driveKey, t.mail[r]), info)
            && HasRoot(t, info.modifyTransactionHash, info.rootHash)
  {
    var m := AcceptedReport(s, reporter, info);
    HeardReport(s, Step(s, ApprovalReadyEvent(reporter, info)), info, m, r);
  }

  /** In every reachable state: after a report that is accepted, every running member's last approval has
      the reported root hash, which is also the recorded one, and as keys the authors in order. */
  lemma ApprovalReachesMembers(c: Chain, events: seq<Event>, reporter: Key, info: ApprovalTransactionInfo, r: Key)
    requires Initial(c) && DefinedRun(c, events) && FreshDrives(c, events)
    requires var s := Run(c, events); Acceptable(s, info) && r in s.mail && r in s.Members(info.driveKey)
    ensures var t := Step(Run(c, events), ApprovalReadyEvent(reporter, info));
            && r in t.mail && KnowsReport(ViewOf(info.driveKey, t.mail[r]), info)
            && HasRoot(t, info.modifyTransactionHash, info.rootHash)
  {
    MembersKnow(c, events, info.driveKey, r);
    ApprovalHeard(Run(c, events), reporter, info, r);
  }

  /** The root hash recorded for the hash is this one. */
  ghost predicate HasRoot(c: Chain, h: Hash, root: Hash) {
    h in c.rootHashes && c.rootHashes[h] == root
  }

  ghost predicate CarriesRoot(c: Chain, m: Message) {
    m.ApprovalPublished? ==> HasRoot(c, m.approval.modifyTransactionHash, m.approval.rootHash)
  }

  ghost predicate LastHasRoot(c: Chain, di: DriveInfo) {
    var last := di.lastApprovedModification;
    last.Some? ==> HasRoot(c, last.value.modifyTransactionHash, last.value.rootHash)
  }

  ghost predicate RootsCarried(c: Chain) {
    && (forall d: Key :: LastHasRoot(c, c.Drive(d)))
    && (forall r, m :: r in c.mail && m in c.mail[r] ==> CarriesRoot(c, m))
  }

  lemma ReplayCarriesRoots(c: Chain, d: Key, request: AddDriveRequest, di: DriveInfo, withVerification: bool)
    requires LastHasRoot(c, di)
    ensures forall m :: m in Replay(d, request, di, withVerification) ==> CarriesRoot(c, m)
  {
    forall m | m in Modifies(d, di.pendingModifications) ensures CarriesRoot(c, m) {}
  }

  lemma {:induction false} StartCarriesRoots(c: Chain, keys: set<Key>, r: Key)
    requires RootsCarried(c) && keys <= c.drives.Keys
    ensures forall m :: m in ReplayDrives(c.drives, keys, r) ==> CarriesRoot(c, m)
    decreases |keys|
  {
    if keys == {} {
    } else {
      var d := Least(keys);
      StartCarriesRoots(c, keys - {d}, r);
      assert LastHasRoot(c, c.Drive(d));
      ReplayCarriesRoots(c, d, c.drives[d].driveRequest, c.drives[d], true);
    }
  }

  /** What an event tells carries the roots recorded after it. */
  lemma ToldCarriesRoots(c: Chain, e: Event, r: Key)
    requires RootsCarried(c) && Addressed(e)
    ensures forall m :: m in Outgoing(c, e, r) ==> CarriesRoot(Step(c, e), m)
  {
    if e.AddReplicatorEvent? {
      var di := Joined(c.Drive(e.d), e.replicator);
      var q := di.driveRequest;
      assert LastHasRoot(c, c.Drive(e.d));
      ReplayCarriesRoots(c, e.d, q.(modifyDonatorShard := Without(q.modifyDonatorShard, r),
                                    modifyRecipientShard := Without(q.modifyRecipientShard, r)), di, false);
      assert forall m :: CarriesRoot(c, m) ==> CarriesRoot(Step(c, e), m);
    }
  }

  lemma KeepsRoots(c: Chain, e: Event, h: Hash, root: Hash)
    requires HasRoot(c, h, root) && (Approves(c, e) ==> e.info.modifyTransactionHash !in c.rootHashes)
    ensures HasRoot(Step(c, e), h, root)
  {
  }

  lemma {:induction false} RootsCarriedStep(c: Chain, e: Event)
    requires RootsCarried(c) && (Approves(c, e) ==> e.info.modifyTransactionHash !in c.rootHashes)
    ensures RootsCarried(Step(c, e))
  {
    var t := Step(c, e);
    forall r, m | r in t.mail && m in t.mail[r] ensures CarriesRoot(t, m) {
      if r !in c.mail {
        StartCarriesRoots(c, c.drives.Keys, r);
      } else if Addressed(e) {
        ToldCarriesRoots(c, e, r);
      }
      if CarriesRoot(c, m) && m.ApprovalPublished? {
        KeepsRoots(c, e, m.approval.modifyTransactionHash, m.approval.rootHash);
      }
    }
    forall d: Key ensures LastHasRoot(t, t.Drive(d)) {
      var last := t.Drive(d).lastApprovedModification;
      LastStep(c, e, d);
      if last.Some? && !(Approves(c, e) && e.info.driveKey == d) {
        assert LastHasRoot(c, c.Drive(d));
        KeepsRoots(c, e, last.value.modifyTransactionHash, last.value.rootHash);
      }
    }
  }

  /** What an event does to the last approval of drive `d`. */
  lemma LastStep(c: Chain, e: Event, d: Key)
    ensures var last' := Step(c, e).Drive(d).lastApprovedModification;
            if e.AddDriveEvent? && e.d == d then last' == None
            else if Approves(c, e) && e.info.driveKey == d then last' == Some(e.info)
            else last' == c.Drive(d).lastApprovedModification
  {
  }

  /** With fresh hashes, whatever approval any running replicator was ever told of, in a broadcast or in a
      replay, carries the root hash that the ledger holds for it; so does every drive's last approval. */
  lemma {:induction false} ToldRootsAreRecorded(c: Chain, events: seq<Event>)
    requires Initial(c) && FreshModifications(events)
    ensures RootsCarried(Run(c, events))
  {
    if events == [] {
    } else {
      var earlier, e := events[..|events| - 1], events[|events| - 1];
      FreshPrefix(events);
      ToldRootsAreRecorded(c, earlier);
      if Approves(Run(c, earlier), e) {
        ApprovedIsNew(c, earlier, e);
      }
      RootsCarriedStep(Run(c, earlier), e);
    }
  }

  // ----- answers and results

  /** Answers to the replicator's own reports, and results of verifications. */
  predicate IsNotice(m: Message) {
    m.ApprovalFailed? || m.SingleApprovalPublished? || m.VerifyApprovalPublished?
  }

  function NoticesIn(log: seq<Message>): seq<Message> {
    if log == [] then [] else (if IsNotice(log[0]) then [log[0]] else []) + NoticesIn(log[1..])
  }

  lemma {:induction false} NoticesAppend(a: seq<Message>, b: seq<Message>)
    ensures NoticesIn(a + b) == NoticesIn(a) + NoticesIn(b)
  {
    if a == [] {
      assert a + b == b;
    } else {
      assert (a + b)[1..] == a[1..] + b;
      NoticesAppend(a[1..], b);
      Associative(if IsNotice(a[0]) then [a[0]] else [], NoticesIn(a[1..]), NoticesIn(b));
    }
  }

  lemma {:induction false} NoNotices(log: seq<Message>)
    requires forall m :: m in log ==> !IsNotice(m)
    ensures NoticesIn(log) == []
  {
    if log == [] {
    } else {
      assert log[0] in log;
      NoNotices(log[1..]);
    }
  }

  /** The single opinion is a member's, about the last approval, with counters that do not fall and a total
      that is the modification's only one. */
  ghost predicate SingleCounts(c: Chain, info: ApprovalTransactionInfo) {
    |info.opinions| == 1 &&
    var o := info.opinions[0];
    && MemberOpines(c, info) && AboutLast(c, info)
    && NoneFalls(LayoutOf(c.Drive(info.driveKey).uploads, o.replicatorKey), o.uploadLayout)
    && c.Sizes(info.modifyTransactionHash) <= {Total(o.uploadLayout)}
  }

  /** The notice the event makes due to a running replicator: that its own report of the front was not
      opined by enough members, that its single opinion counts, or anyone's first awaited result. */
  ghost function Due(c: Chain, e: Event, r: Key): seq<Message> {
    match e
    case ApprovalReadyEvent(reporter, info) =>
      if reporter == r && AboutFront(c, info) && !EnoughMembersOpine(c, info)
      then [ApprovalFailed(info.driveKey, info.modifyTransactionHash)] else []
    case SingleApprovalReadyEvent(reporter, info) =>
      if reporter == r && SingleCounts(c, info)
      then [SingleApprovalPublished(info.driveKey, info.modifyTransactionHash)] else []
    case VerificationReadyEvent(info) =>
      if Awaited(c, info) && info.tx !in c.verified then [VerifyApprovalPublished(info)] else []
    case _ => []
  }

  /** The notices due to `r` since it was started last. */
  ghost function DueSinceStart(c: Chain, events: seq<Event>, r: Key): seq<Message> {
    if events == [] then []
    else
      var earlier, e := events[..|events| - 1], events[|events| - 1];
      var s := Run(c, earlier);
      if r !in s.mail || e == StopEvent(r) then [] else DueSinceStart(c, earlier, r) + Due(s, e, r)
  }

  lemma {:induction false} StartHasNoNotices(drives: map<Key, DriveInfo>, keys: set<Key>, r: Key)
    requires keys <= drives.Keys
    ensures forall m :: m in ReplayDrives(drives, keys, r) ==> !IsNotice(m)
    decreases |keys|
  {
    if keys == {} {
    } else {
      var d := Least(keys);
      StartHasNoNotices(drives, keys - {d}, r);
      ReplayHasNoNotices(d, drives[d].driveRequest, drives[d], true);
    }
  }

  lemma ReplayHasNoNotices(d: Key, request: AddDriveRequest, di: DriveInfo, withVerification: bool)
    ensures forall m :: m in Replay(d, request, di, withVerification) ==> !IsNotice(m)
  {
    forall m | m in Modifies(d, di.pendingModifications) ensures !IsNotice(m) {}
  }

  lemma OpinedReportNoticed(c: Chain, e: Event, r: Key)
    requires e.ApprovalReadyEvent? && r in c.mail && AboutFront(c, e.info) && EnoughMembersOpine(c, e.info)
    ensures NoticesIn(Step(c, e).mail[r]) == NoticesIn(c.mail[r])
  {
    var n := PassUpToExists(c.Drive(e.info.driveKey).uploads, e.info.opinions, 0);
    if n == |e.info.opinions| {
      var m := AcceptedReport(c, e.reporter, e.info);
      NoticesAppend(c.mail[r], [m]);
      NoNotices([m]);
    } else {
      FailedReport(c, e.reporter, e.info, n);
    }
  }

  lemma ReportNoticed(c: Chain, e: Event, r: Key)
    requires e.ApprovalReadyEvent? && r in c.mail
    ensures NoticesIn(Step(c, e).mail[r]) == NoticesIn(c.mail[r]) + Due(c, e, r)
  {
    var log, info := c.mail[r], e.info;
    if !AboutFront(c, info) {
      PrematureReport(c, e.reporter, info);
    } else if !EnoughMembersOpine(c, info) {
      RejectedReport(c, e.reporter, info);
      NoticesAppend(log, [ApprovalFailed(info.driveKey, info.modifyTransactionHash)]);
    } else {
      OpinedReportNoticed(c, e, r);
    }
  }

  lemma SingleNoticed(c: Chain, e: Event, r: Key)
    requires e.SingleApprovalReadyEvent? && r in c.mail && e.info.opinions != []
    ensures NoticesIn(Step(c, e).mail[r]) == NoticesIn(c.mail[r]) + Due(c, e, r)
  {
    var log, info := c.mail[r], e.info;
    if !MemberOpines(c, info) || !AboutLast(c, info) {
      IgnoredSingle(c, e.reporter, info);
    } else {
      var n := PassUpToExists(c.Drive(info.driveKey).uploads, info.opinions, 0);
      if n == 1 && |info.opinions| == 1 {
        assert PassesAfter(c.Drive(info.driveKey).uploads, info.opinions, 0);
        CountedSingle(c, e.reporter, info);
        NoticesAppend(log, [SingleApprovalPublished(info.driveKey, info.modifyTransactionHash)]);
      } else {
        FailedSingle(c, e.reporter, info, n);
      }
    }
  }

  lemma ResultNoticed(c: Chain, e: Event, r: Key)
    requires e.VerificationReadyEvent? && r in c.mail
    ensures NoticesIn(Step(c, e).mail[r]) == NoticesIn(c.mail[r]) + Due(c, e, r)
  {
    ResultReported(c, e.verifyInfo);
    NoticesAppend(c.mail[r], [VerifyApprovalPublished(e.verifyInfo)]);
  }

  lemma OtherEventsSayNoNotice(c: Chain, e: Event, r: Key)
    requires !e.ApprovalReadyEvent? && !e.SingleApprovalReadyEvent? && !e.VerificationReadyEvent? && Addressed(e)
    ensures forall m :: m in Outgoing(c, e, r) ==> !IsNotice(m)
  {
    if e.AddReplicatorEvent? {
      var di := Joined(c.Drive(e.d), e.replicator);
      var q := di.driveRequest;
      ReplayHasNoNotices(e.d, q.(modifyDonatorShard := Without(q.modifyDonatorShard, r),
                                 modifyRecipientShard := Without(q.modifyRecipientShard, r)), di, false);
    }
  }

  lemma {:induction false} NoticedStep(c: Chain, e: Event, r: Key)
    requires r in Step(c, e).mail && (e.SingleApprovalReadyEvent? ==> e.info.opinions != [])
    ensures NoticesIn(Step(c, e).mail[r]) == if r in c.mail then NoticesIn(c.mail[r]) + Due(c, e, r) else []
  {
    if r !in c.mail {
      StartHasNoNotices(c.drives, c.drives.Keys, r);
      NoNotices(Step(c, e).mail[r]);
    } else if e.ApprovalReadyEvent? {
      ReportNoticed(c, e, r);
    } else if e.SingleApprovalReadyEvent? {
      SingleNoticed(c, e, r);
    } else if e.VerificationReadyEvent? {
      ResultNoticed(c, e, r);
    } else if Addressed(e) {
      OtherEventsSayNoNotice(c, e, r);
      NoNotices(Outgoing(c, e, r));
      NoticesAppend(c.mail[r], Outgoing(c, e, r));
    }
  }

  /** At every moment the notices a running replicator has got since its start are, in order, exactly those
      due to it: the rejections of its own reports, its own counted single opinions and every first result. */
  lemma {:induction false} NoticesAreDue(c: Chain, events: seq<Event>, r: Key)
    requires Initial(c) && DefinedRun(c, events) && r in Run(c, events).mail
    ensures NoticesIn(Run(c, events).mail[r]) == DueSinceStart(c, events, r)
  {
    if events == [] {
    } else {
      var earlier, e := events[..|events| - 1], events[|events| - 1];
      PrefixRuns(c, events);
      if r in Run(c, earlier).mail {
        NoticesAreDue(c, earlier, r);
      }
      NoticedStep(Run(c, earlier), e, r);
    }
  }

  /** Each result among the notices is the recorded one, and there once. */
  ghost predicate ResultsRecorded(notices: seq<Message>, verified: map<Hash, VerifyApprovalTxInfo>) {
    && (forall m :: m in notices && m.VerifyApprovalPublished? ==>
          m.verifyInfo.tx in verified && verified[m.verifyInfo.tx] == m.verifyInfo)
    && (forall i, j :: 0 <= i < j < |notices| && notices[i].VerifyApprovalPublished? ==> notices[i] != notices[j])
  }

  lemma ResultsRecordedStep(c: Chain, e: Event, r: Key, notices: seq<Message>)
    requires ResultsRecorded(notices, c.verified)
    ensures ResultsRecorded(notices + Due(c, e, r), Step(c, e).verified)
  {
    if e.VerificationReadyEvent? {
      ResultReported(c, e.verifyInfo);
    }
  }

  /** Whatever result a replicator was told of is the one recorded for its transaction, and none is told twice. */
  lemma {:induction false} ToldResultsAreRecorded(c: Chain, events: seq<Event>, r: Key)
    requires Initial(c) && DefinedRun(c, events) && r in Run(c, events).mail
    ensures ResultsRecorded(NoticesIn(Run(c, events).mail[r]), Run(c, events).verified)
  {
    NoticesAreDue(c, events, r);
    if events == [] {
    } else {
      var earlier, e := events[..|events| - 1], events[|events| - 1];
      PrefixRuns(c, events);
      if r in Run(c, earlier).mail && e != StopEvent(r) {
        ToldResultsAreRecorded(c, earlier, r);
        NoticesAreDue(c, earlier, r);
        ResultsRecordedStep(Run(c, earlier), e, r, NoticesIn(Run(c, earlier).mail[r]));
      }
    }
  }

  // ----- the order of a replay

  /** The drives a log tells a replicator to hold, in order. */
  function DrivesIn(log: seq<Message>): seq<Key> {
    if log == [] then [] else (if log[0].AddDrive? then [log[0].driveKey] else []) + DrivesIn(log[1..])
  }

  lemma {:induction false} DrivesAppend(a: seq<Message>, b: seq<Message>)
    ensures DrivesIn(a + b) == DrivesIn(a) + DrivesIn(b)
  {
    if a == [] {
      assert a + b == b;
    } else {
      assert (a + b)[1..] == a[1..] + b;
      DrivesAppend(a[1..], b);
      Associative(if a[0].AddDrive? then [a[0].driveKey] else [], DrivesIn(a[1..]), DrivesIn(b));
    }
  }

  lemma {:induction false} NoDrives(log: seq<Message>)
    requires forall m :: m in log ==> !m.AddDrive?
    ensures DrivesIn(log) == []
  {
    if log == [] {
    } else {
      assert log[0] in log;
      NoDrives(log[1..]);
    }
  }

  lemma ReplayAddsOne(d: Key, request: AddDriveRequest, di: DriveInfo, withVerification: bool)
    ensures DrivesIn(Replay(d, request, di, withVerification)) == [d]
  {
    var rest := ReplayApproval(di) + ReplayVerification(d, di, withVerification) + Modifies(d, di.pendingModifications);
    forall m | m in Modifies(d, di.pendingModifications) ensures !m.AddDrive? {}
    NoDrives(rest);
    assert Replay(d, request, di, withVerification) == [AddDrive(d, request)] + rest;
    DrivesAppend([AddDrive(d, request)], rest);
    assert DrivesIn([AddDrive(d, request)]) == [d];
  }

  ghost predicate Ascending(keys: seq<Key>) {
    forall i, j :: 0 <= i < j < |keys| ==> keys[i] < keys[j]
  }

  lemma AscendingFrom(d: Key, rest: seq<Key>)
    requires Ascending(rest) && forall k :: k in rest ==> d < k
    ensures Ascending([d] + rest)
  {
    forall j | 0 <= j < |rest| ensures d < rest[j] {
      assert rest[j] in rest;
    }
  }

  lemma ReplayTellsFirst(drives: map<Key, DriveInfo>, keys: set<Key>, r: Key)
    requires keys != {} && keys <= drives.Keys
    ensures var d := Least(keys);
            DrivesIn(ReplayDrives(drives, keys, r)) ==
            (if r in drives[d].driveRequest.fullReplicatorList then [d] else [])
            + DrivesIn(ReplayDrives(drives, keys - {d}, r))
  {
    var d := Least(keys);
    var member := r in drives[d].driveRequest.fullReplicatorList;
    var first := if member then Replay(d, drives[d].driveRequest, drives[d], true) else [];
    DrivesAppend(first, ReplayDrives(drives, keys - {d}, r));
    if member {
      ReplayAddsOne(d, drives[d].driveRequest, drives[d], true);
    }
  }

  /** A starting replicator is told of exactly the drives it is a member of, once each, in ascending order. */
  lemma {:induction false} StartTellsInOrder(drives: map<Key, DriveInfo>, keys: set<Key>, r: Key)
    requires keys <= drives.Keys
    ensures var told := DrivesIn(ReplayDrives(drives, keys, r));
            (forall d :: d in told <==> d in keys && r in drives[d].driveRequest.fullReplicatorList) && Ascending(told)
    decreases |keys|
  {
    if keys == {} {
    } else {
      var d := Least(keys);
      var rest := DrivesIn(ReplayDrives(drives, keys - {d}, r));
      StartTellsInOrder(drives, keys - {d}, r);
      ReplayTellsFirst(drives, keys, r);
      forall k | k in rest ensures d < k {
        assert k in keys - {d};
      }
      if r in drives[d].driveRequest.fullReplicatorList {
        AscendingFrom(d, rest);
      }
    }
  }
}
