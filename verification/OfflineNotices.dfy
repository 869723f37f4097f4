/** What the environments that keep one replicator behind record and answer: whose single opinions are
    answered, by whom the root hashes told were reported, and one total for each modification. */
module OfflineNotices {
  import opened Basics
  import opened Protocol
  import opened Chain
  import opened History
  import opened Effects
  import opened Notices
  import opened Offline
  import opened OfflineRuns

  // ----- reports, in the fields they write

  /** The message is at the end of the log of every replicator but the last, and of the queue. */
  ghost predicate Posts(s: Deferring, t: Deferring, m: Message) {
    && s.chain.addrList != []
    && var last := s.chain.addrList[|s.chain.addrList| - 1];
       && t.chain.mail.Keys == s.chain.mail.Keys && t.deferred == s.deferred + [m]
       && forall r :: r in s.chain.mail ==>
            t.chain.mail[r] == if r == last then s.chain.mail[r] else s.chain.mail[r] + [m]
  }

  ghost predicate PostsNothing(s: Deferring, t: Deferring) {
    t.chain.mail == s.chain.mail && t.deferred == s.deferred
  }

  /** Every total known of the modification, and every opinion's, is this one, and there is one. */
  ghost predicate TotalsAre(c: Chain, info: ApprovalTransactionInfo, x: nat) {
    && (forall y :: y in c.Sizes(info.modifyTransactionHash) ==> y == x)
    && (forall o :: o in info.opinions ==> Total(o.uploadLayout) == x)
    && (c.Sizes(info.modifyTransactionHash) != {} || info.opinions != [])
  }

  ghost predicate OneTotal(c: Chain, info: ApprovalTransactionInfo) {
    exists x: nat :: TotalsAre(c, info, x)
  }

  lemma OneTotalAgrees(c: Chain, info: ApprovalTransactionInfo)
    ensures OneTotal(c, info) <==> SizesAgree(c, info)
  {
    var all := c.Sizes(info.modifyTransactionHash) + Totals(info.opinions);
    if x: nat :| TotalsAre(c, info, x) {
      if info.opinions != [] {
        assert info.opinions[0] in info.opinions;
        assert Total(info.opinions[0].uploadLayout) in all;
      }
      assert all == {x};
    } else if x :| all == {x} {
      forall o | o in info.opinions ensures Total(o.uploadLayout) == x {
        assert Total(o.uploadLayout) in all;
      }
      forall y | y in c.Sizes(info.modifyTransactionHash) ensures y == x {
        assert y in all;
      }
      assert x in all;
      assert TotalsAre(c, info, x);
    }
  }

  /** The report is about the front of its drive's queue, and not about the filtered modification. */
  predicate Heeded(s: Deferring, cancelled: Option<Hash>, info: ApprovalTransactionInfo) {
    AboutFront(s.chain, info) && cancelled != Some(info.modifyTransactionHash)
  }

  /** A report that is not heeded changes nothing. Of one that is, the totals are recorded, however few opine
      and whoever they are; and if they are one the front is popped, the report becomes the last approval with
      its root hash, and everybody is or will be told. The cumulative size stays. If not, an assertion fails. */
  lemma ReportPosted(s: Deferring, cancelled: Option<Hash>, reporter: Key,
                     info: ApprovalTransactionInfo) returns (m: Message)
    requires OfflineDefined(s, cancelled, Handle(ApprovalReadyEvent(reporter, info)))
    ensures PublishesReport(m, info)
    ensures var e := ApprovalReadyEvent(reporter, info);
            var t, d := OfflineStep(s, cancelled, Handle(e)), info.driveKey;
            if !Heeded(s, cancelled, info) then t == s && OfflinePasses(s, cancelled, e)
            else TotalsAdded(s.chain, t.chain, info)
                 && (OfflinePasses(s, cancelled, e) <==> OneTotal(s.chain, info))
                 && if OneTotal(s.chain, info)
                    then Posts(s, t, m) && SameOtherDrives(s.chain, t.chain, d)
                         && t.chain.rootHashes == s.chain.rootHashes[info.modifyTransactionHash := info.rootHash]
                         && t.chain.Drive(d) == s.chain.Drive(d).(lastApprovedModification := Some(info),
                              pendingModifications := s.chain.Drive(d).pendingModifications[1..])
                    else PostsNothing(s, t) && SameDrives(s.chain, t.chain) && t.chain.rootHashes == s.chain.rootHashes
  {
    m := ApprovalPublished(Publish(info));
    OneTotalAgrees(s.chain, info);
  }

  /** A request of the client changes the queue of its drive, and nothing is listed as completed; everybody,
      member or not, is or will be told. */
  lemma RequestPosted(s: Deferring, cancelled: Option<Hash>, e: Event)
    requires (e.ModifyEvent? || e.CancelEvent?) && OfflineDefined(s, cancelled, Handle(e))
    ensures var t := OfflineStep(s, cancelled, Handle(e));
            var queue, queue' := s.chain.Drive(e.d).pendingModifications, t.chain.Drive(e.d).pendingModifications;
            && SameOtherDrives(s.chain, t.chain, e.d) && t.chain.rootHashes == s.chain.rootHashes
            && t.chain.sizes == s.chain.sizes && t.chain.addrList == s.chain.addrList
            && t.chain.Drive(e.d) == s.chain.Drive(e.d).(pendingModifications := queue')
            && (if e.ModifyEvent? then queue' == queue + [e.modification] && Posts(s, t, Modify(e.d, e.modification))
                else (forall m :: m in queue' <==> m in queue && m.transactionHash != e.hash)
                     && Posts(s, t, CancelModify(e.d, e.hash)))
  {
  }

  /** Anyone's single opinion, member or not, is about the last approval and has the one total. */
  ghost predicate AnswerDue(c: Chain, info: ApprovalTransactionInfo) {
    |info.opinions| == 1 && AboutLast(c, info) && OneTotal(c, info)
  }

  /** The message goes to the replicator alone: at once, or, if it is the last one, through the queue. */
  ghost predicate Answers(s: Deferring, t: Deferring, r: Key, m: Message) {
    && s.chain.addrList != []
    && if r == s.chain.addrList[|s.chain.addrList| - 1]
       then t.chain.mail == s.chain.mail && t.deferred == s.deferred + [m]
       else Tells(s.chain, t.chain, {r}, m) && t.deferred == s.deferred
  }

  lemma SingleOutcome(s: Deferring, cancelled: Option<Hash>, e: Event)
    requires e.SingleApprovalReadyEvent? && OfflineDefined(s, cancelled, Handle(e))
    ensures OfflineStep(s, cancelled, Handle(e)) ==
            if !Countable(s, e.info) then s
            else if !SizesAgree(s.chain, e.info) then Deferring(WithSizes(s.chain, e.info), s.deferred)
            else PostTo(WithSizes(s.chain, e.info), s.deferred, e.reporter,
                        SingleApprovalPublished(e.info.driveKey, e.info.modifyTransactionHash))
  {
  }

  /** A single opinion leaves every drive and every root hash as it is. If it is about the last approval its
      total is recorded, and if that is the only one its reporter, and nobody else, is answered. */
  lemma SinglePosted(s: Deferring, cancelled: Option<Hash>, e: Event)
    requires e.SingleApprovalReadyEvent? && OfflineDefined(s, cancelled, Handle(e))
    ensures var t, info := OfflineStep(s, cancelled, Handle(e)), e.info;
            && t.chain.drives == s.chain.drives && t.chain.rootHashes == s.chain.rootHashes
            && (if AboutLast(s.chain, info) && |info.opinions| == 1 then TotalsAdded(s.chain, t.chain, info)
                else t.chain.sizes == s.chain.sizes)
            && (if AnswerDue(s.chain, info)
                then Answers(s, t, e.reporter, SingleApprovalPublished(info.driveKey, info.modifyTransactionHash))
                else PostsNothing(s, t))
  {
    SingleOutcome(s, cancelled, e);
    OneTotalAgrees(s.chain, e.info);
  }

  /** An assertion fails exactly if it is about the last approval and is not answered. */
  lemma SinglePasses(s: Deferring, cancelled: Option<Hash>, e: Event)
    requires e.SingleApprovalReadyEvent? && OfflineDefined(s, cancelled, Handle(e))
    ensures OfflinePasses(s, cancelled, e) <==> (AboutLast(s.chain, e.info) ==> AnswerDue(s.chain, e.info))
  {
    OneTotalAgrees(s.chain, e.info);
  }

  // ----- answers, over whole runs

  predicate IsAnswer(m: Message) {
    m.SingleApprovalPublished? || m.ApprovalFailed?
  }

  function AnswersIn(log: seq<Message>): seq<Message> {
    if log == [] then [] else (if IsAnswer(log[0]) then [log[0]] else []) + AnswersIn(log[1..])
  }

  lemma {:induction false} AnswersAppend(a: seq<Message>, b: seq<Message>)
    ensures AnswersIn(a + b) == AnswersIn(a) + AnswersIn(b)
  {
    if a == [] {
      assert a + b == b;
    } else {
      assert (a + b)[1..] == a[1..] + b;
      AnswersAppend(a[1..], b);
      Associative(if IsAnswer(a[0]) then [a[0]] else [], AnswersIn(a[1..]), AnswersIn(b));
    }
  }

  lemma AnswersOne(log: seq<Message>, m: Message)
    ensures AnswersIn(log + [m]) == if IsAnswer(m) then AnswersIn(log) + [m] else AnswersIn(log)
  {
    AnswersAppend(log, [m]);
  }

  /** The answer the action earns the replicator: its own single opinion counts. */
  ghost function Earned(s: Deferring, a: Action, r: Key): seq<Message> {
    match a
    case Handle(SingleApprovalReadyEvent(reporter, info)) =>
      if reporter == r && AnswerDue(s.chain, info)
      then [SingleApprovalPublished(info.driveKey, info.modifyTransactionHash)] else []
    case _ => []
  }

  ghost function EarnedBy(s: Deferring, cancelled: Option<Hash>, actions: seq<Action>, r: Key): seq<Message> {
    if actions == [] then []
    else
      var earlier, t := actions[..|actions| - 1], OfflineRun(s, cancelled, actions[..|actions| - 1]);
      EarnedBy(s, cancelled, earlier, r) + (if t.Some? then Earned(t.value, actions[|actions| - 1], r) else [])
  }

  /** The answers an online replicator has; for the last one, delivered and then queued. */
  ghost function AnswersOf(s: Deferring, r: Key): seq<Message>
    requires r in s.chain.mail && s.chain.addrList != []
  {
    AnswersIn(s.chain.mail[r]) + (if r == s.chain.addrList[|s.chain.addrList| - 1] then AnswersIn(s.deferred) else [])
  }

  lemma AnswersPosted(s: Deferring, t: Deferring, m: Message, r: Key)
    requires Posts(s, t, m) && !IsAnswer(m) && r in s.chain.mail && t.chain.addrList == s.chain.addrList
    ensures AnswersOf(t, r) == AnswersOf(s, r)
  {
    AnswersOne(s.chain.mail[r], m);
    AnswersOne(s.deferred, m);
  }

  lemma AnswersUnposted(s: Deferring, t: Deferring, r: Key)
    requires PostsNothing(s, t) && r in s.chain.mail && s.chain.addrList != [] && t.chain.addrList == s.chain.addrList
    ensures r in t.chain.mail && AnswersOf(t, r) == AnswersOf(s, r)
  {
  }

  lemma AnswersDelivered(s: Deferring, cancelled: Option<Hash>, r: Key)
    requires OfflineDefined(s, cancelled, DeliverNext) && r in s.chain.mail
    ensures AnswersOf(OfflineStep(s, cancelled, DeliverNext), r) == AnswersOf(s, r)
  {
    if s.deferred != [] && r == Last(s.chain) {
      var first, rest := [s.deferred[0]], s.deferred[1..];
      DeliveredNext(s, cancelled);
      assert s.deferred == first + rest;
      AnswersAppend(first, rest);
      AnswersAppend(s.chain.mail[r], first);
      Associative(AnswersIn(s.chain.mail[r]), AnswersIn(first), AnswersIn(rest));
    }
  }

  lemma AnswersAnswered(s: Deferring, t: Deferring, reporter: Key, m: Message, r: Key)
    requires Answers(s, t, reporter, m) && IsAnswer(m) && r in s.chain.mail && t.chain.addrList == s.chain.addrList
    ensures r in t.chain.mail && AnswersOf(t, r) == AnswersOf(s, r) + (if r == reporter then [m] else [])
  {
    AnswersOne(s.chain.mail[r], m);
    AnswersOne(s.deferred, m);
    Associative(AnswersIn(s.chain.mail[r]), AnswersIn(s.deferred), [m]);
  }

  lemma AnswersToSingle(s: Deferring, cancelled: Option<Hash>, e: Event, r: Key)
    requires e.SingleApprovalReadyEvent? && OfflineDefined(s, cancelled, Handle(e)) && r in s.chain.mail
    requires OfflineStep(s, cancelled, Handle(e)).chain.addrList == s.chain.addrList
    ensures var t := OfflineStep(s, cancelled, Handle(e));
            r in t.chain.mail && AnswersOf(t, r) == AnswersOf(s, r) + Earned(s, Handle(e), r)
  {
    var t, m := OfflineStep(s, cancelled, Handle(e)), SingleApprovalPublished(e.info.driveKey,
                                                                              e.info.modifyTransactionHash);
    SinglePosted(s, cancelled, e);
    if AnswerDue(s.chain, e.info) {
      AnswersAnswered(s, t, e.reporter, m, r);
    }
  }

  lemma {:induction false} NoAnswers(log: seq<Message>)
    requires forall m :: m in log ==> !IsAnswer(m)
    ensures AnswersIn(log) == []
  {
    if log == [] {
    } else {
      assert log[0] in log;
      NoAnswers(log[1..]);
    }
  }

  lemma InheritedTellsNoAnswer(c: Chain, e: Event, r: Key)
    requires e.AddDriveEvent? || VerificationEvent(e)
    ensures AnswersIn(Outgoing(c, e, r)) == []
  {
    forall m | m in Outgoing(c, e, r) ensures !IsAnswer(m) {}
    NoAnswers(Outgoing(c, e, r));
  }

  lemma AnswersSame(s: Deferring, t: Deferring, r: Key, told: seq<Message>)
    requires r in s.chain.mail && r in t.chain.mail && s.chain.addrList != [] && t.chain.addrList == s.chain.addrList
    requires t.chain.mail[r] == s.chain.mail[r] + told && t.deferred == s.deferred && AnswersIn(told) == []
    ensures AnswersOf(t, r) == AnswersOf(s, r)
  {
    AnswersAppend(s.chain.mail[r], told);
  }

  lemma InheritedSaysNoAnswer(s: Deferring, cancelled: Option<Hash>, e: Event, r: Key)
    requires OfflineDefined(s, cancelled, Handle(e)) && (e.AddDriveEvent? || VerificationEvent(e)) && r in s.chain.mail
    ensures var t := OfflineStep(s, cancelled, Handle(e));
            r in t.chain.mail && t.chain.addrList != [] && AnswersOf(t, r) == AnswersOf(s, r)
  {
    InheritedTellsNoAnswer(s.chain, e, r);
    if e.AddDriveEvent? {
      AddedLogs(s, cancelled, e, r);
    } else {
      VerificationLogs(s, cancelled, e, AllKinds, 0, r);
    }
    AnswersSame(s, OfflineStep(s, cancelled, Handle(e)), r, Outgoing(s.chain, e, r));
  }

  lemma AnswersToReport(s: Deferring, cancelled: Option<Hash>, e: Event, r: Key)
    requires e.ApprovalReadyEvent? && OfflineDefined(s, cancelled, Handle(e)) && r in s.chain.mail
    requires OfflineStep(s, cancelled, Handle(e)).chain.addrList == s.chain.addrList
    ensures var t := OfflineStep(s, cancelled, Handle(e)); r in t.chain.mail && AnswersOf(t, r) == AnswersOf(s, r)
  {
    var m := ReportPosted(s, cancelled, e.reporter, e.info);
    if Heeded(s, cancelled, e.info) && OneTotal(s.chain, e.info) {
      AnswersPosted(s, OfflineStep(s, cancelled, Handle(e)), m, r);
    } else {
      AnswersUnposted(s, OfflineStep(s, cancelled, Handle(e)), r);
    }
  }

  lemma AnswersToClient(s: Deferring, cancelled: Option<Hash>, e: Event, r: Key)
    requires (e.ModifyEvent? || e.CancelEvent?) && OfflineDefined(s, cancelled, Handle(e)) && r in s.chain.mail
    requires OfflineStep(s, cancelled, Handle(e)).chain.addrList == s.chain.addrList
    ensures var t := OfflineStep(s, cancelled, Handle(e)); r in t.chain.mail && AnswersOf(t, r) == AnswersOf(s, r)
  {
    var m := if e.ModifyEvent? then Modify(e.d, e.modification) else CancelModify(e.d, e.hash);
    RequestPosted(s, cancelled, e);
    AnswersPosted(s, OfflineStep(s, cancelled, Handle(e)), m, r);
  }

  lemma {:induction false} AnswersStep(s: Deferring, cancelled: Option<Hash>, a: Action, r: Key)
    requires OfflineDefined(s, cancelled, a) && r in s.chain.mail
    requires OfflineStep(s, cancelled, a).chain.addrList == s.chain.addrList
    ensures var t := OfflineStep(s, cancelled, a);
            r in t.chain.mail && AnswersOf(t, r) == AnswersOf(s, r) + Earned(s, a, r)
  {
    if a.DeliverNext? {
      AnswersDelivered(s, cancelled, r);
    } else if a.e.SingleApprovalReadyEvent? {
      AnswersToSingle(s, cancelled, a.e, r);
    } else if a.e.ApprovalReadyEvent? {
      AnswersToReport(s, cancelled, a.e, r);
    } else if a.e.ModifyEvent? || a.e.CancelEvent? {
      AnswersToClient(s, cancelled, a.e, r);
    } else {
      InheritedSaysNoAnswer(s, cancelled, a.e, r);
    }
  }

  /** The answers in an online replicator's log are these, in order; of the last replicator, those delivered
      followed by those still queued. */
  ghost predicate Answered(t: Deferring, r: Key, earned: seq<Message>) {
    && r in t.chain.mail && t.chain.addrList != []
    && if r == t.chain.addrList[|t.chain.addrList| - 1]
       then AnswersIn(t.chain.mail[r]) + AnswersIn(t.deferred) == earned
       else AnswersIn(t.chain.mail[r]) == earned
  }

  lemma AnsweredIff(t: Deferring, r: Key, earned: seq<Message>)
    requires r in t.chain.mail && t.chain.addrList != []
    ensures Answered(t, r, earned) <==> AnswersOf(t, r) == earned
  {
  }

  lemma AnsweredNext(t: Deferring, cancelled: Option<Hash>, a: Action, r: Key, earned: seq<Message>)
    requires OfflineDefined(t, cancelled, a) && Answered(t, r, earned)
    ensures Answered(OfflineStep(t, cancelled, a), r, earned + Earned(t, a, r))
  {
    KeepsRunning(t, cancelled, a);
    AnsweredIff(t, r, earned);
    AnswersStep(t, cancelled, a, r);
    AnsweredIff(OfflineStep(t, cancelled, a), r, earned + Earned(t, a, r));
  }

  /** At every moment: each replicator has been answered, and if it is the last one will be from the queue, in
      order, exactly for its own single opinions that count. */
  lemma {:induction false} AnswersAreEarned(s: Deferring, cancelled: Option<Hash>, actions: seq<Action>, r: Key)
    requires StartsOffline(s) && OfflineRun(s, cancelled, actions).Some? && r in s.chain.addrList
    ensures Answered(OfflineRun(s, cancelled, actions).value, r, EarnedBy(s, cancelled, actions, r))
  {
    if actions == [] {
    } else {
      var earlier := actions[..|actions| - 1];
      AnswersAreEarned(s, cancelled, earlier, r);
      AnsweredNext(OfflineRun(s, cancelled, earlier).value, cancelled, actions[|actions| - 1], r,
                   EarnedBy(s, cancelled, earlier, r));
    }
  }

  // ----- root hashes

  /** Whatever approval was told, or waits in the queue to be told, carries the recorded root hash, and so
      does every drive's last approval. */
  ghost predicate OfflineRootsCarried(s: Deferring) {
    RootsCarried(s.chain) && forall m :: m in s.deferred ==> CarriesRoot(s.chain, m)
  }

  ghost predicate KeepsRootsOf(c: Chain, t: Chain) {
    forall h: Hash, root: Hash :: HasRoot(c, h, root) ==> HasRoot(t, h, root)
  }

  lemma PostedRoots(s: Deferring, t: Deferring, m: Message)
    requires OfflineRootsCarried(s) && Posts(s, t, m) && CarriesRoot(t.chain, m) && KeepsRootsOf(s.chain, t.chain)
    requires forall d: Key :: LastHasRoot(t.chain, t.chain.Drive(d))
    ensures OfflineRootsCarried(t)
  {
    forall r, x | r in t.chain.mail && x in t.chain.mail[r] ensures CarriesRoot(t.chain, x) {
      if x != m {
        assert x in s.chain.mail[r];
        assert CarriesRoot(s.chain, x);
      }
    }
  }

  lemma ReportKeepsRoots(s: Deferring, cancelled: Option<Hash>, e: Event)
    requires e.ApprovalReadyEvent? && OfflineDefined(s, cancelled, Handle(e)) && OfflineRootsCarried(s)
    requires Publishes(s, cancelled, e) ==> e.info.modifyTransactionHash !in s.chain.rootHashes
    ensures OfflineRootsCarried(OfflineStep(s, cancelled, Handle(e)))
  {
    var t := OfflineStep(s, cancelled, Handle(e));
    var m := ReportPosted(s, cancelled, e.reporter, e.info);
    if Heeded(s, cancelled, e.info) && OneTotal(s.chain, e.info) {
      OneTotalAgrees(s.chain, e.info);
      PublishedRoots(s.chain, t.chain, e.info);
      PostedRoots(s, t, m);
    } else {
      SilentRoots(s, t);
    }
  }

  lemma PublishedRoots(c: Chain, t: Chain, info: ApprovalTransactionInfo)
    requires RootsCarried(c) && info.modifyTransactionHash !in c.rootHashes
    requires t.rootHashes == c.rootHashes[info.modifyTransactionHash := info.rootHash]
    requires SameOtherDrives(c, t, info.driveKey) && t.Drive(info.driveKey).lastApprovedModification == Some(info)
    ensures KeepsRootsOf(c, t) && forall d: Key :: LastHasRoot(t, t.Drive(d))
  {
    forall d: Key ensures LastHasRoot(t, t.Drive(d)) {
      assert LastHasRoot(c, c.Drive(d));
    }
  }

  lemma SilentRoots(s: Deferring, t: Deferring)
    requires OfflineRootsCarried(s) && PostsNothing(s, t) && SameDrives(s.chain, t.chain)
    requires t.chain.rootHashes == s.chain.rootHashes
    ensures OfflineRootsCarried(t)
  {
    forall d: Key ensures LastHasRoot(t.chain, t.chain.Drive(d)) {
      assert LastHasRoot(s.chain, s.chain.Drive(d));
    }
    forall r, m | r in t.chain.mail && m in t.chain.mail[r] ensures CarriesRoot(t.chain, m) {
      assert CarriesRoot(s.chain, m);
    }
    forall m | m in t.deferred ensures CarriesRoot(t.chain, m) {
      assert CarriesRoot(s.chain, m);
    }
  }

  /** The action leaves the drives' last approvals, apart from a drive that is added, and the root hashes. */
  ghost predicate LeavesRoots(c: Chain, t: Chain, a: Action) {
    && t.rootHashes == c.rootHashes
    && forall d: Key :: t.Drive(d).lastApprovedModification ==
                        if AddsDrive(a, d) then None else c.Drive(d).lastApprovedModification
  }

  lemma OtherActionsLeaveRoots(s: Deferring, cancelled: Option<Hash>, a: Action)
    requires OfflineDefined(s, cancelled, a) && !(a.Handle? && a.e.ApprovalReadyEvent?)
    ensures LeavesRoots(s.chain, OfflineStep(s, cancelled, a).chain, a)
  {
  }

  /** Only reports of approvals say anything new that is an approval. */
  lemma OtherActionsSayNoApproval(s: Deferring, cancelled: Option<Hash>, a: Action)
    requires OfflineDefined(s, cancelled, a) && !(a.Handle? && a.e.ApprovalReadyEvent?)
    ensures var t := OfflineStep(s, cancelled, a);
            && (forall r, m :: r in t.chain.mail && m in t.chain.mail[r] && m.ApprovalPublished? ==>
                  (r in s.chain.mail && m in s.chain.mail[r]) || m in s.deferred)
            && (forall m :: m in t.deferred && m.ApprovalPublished? ==> m in s.deferred)
  {
    var t := OfflineStep(s, cancelled, a);
    forall r, m | r in t.chain.mail && m in t.chain.mail[r] && m.ApprovalPublished?
      ensures (r in s.chain.mail && m in s.chain.mail[r]) || m in s.deferred
    {
      if a.Handle? && (a.e.AddDriveEvent? || VerificationEvent(a.e)) && m !in s.chain.mail[r] {
        DirectSaysNoApproval(s, cancelled, a.e, r, m, m.approval.modifyTransactionHash);
      }
    }
  }

  lemma OtherActionsKeepRoots(s: Deferring, t: Deferring, a: Action)
    requires OfflineRootsCarried(s) && LeavesRoots(s.chain, t.chain, a)
    requires forall r, m :: r in t.chain.mail && m in t.chain.mail[r] && m.ApprovalPublished? ==>
               (r in s.chain.mail && m in s.chain.mail[r]) || m in s.deferred
    requires forall m :: m in t.deferred && m.ApprovalPublished? ==> m in s.deferred
    ensures OfflineRootsCarried(t)
  {
    forall d: Key ensures LastHasRoot(t.chain, t.chain.Drive(d)) {
      assert LastHasRoot(s.chain, s.chain.Drive(d));
    }
    forall r, m | r in t.chain.mail && m in t.chain.mail[r] ensures CarriesRoot(t.chain, m) {
      if m.ApprovalPublished? {
        assert CarriesRoot(s.chain, m);
      }
    }
    forall m | m in t.deferred ensures CarriesRoot(t.chain, m) {
      if m.ApprovalPublished? {
        assert CarriesRoot(s.chain, m);
      }
    }
  }

  lemma NotYetRooted(s: Deferring, cancelled: Option<Hash>, actions: seq<Action>, e: Event)
    requires StartsOffline(s) && OfflineRun(s, cancelled, actions).Some? && FreshSubmissions(actions)
    requires Publishes(OfflineRun(s, cancelled, actions).value, cancelled, e)
    ensures e.info.modifyTransactionHash !in OfflineRun(s, cancelled, actions).value.chain.rootHashes
  {
    var c := OfflineRun(s, cancelled, actions).value.chain;
    OfflineRootsAreSettled(s, cancelled, actions, e.info.modifyTransactionHash);
    assert c.Drive(e.info.driveKey).pendingModifications[0] in c.Drive(e.info.driveKey).pendingModifications;
    assert Pending(c, e.info.driveKey, e.info.modifyTransactionHash);
  }

  /** With fresh hashes every approval told, at once or through the queue, carries the recorded root hash. */
  lemma {:induction false} OfflineRootsAreRecorded(s: Deferring, cancelled: Option<Hash>, actions: seq<Action>)
    requires StartsOffline(s) && OfflineRun(s, cancelled, actions).Some? && FreshSubmissions(actions)
    ensures OfflineRootsCarried(OfflineRun(s, cancelled, actions).value)
  {
    if actions == [] {
    } else {
      var earlier, a := actions[..|actions| - 1], actions[|actions| - 1];
      var t := OfflineRun(s, cancelled, earlier).value;
      FreshSubmissionsPrefix(actions);
      OfflineRootsAreRecorded(s, cancelled, earlier);
      if a.Handle? && a.e.ApprovalReadyEvent? {
        if Publishes(t, cancelled, a.e) {
          NotYetRooted(s, cancelled, earlier, a.e);
        }
        ReportKeepsRoots(t, cancelled, a.e);
      } else {
        OtherActionsLeaveRoots(t, cancelled, a);
        OtherActionsSayNoApproval(t, cancelled, a);
        OtherActionsKeepRoots(t, OfflineStep(t, cancelled, a), a);
      }
    }
  }

  // ----- one total per modification

  /** The totals of the opinions on `h`: of every heeded report, and of single opinions on the last approval. */
  ghost function ReportedTotals(s: Deferring, cancelled: Option<Hash>, actions: seq<Action>, h: Hash): set<nat> {
    if actions == [] then {}
    else
      var earlier, t := actions[..|actions| - 1], OfflineRun(s, cancelled, actions[..|actions| - 1]);
      ReportedTotals(s, cancelled, earlier, h)
      + (if t.Some? then TotalsIn(t.value, cancelled, actions[|actions| - 1], h) else {})
  }

  /** The totals the action reports for `h`. */
  ghost function TotalsIn(s: Deferring, cancelled: Option<Hash>, a: Action, h: Hash): set<nat> {
    match a
    case Handle(ApprovalReadyEvent(_, info)) =>
      if info.modifyTransactionHash == h && Heeded(s, cancelled, info)
      then set o | o in info.opinions :: Total(o.uploadLayout) else {}
    case Handle(SingleApprovalReadyEvent(_, info)) =>
      if info.modifyTransactionHash == h && AboutLast(s.chain, info) && |info.opinions| == 1
      then {Total(info.opinions[0].uploadLayout)} else {}
    case _ => {}
  }

  lemma TotalsStep(s: Deferring, cancelled: Option<Hash>, a: Action, h: Hash)
    requires OfflineDefined(s, cancelled, a)
    ensures OfflineStep(s, cancelled, a).chain.Sizes(h) == s.chain.Sizes(h) + TotalsIn(s, cancelled, a, h)
  {
    if a.Handle? && a.e.ApprovalReadyEvent? {
      var m := ReportPosted(s, cancelled, a.e.reporter, a.e.info);
    } else if a.Handle? && a.e.SingleApprovalReadyEvent? {
      SinglePosted(s, cancelled, a.e);
      if |a.e.info.opinions| == 1 {
        assert a.e.info.opinions == [a.e.info.opinions[0]];
      }
    }
  }

  ghost predicate OfflineCleanRun(s: Deferring, cancelled: Option<Hash>, actions: seq<Action>) {
    actions == [] ||
    (var earlier, a := actions[..|actions| - 1], actions[|actions| - 1];
     && OfflineCleanRun(s, cancelled, earlier)
     && (OfflineRun(s, cancelled, earlier).Some? && a.Handle? ==>
           OfflinePasses(OfflineRun(s, cancelled, earlier).value, cancelled, a.e)))
  }

  /** In every state the recorded totals are exactly the reported ones; while no assertion fails there is at
      most one for each modification. */
  lemma {:induction false} OfflineOneTotal(s: Deferring, cancelled: Option<Hash>, actions: seq<Action>, h: Hash)
    requires StartsOffline(s) && OfflineRun(s, cancelled, actions).Some?
    ensures var t, reported := OfflineRun(s, cancelled, actions).value, ReportedTotals(s, cancelled, actions, h);
            && t.chain.Sizes(h) == reported
            && (OfflineCleanRun(s, cancelled, actions) ==> forall x, y :: x in reported && y in reported ==> x == y)
  {
    if actions == [] {
    } else {
      var earlier, a := actions[..|actions| - 1], actions[|actions| - 1];
      var t := OfflineRun(s, cancelled, earlier).value;
      OfflineOneTotal(s, cancelled, earlier, h);
      TotalsStep(t, cancelled, a, h);
      if OfflineCleanRun(s, cancelled, actions) && TotalsIn(t, cancelled, a, h) != {} {
        CleanTotals(t, cancelled, a, h);
      }
    }
  }

  lemma CleanTotals(s: Deferring, cancelled: Option<Hash>, a: Action, h: Hash)
    requires OfflineDefined(s, cancelled, a) && a.Handle? && OfflinePasses(s, cancelled, a.e)
    requires TotalsIn(s, cancelled, a, h) != {}
    ensures var totals := s.chain.Sizes(h) + TotalsIn(s, cancelled, a, h);
            forall x, y :: x in totals && y in totals ==> x == y
  {
    var info := a.e.info;
    OneTotalAgrees(s.chain, info);
    var x: nat :| TotalsAre(s.chain, info, x);
    forall y | y in TotalsIn(s, cancelled, a, h) ensures y == x {
      if a.e.SingleApprovalReadyEvent? {
        assert info.opinions[0] in info.opinions;
      }
    }
  }
}
