/** Whole runs with one replicator behind: it is told what the others are told, in the same order,
    only later; and what was cancelled never reaches anybody as approved. */
module OfflineRuns {
  import opened Basics
  import opened Protocol
  import opened Replica
  import opened Chain
  import opened History
  import opened Convergence
  import opened Offline

  ghost predicate StartsOffline(s: Deferring) {
    Initial(s.chain) && AllRun(s.chain) && s.deferred == []
  }

  /** The state after the actions; `None` if the code is not defined somewhere on the way. */
  ghost function OfflineRun(s: Deferring, cancelled: Option<Hash>, actions: seq<Action>): Option<Deferring> {
    if actions == [] then Some(s)
    else
      var before, a := OfflineRun(s, cancelled, actions[..|actions| - 1]), actions[|actions| - 1];
      if before.Some? && OfflineDefined(before.value, cancelled, a)
      then Some(OfflineStep(before.value, cancelled, a)) else None
  }

  lemma KeepsRunning(s: Deferring, cancelled: Option<Hash>, a: Action)
    requires OfflineDefined(s, cancelled, a)
    ensures var t := OfflineStep(s, cancelled, a); AllRun(t.chain) && t.chain.addrList == s.chain.addrList
  {
  }

  lemma {:induction false} RunKeepsRunning(s: Deferring, cancelled: Option<Hash>, actions: seq<Action>)
    requires StartsOffline(s) && OfflineRun(s, cancelled, actions).Some?
    ensures var t := OfflineRun(s, cancelled, actions).value; AllRun(t.chain) && t.chain.addrList == s.chain.addrList
  {
    if actions == [] {
    } else {
      var earlier, a := actions[..|actions| - 1], actions[|actions| - 1];
      RunKeepsRunning(s, cancelled, earlier);
      KeepsRunning(OfflineRun(s, cancelled, earlier).value, cancelled, a);
    }
  }

  // ----- the broadcasts about one drive

  /** The calls that are deferred for the last replicator, and the addition before them; or all broadcasts,
      of which those about verifications reach it at once. */
  datatype Kinds = DeferredKinds | AllKinds

  predicate IsVerification(m: Message) {
    m.StartDriveVerification? || m.CancelDriveVerification? || m.VerifyApprovalPublished?
  }

  predicate IsBroadcast(k: Kinds, d: Key, m: Message) {
    m.Drive() == d && !m.SingleApprovalPublished? && (k.AllKinds? || !IsVerification(m))
  }

  function About(k: Kinds, d: Key, log: seq<Message>): seq<Message> {
    if log == [] then [] else (if IsBroadcast(k, d, log[0]) then [log[0]] else []) + About(k, d, log[1..])
  }

  lemma {:induction false} AboutAppend(k: Kinds, d: Key, a: seq<Message>, b: seq<Message>)
    ensures About(k, d, a + b) == About(k, d, a) + About(k, d, b)
  {
    if a == [] {
      assert a + b == b;
    } else {
      assert (a + b)[1..] == a[1..] + b;
      AboutAppend(k, d, a[1..], b);
      Associative(if IsBroadcast(k, d, a[0]) then [a[0]] else [], About(k, d, a[1..]), About(k, d, b));
    }
  }

  lemma AboutOne(k: Kinds, d: Key, log: seq<Message>, m: Message)
    ensures About(k, d, log + [m]) == About(k, d, log) + (if IsBroadcast(k, d, m) then [m] else [])
  {
    AboutAppend(k, d, log, [m]);
    assert About(k, d, [m]) == if IsBroadcast(k, d, m) then [m] else [];
  }

  lemma AboutNothing(k: Kinds, d: Key, log: seq<Message>)
    requires forall m :: m in log ==> m.Drive() != d
    ensures About(k, d, log) == []
  {
    if log == [] {
    } else {
      AboutNothing(k, d, log[1..]);
    }
  }

  /** Delivered and then still queued for the last replicator is what an online one was told. */
  ghost predicate Behind(s: Deferring, k: Kinds, d: Key, r: Key) {
    && s.chain.addrList != [] && Last(s.chain) in s.chain.mail && r in s.chain.mail
    && About(k, d, s.chain.mail[r]) == About(k, d, s.chain.mail[Last(s.chain)]) + About(k, d, s.deferred)
  }

  ghost predicate QueueIsKnown(s: Deferring) {
    forall m :: m in s.deferred ==> m.Drive() in s.chain.drives && !IsVerification(m)
  }

  predicate AddsDrive(a: Action, d: Key) {
    a.Handle? && a.e.AddDriveEvent? && a.e.d == d
  }

  /** The addition names both replicators or neither, and nothing was said about the drive before. */
  ghost predicate AddsAlike(s: Deferring, a: Action, d: Key, r: Key) {
    AddsDrive(a, d) && s.chain.addrList != [] ==>
      d !in s.chain.drives &&
      var list := NewDrive(a.e, s.chain.addrList).driveRequest.fullReplicatorList;
      r in list <==> Last(s.chain) in list
  }

  lemma BehindWhenPosted(s: Deferring, c: Chain, k: Kinds, d: Key, r: Key, m: Message)
    requires Behind(s, k, d, r) && r != Last(s.chain)
    requires c.mail == s.chain.mail && c.addrList == s.chain.addrList
    ensures Behind(Post(c, s.deferred, m), k, d, r)
  {
    var log, last := s.chain.mail[r], s.chain.mail[Last(s.chain)];
    AboutOne(k, d, log, m);
    AboutOne(k, d, s.deferred, m);
    assert last + [] == last;
    Associative(About(k, d, last), About(k, d, s.deferred), if IsBroadcast(k, d, m) then [m] else []);
  }

  lemma AboutUnheard(k: Kinds, d: Key, log: seq<Message>, m: Message)
    requires m.SingleApprovalPublished?
    ensures About(k, d, log + [m]) == About(k, d, log)
  {
    AboutOne(k, d, log, m);
    assert About(k, d, log) + [] == About(k, d, log);
  }

  /** A single approval's answer is no broadcast, wherever it goes. */
  lemma AboutAnswer(c: Chain, deferred: seq<Message>, k: Kinds, d: Key, r: Key, reporter: Key, m: Message)
    requires c.addrList != [] && r in c.mail && reporter in c.mail && m.SingleApprovalPublished?
    ensures var t := PostTo(c, deferred, reporter, m);
            && r in t.chain.mail && About(k, d, t.chain.mail[r]) == About(k, d, c.mail[r])
            && About(k, d, t.deferred) == About(k, d, deferred)
  {
    if reporter == Last(c) {
      AboutUnheard(k, d, deferred, m);
    } else if reporter == r {
      AboutUnheard(k, d, c.mail[r], m);
    }
  }

  lemma BehindWhenToldAlone(s: Deferring, c: Chain, k: Kinds, d: Key, r: Key, reporter: Key, m: Message)
    requires Behind(s, k, d, r) && r != Last(s.chain) && m.SingleApprovalPublished? && reporter in c.mail
    requires c.mail == s.chain.mail && c.addrList == s.chain.addrList
    ensures Behind(PostTo(c, s.deferred, reporter, m), k, d, r)
  {
    AboutAnswer(c, s.deferred, k, d, r, reporter, m);
    AboutAnswer(c, s.deferred, k, d, Last(c), reporter, m);
  }

  lemma DeliveredNext(s: Deferring, cancelled: Option<Hash>)
    requires OfflineDefined(s, cancelled, DeliverNext) && s.deferred != []
    ensures var t, last := OfflineStep(s, cancelled, DeliverNext), Last(s.chain);
            && t.chain == s.chain.(mail := s.chain.mail[last := s.chain.mail[last] + [s.deferred[0]]])
            && t.deferred == s.deferred[1..]
  {
  }

  lemma BehindWhenDelivered(s: Deferring, cancelled: Option<Hash>, k: Kinds, d: Key, r: Key)
    requires OfflineDefined(s, cancelled, DeliverNext) && Behind(s, k, d, r) && r != Last(s.chain)
    ensures Behind(OfflineStep(s, cancelled, DeliverNext), k, d, r)
  {
    if s.deferred != [] {
      var first, rest := [s.deferred[0]], s.deferred[1..];
      DeliveredNext(s, cancelled);
      assert s.deferred == first + rest;
      AboutAppend(k, d, first, rest);
      AboutAppend(k, d, s.chain.mail[Last(s.chain)], first);
      Associative(About(k, d, s.chain.mail[Last(s.chain)]), About(k, d, first), About(k, d, rest));
    }
  }

  lemma AddedLogs(s: Deferring, cancelled: Option<Hash>, e: Event, r: Key)
    requires OfflineDefined(s, cancelled, Handle(e)) && e.AddDriveEvent? && r in s.chain.mail
    ensures var t := OfflineStep(s, cancelled, Handle(e));
            && t.deferred == s.deferred && t.chain.addrList == s.chain.addrList && r in t.chain.mail
            && t.chain.mail[r] == s.chain.mail[r] + Outgoing(s.chain, e, r)
  {
  }

  lemma AboutAddition(s: Deferring, cancelled: Option<Hash>, e: Event, k: Kinds, d: Key, r: Key)
    requires OfflineDefined(s, cancelled, Handle(e)) && e.AddDriveEvent? && r in s.chain.mail
    ensures var t, request := OfflineStep(s, cancelled, Handle(e)), NewDrive(e, s.chain.addrList).driveRequest;
            && t.deferred == s.deferred && t.chain.addrList == s.chain.addrList && r in t.chain.mail
            && About(k, d, t.chain.mail[r]) == About(k, d, s.chain.mail[r])
                 + (if e.d == d && r in request.fullReplicatorList then [AddDrive(d, request)] else [])
  {
    AddedLogs(s, cancelled, e, r);
    AboutAppend(k, d, s.chain.mail[r], Outgoing(s.chain, e, r));
    SaysOnlyAdd(s.chain, e, k, d, r);
  }

  lemma ToldBeforeQueue(told: seq<Message>, delivered: seq<Message>, queued: seq<Message>, more: seq<Message>)
    requires told == delivered + queued && (more == [] || queued == [])
    ensures told + more == (delivered + more) + queued
  {
  }

  lemma BehindWhenAdded(s: Deferring, cancelled: Option<Hash>, e: Event, k: Kinds, d: Key, r: Key)
    requires OfflineDefined(s, cancelled, Handle(e)) && e.AddDriveEvent?
    requires Behind(s, k, d, r) && QueueIsKnown(s) && AddsAlike(s, Handle(e), d, r)
    ensures Behind(OfflineStep(s, cancelled, Handle(e)), k, d, r)
  {
    var last, request := Last(s.chain), NewDrive(e, s.chain.addrList).driveRequest;
    var more := if e.d == d && r in request.fullReplicatorList then [AddDrive(d, request)] else [];
    AboutAddition(s, cancelled, e, k, d, r);
    AboutAddition(s, cancelled, e, k, d, last);
    if e.d == d {
      AboutNothing(k, d, s.deferred);
    }
    ToldBeforeQueue(About(k, d, s.chain.mail[r]), About(k, d, s.chain.mail[last]), About(k, d, s.deferred), more);
  }

  /** What an addition tells a replicator about drive `d`. */
  lemma SaysOnlyAdd(c: Chain, e: Event, k: Kinds, d: Key, r: Key)
    requires e.AddDriveEvent?
    ensures var request := NewDrive(e, c.addrList).driveRequest;
            About(k, d, Outgoing(c, e, r)) ==
            if e.d == d && r in request.fullReplicatorList then [AddDrive(d, request)] else []
  {
  }

  /** The handler has told nobody anything. */
  ghost predicate Silent(s: Deferring, t: Deferring) {
    && t.chain.mail == s.chain.mail && t.chain.addrList == s.chain.addrList && t.deferred == s.deferred
    && s.chain.drives.Keys <= t.chain.drives.Keys
  }

  lemma BehindWhenSilent(s: Deferring, t: Deferring, k: Kinds, d: Key, r: Key)
    requires Behind(s, k, d, r) && QueueIsKnown(s) && Silent(s, t)
    ensures Behind(t, k, d, r) && QueueIsKnown(t)
  {
  }

  lemma ApprovalAnswered(s: Deferring, cancelled: Option<Hash>, e: Event)
    requires OfflineDefined(s, cancelled, Handle(e)) && e.ApprovalReadyEvent?
    ensures var t := OfflineStep(s, cancelled, Handle(e));
            if Publishes(s, cancelled, e)
            then t == Post(PoppedChain(s.chain, e.info), s.deferred, ApprovalPublished(Publish(e.info)))
            else Silent(s, t)
  {
  }

  lemma BehindWhenApproved(s: Deferring, cancelled: Option<Hash>, e: Event, k: Kinds, d: Key, r: Key)
    requires OfflineDefined(s, cancelled, Handle(e)) && e.ApprovalReadyEvent? && r != Last(s.chain)
    requires Behind(s, k, d, r) && QueueIsKnown(s)
    ensures var t := OfflineStep(s, cancelled, Handle(e)); Behind(t, k, d, r) && QueueIsKnown(t)
  {
    ApprovalAnswered(s, cancelled, e);
    if Publishes(s, cancelled, e) {
      BehindWhenPosted(s, PoppedChain(s.chain, e.info), k, d, r, ApprovalPublished(Publish(e.info)));
    } else {
      BehindWhenSilent(s, OfflineStep(s, cancelled, Handle(e)), k, d, r);
    }
  }

  lemma SingleAnswered(s: Deferring, cancelled: Option<Hash>, e: Event)
    requires OfflineDefined(s, cancelled, Handle(e)) && e.SingleApprovalReadyEvent?
    ensures var t, info := OfflineStep(s, cancelled, Handle(e)), e.info;
            if Countable(s, info) && SizesAgree(s.chain, info)
            then t == PostTo(WithSizes(s.chain, info), s.deferred, e.reporter,
                             SingleApprovalPublished(info.driveKey, info.modifyTransactionHash))
            else Silent(s, t)
  {
  }

  lemma BehindWhenCounted(s: Deferring, cancelled: Option<Hash>, e: Event, k: Kinds, d: Key, r: Key)
    requires OfflineDefined(s, cancelled, Handle(e)) && e.SingleApprovalReadyEvent? && r != Last(s.chain)
    requires Behind(s, k, d, r) && QueueIsKnown(s)
    ensures var t := OfflineStep(s, cancelled, Handle(e)); Behind(t, k, d, r) && QueueIsKnown(t)
  {
    var info := e.info;
    SingleAnswered(s, cancelled, e);
    if Countable(s, info) && SizesAgree(s.chain, info) {
      KnownWhenCounted(s, info);
      BehindWhenToldAlone(s, WithSizes(s.chain, info), k, d, r, e.reporter,
                          SingleApprovalPublished(info.driveKey, info.modifyTransactionHash));
    } else {
      BehindWhenSilent(s, OfflineStep(s, cancelled, Handle(e)), k, d, r);
    }
  }

  lemma KnownWhenCounted(s: Deferring, info: ApprovalTransactionInfo)
    requires Countable(s, info)
    ensures info.driveKey in s.chain.drives
  {
  }

  lemma ListsNothingStep(s: Deferring, cancelled: Option<Hash>, a: Action, d: Key)
    requires OfflineDefined(s, cancelled, a)
    ensures var q, q' := s.chain.Drive(d).driveRequest, OfflineStep(s, cancelled, a).chain.Drive(d).driveRequest;
            if AddsDrive(a, d) then q'.expectedCumulativeDownloadSize == 0 && q'.completedModifications == []
            else q' == q
  {
  }

  /** Both replicators are members, or neither is. */
  ghost predicate AlikeMembers(s: Deferring, d: Key, r: Key) {
    s.chain.addrList != [] && (r in s.chain.Members(d) <==> Last(s.chain) in s.chain.Members(d))
  }

  lemma StayAlike(s: Deferring, cancelled: Option<Hash>, a: Action, d: Key, r: Key)
    requires OfflineDefined(s, cancelled, a) && AlikeMembers(s, d, r) && AddsAlike(s, a, d, r)
    ensures AlikeMembers(OfflineStep(s, cancelled, a), d, r)
  {
    KeepsRunning(s, cancelled, a);
    if AddsDrive(a, d) {
      AfterAddition(s, cancelled, a.e);
    } else {
      ListsNothingStep(s, cancelled, a, d);
    }
  }

  lemma AfterAddition(s: Deferring, cancelled: Option<Hash>, e: Event)
    requires OfflineDefined(s, cancelled, Handle(e)) && e.AddDriveEvent?
    ensures OfflineStep(s, cancelled, Handle(e)).chain.Members(e.d)
         == NewDrive(e, s.chain.addrList).driveRequest.fullReplicatorList
  {
  }

  predicate VerificationEvent(e: Event) {
    e.StartVerificationEvent? || e.CancelVerificationEvent? || e.VerificationReadyEvent?
  }

  /** The handler reaches the last replicator at once while something about the drive is still queued for it. */
  ghost predicate Overtakes(s: Deferring, a: Action, d: Key) {
    a.Handle? && VerificationEvent(a.e) && a.e.Subject() == Some(d) && About(AllKinds, d, s.deferred) != []
  }

  /** What a verification handler tells: at most one message, the same to both replicators. */
  lemma SaysOnlyVerification(c: Chain, e: Event, r: Key)
    requires VerificationEvent(e)
    ensures |Outgoing(c, e, r)| <= 1
    ensures forall m :: m in Outgoing(c, e, r) ==> IsVerification(m) && Some(m.Drive()) == e.Subject()
  {
  }

  lemma AboutVerification(c: Chain, e: Event, k: Kinds, d: Key, r: Key)
    requires VerificationEvent(e)
    ensures About(k, d, Outgoing(c, e, r)) ==
            if k.AllKinds? && e.Subject() == Some(d) then Outgoing(c, e, r) else []
  {
    SaysOnlyVerification(c, e, r);
    if Outgoing(c, e, r) != [] {
      assert Outgoing(c, e, r) == [Outgoing(c, e, r)[0]] && Outgoing(c, e, r)[1..] == [];
    }
  }

  lemma VerificationLogs(s: Deferring, cancelled: Option<Hash>, e: Event, k: Kinds, d: Key, r: Key)
    requires OfflineDefined(s, cancelled, Handle(e)) && VerificationEvent(e) && r in s.chain.mail
    ensures var t := OfflineStep(s, cancelled, Handle(e));
            && t.deferred == s.deferred && t.chain.addrList == s.chain.addrList && r in t.chain.mail
            && t.chain.mail[r] == s.chain.mail[r] + Outgoing(s.chain, e, r)
            && About(k, d, t.chain.mail[r]) == About(k, d, s.chain.mail[r]) + About(k, d, Outgoing(s.chain, e, r))
  {
    AboutAppend(k, d, s.chain.mail[r], Outgoing(s.chain, e, r));
  }

  lemma BothAreTold(s: Deferring, e: Event, d: Key, r: Key)
    requires VerificationEvent(e) && e.Subject() == Some(d) && AlikeMembers(s, d, r)
    ensures Outgoing(s.chain, e, r) == Outgoing(s.chain, e, Last(s.chain))
  {
  }

  lemma BehindWhenVerified(s: Deferring, cancelled: Option<Hash>, e: Event, k: Kinds, d: Key, r: Key)
    requires OfflineDefined(s, cancelled, Handle(e)) && VerificationEvent(e) && Behind(s, k, d, r)
    requires AlikeMembers(s, d, r) && (k.AllKinds? ==> !Overtakes(s, Handle(e), d))
    ensures Behind(OfflineStep(s, cancelled, Handle(e)), k, d, r)
  {
    var c, last := s.chain, Last(s.chain);
    VerificationLogs(s, cancelled, e, k, d, r);
    VerificationLogs(s, cancelled, e, k, d, last);
    AboutVerification(c, e, k, d, r);
    AboutVerification(c, e, k, d, last);
    if e.Subject() == Some(d) {
      BothAreTold(s, e, d, r);
    }
    ToldBeforeQueue(About(k, d, c.mail[r]), About(k, d, c.mail[last]), About(k, d, s.deferred),
                    About(k, d, Outgoing(c, e, r)));
  }

  lemma AboutIsFrom(k: Kinds, d: Key, log: seq<Message>)
    ensures forall m :: m in About(k, d, log) ==> m in log
  {
  }

  lemma Overtaken(told: seq<Message>, delivered: seq<Message>, queued: seq<Message>, m: Message)
    requires told == delivered + queued && queued != [] && queued[0] != m
    ensures told + [m] != (delivered + [m]) + queued
  {
    assert (told + [m])[|delivered|] == queued[0];
    assert ((delivered + [m]) + queued)[|delivered|] == m;
  }

  /** A broadcast about a verification keeps the order of all broadcasts exactly if nothing about its drive
      is queued. */
  lemma OrderKeptIff(s: Deferring, cancelled: Option<Hash>, e: Event, d: Key, r: Key)
    requires OfflineDefined(s, cancelled, Handle(e)) && VerificationEvent(e) && e.Subject() == Some(d)
    requires Behind(s, AllKinds, d, r) && QueueIsKnown(s) && AlikeMembers(s, d, r) && Outgoing(s.chain, e, r) != []
    ensures Behind(OfflineStep(s, cancelled, Handle(e)), AllKinds, d, r) <==> About(AllKinds, d, s.deferred) == []
  {
    var c, last, queued := s.chain, Last(s.chain), About(AllKinds, d, s.deferred);
    if queued == [] {
      BehindWhenVerified(s, cancelled, e, AllKinds, d, r);
    } else {
      VerificationLogs(s, cancelled, e, AllKinds, d, r);
      VerificationLogs(s, cancelled, e, AllKinds, d, last);
      AboutVerification(c, e, AllKinds, d, r);
      AboutVerification(c, e, AllKinds, d, last);
      BothAreTold(s, e, d, r);
      SaysOnlyVerification(c, e, r);
      var m := Outgoing(c, e, r)[0];
      assert Outgoing(c, e, r) == [m] && m in Outgoing(c, e, r);
      AboutIsFrom(AllKinds, d, s.deferred);
      assert queued[0] in queued;
      Overtaken(About(AllKinds, d, c.mail[r]), About(AllKinds, d, c.mail[last]), queued, m);
    }
  }

  lemma {:induction false} StaysBehind(s: Deferring, cancelled: Option<Hash>, a: Action, k: Kinds, d: Key, r: Key)
    requires OfflineDefined(s, cancelled, a) && r != Last(s.chain) && AlikeMembers(s, d, r)
    requires Behind(s, k, d, r) && QueueIsKnown(s) && AddsAlike(s, a, d, r) && (k.AllKinds? ==> !Overtakes(s, a, d))
    ensures var t := OfflineStep(s, cancelled, a); Behind(t, k, d, r) && QueueIsKnown(t)
  {
    var c := s.chain;
    if a.DeliverNext? {
      BehindWhenDelivered(s, cancelled, k, d, r);
    } else if a.e.ModifyEvent? {
      var m := a.e.modification;
      BehindWhenPosted(s, WithDrive(c, a.e.d, Enqueued(c.Drive(a.e.d), m)), k, d, r, Modify(a.e.d, m));
    } else if a.e.CancelEvent? {
      var h := a.e.hash;
      BehindWhenPosted(s, WithDrive(c, a.e.d, Erased(c.Drive(a.e.d), h)), k, d, r, CancelModify(a.e.d, h));
    } else if a.e.ApprovalReadyEvent? {
      BehindWhenApproved(s, cancelled, a.e, k, d, r);
    } else if a.e.SingleApprovalReadyEvent? {
      BehindWhenCounted(s, cancelled, a.e, k, d, r);
    } else if a.e.AddDriveEvent? {
      BehindWhenAdded(s, cancelled, a.e, k, d, r);
    } else {
      BehindWhenVerified(s, cancelled, a.e, k, d, r);
    }
  }

  ghost predicate AddsAlikeRun(s: Deferring, cancelled: Option<Hash>, actions: seq<Action>, d: Key, r: Key) {
    actions == [] ||
    (var earlier := actions[..|actions| - 1];
     && AddsAlikeRun(s, cancelled, earlier, d, r)
     && (OfflineRun(s, cancelled, earlier).Some? ==>
           AddsAlike(OfflineRun(s, cancelled, earlier).value, actions[|actions| - 1], d, r)))
  }

  /** The drive's key is new whenever the drive is added. */
  ghost predicate FreshAdditions(s: Deferring, cancelled: Option<Hash>, actions: seq<Action>, d: Key) {
    actions == [] ||
    (var earlier, a := actions[..|actions| - 1], actions[|actions| - 1];
     && FreshAdditions(s, cancelled, earlier, d)
     && (OfflineRun(s, cancelled, earlier).Some? && AddsDrive(a, d) ==>
           d !in OfflineRun(s, cancelled, earlier).value.chain.drives))
  }

  lemma {:induction false} AlikeIsFresh(s: Deferring, cancelled: Option<Hash>, actions: seq<Action>, d: Key, r: Key)
    requires StartsOffline(s) && AddsAlikeRun(s, cancelled, actions, d, r)
    ensures FreshAdditions(s, cancelled, actions, d)
  {
    if actions == [] {
    } else {
      var earlier := actions[..|actions| - 1];
      AlikeIsFresh(s, cancelled, earlier, d, r);
      if OfflineRun(s, cancelled, earlier).Some? {
        RunKeepsRunning(s, cancelled, earlier);
      }
    }
  }

  lemma LastAction(s: Deferring, cancelled: Option<Hash>, actions: seq<Action>, d: Key)
    requires actions != [] && OfflineRun(s, cancelled, actions).Some? && FreshAdditions(s, cancelled, actions, d)
    ensures var earlier, a := actions[..|actions| - 1], actions[|actions| - 1];
            var t := OfflineRun(s, cancelled, earlier);
            && t.Some? && OfflineDefined(t.value, cancelled, a)
            && OfflineRun(s, cancelled, actions) == Some(OfflineStep(t.value, cancelled, a))
            && FreshAdditions(s, cancelled, earlier, d) && (AddsDrive(a, d) ==> d !in t.value.chain.drives)
  {
  }

  /** No verification is announced while something about the drive is queued. */
  ghost predicate NeverOvertakes(s: Deferring, cancelled: Option<Hash>, actions: seq<Action>, d: Key) {
    actions == [] ||
    (var earlier := actions[..|actions| - 1];
     && NeverOvertakes(s, cancelled, earlier, d)
     && (OfflineRun(s, cancelled, earlier).Some? ==>
           !Overtakes(OfflineRun(s, cancelled, earlier).value, actions[|actions| - 1], d)))
  }

  ghost predicate Tracks(t: Deferring, k: Kinds, d: Key, r: Key) {
    Behind(t, k, d, r) && QueueIsKnown(t) && AlikeMembers(t, d, r)
  }

  lemma TracksAtStart(s: Deferring, k: Kinds, d: Key, r: Key)
    requires StartsOffline(s) && r in s.chain.addrList
    ensures Tracks(s, k, d, r)
  {
  }

  /** A run in which the last replicator can be tracked. */
  ghost predicate AlikeRun(s: Deferring, cancelled: Option<Hash>, actions: seq<Action>, k: Kinds, d: Key, r: Key) {
    && OfflineRun(s, cancelled, actions).Some? && AddsAlikeRun(s, cancelled, actions, d, r)
    && (k.AllKinds? ==> NeverOvertakes(s, cancelled, actions, d))
  }

  lemma AlikeRunStep(s: Deferring, cancelled: Option<Hash>, actions: seq<Action>, k: Kinds, d: Key, r: Key)
    requires actions != [] && AlikeRun(s, cancelled, actions, k, d, r)
    ensures var earlier, a := actions[..|actions| - 1], actions[|actions| - 1];
            && AlikeRun(s, cancelled, earlier, k, d, r)
            && var t := OfflineRun(s, cancelled, earlier).value;
               && OfflineDefined(t, cancelled, a)
                 && OfflineRun(s, cancelled, actions) == Some(OfflineStep(t, cancelled, a))
               && AddsAlike(t, a, d, r) && (k.AllKinds? ==> !Overtakes(t, a, d))
  {
  }

  lemma TracksStep(t: Deferring, cancelled: Option<Hash>, a: Action, k: Kinds, d: Key, r: Key)
    requires OfflineDefined(t, cancelled, a) && Tracks(t, k, d, r) && r != Last(t.chain)
    requires AddsAlike(t, a, d, r) && (k.AllKinds? ==> !Overtakes(t, a, d))
    ensures Tracks(OfflineStep(t, cancelled, a), k, d, r)
  {
    StaysBehind(t, cancelled, a, k, d, r);
    StayAlike(t, cancelled, a, d, r);
  }

  lemma TracksNext(s: Deferring, cancelled: Option<Hash>, actions: seq<Action>, k: Kinds, d: Key, r: Key)
    requires actions != [] && AlikeRun(s, cancelled, actions, k, d, r)
    requires TracksRun(s, cancelled, actions[..|actions| - 1], k, d, r)
    ensures TracksRun(s, cancelled, actions, k, d, r)
  {
    AlikeRunStep(s, cancelled, actions, k, d, r);
    TracksStep(OfflineRun(s, cancelled, actions[..|actions| - 1]).value, cancelled, actions[|actions| - 1], k, d, r);
    KeepsRunning(OfflineRun(s, cancelled, actions[..|actions| - 1]).value, cancelled, actions[|actions| - 1]);
  }

  /** Delivered and then queued is what `r` was told, in the state after the actions. */
  ghost predicate TracksRun(s: Deferring, cancelled: Option<Hash>, actions: seq<Action>, k: Kinds, d: Key, r: Key) {
    var t := OfflineRun(s, cancelled, actions);
    t.Some? && Tracks(t.value, k, d, r) && r != Last(t.value.chain)
  }

  /** At every moment, for a drive whose addition comes first: the deferred kinds of broadcasts delivered to
      the last replicator, followed by those queued for it, are, in order, those an online replicator got; and
      all kinds, if no verification ever overtakes the queue. */
  lemma {:induction false} DeliveredThenQueued(s: Deferring, cancelled: Option<Hash>, actions: seq<Action>, k: Kinds,
                                               d: Key, r: Key)
    requires StartsOffline(s) && AlikeRun(s, cancelled, actions, k, d, r)
    requires r in s.chain.addrList && r != Last(s.chain)
    ensures TracksRun(s, cancelled, actions, k, d, r)
  {
    if actions == [] {
      TracksAtStart(s, k, d, r);
    } else {
      AlikeRunStep(s, cancelled, actions, k, d, r);
      DeliveredThenQueued(s, cancelled, actions[..|actions| - 1], k, d, r);
      TracksNext(s, cancelled, actions, k, d, r);
    }
  }

  /** The view as far as those broadcasts determine it: the deferred ones not the verification slot. */
  function Seen(k: Kinds, view: Option<View>): Option<View> {
    if k.DeferredKinds? && view.Some? then Some(view.value.(verification := None)) else view
  }

  lemma ReceiveSeen(k: Kinds, d: Key, v: Option<View>, w: Option<View>, m: Message)
    requires Seen(k, v) == Seen(k, w)
    ensures Seen(k, Receive(d, v, m)) == Seen(k, Receive(d, w, m))
    ensures !IsBroadcast(k, d, m) ==> Seen(k, Receive(d, v, m)) == Seen(k, v)
  {
  }

  /** Only those broadcasts about the drive matter to that. */
  lemma {:induction false} ReceiveAbout(k: Kinds, d: Key, v: Option<View>, w: Option<View>, log: seq<Message>)
    requires Seen(k, v) == Seen(k, w)
    ensures Seen(k, ReceiveAll(d, v, log)) == Seen(k, ReceiveAll(d, w, About(k, d, log)))
    decreases |log|
  {
    if log == [] {
    } else {
      ReceiveSeen(k, d, v, w, log[0]);
      if IsBroadcast(k, d, log[0]) {
        assert About(k, d, log)[0] == log[0] && About(k, d, log)[1..] == About(k, d, log[1..]);
        ReceiveAbout(k, d, Receive(d, v, log[0]), Receive(d, w, log[0]), log[1..]);
      } else {
        assert About(k, d, log) == About(k, d, log[1..]);
        ReceiveAbout(k, d, Receive(d, v, log[0]), w, log[1..]);
      }
    }
  }

  /** The queue holds what the last replicator has still to hear to see what `r` sees; in particular,
      both see the same when it is empty. */
  ghost predicate OneQueueApart(t: Deferring, k: Kinds, d: Key, r: Key) {
    && t.chain.addrList != [] && Last(t.chain) in t.chain.mail && r in t.chain.mail
    && var view := ViewOf(d, t.chain.mail[Last(t.chain)]);
       && Seen(k, ReceiveAll(d, view, t.deferred)) == Seen(k, ViewOf(d, t.chain.mail[r]))
       && (t.deferred == [] ==> Seen(k, view) == Seen(k, ViewOf(d, t.chain.mail[r])))
  }

  lemma BehindCatchesUp(t: Deferring, k: Kinds, d: Key, r: Key)
    requires Behind(t, k, d, r)
    ensures OneQueueApart(t, k, d, r)
  {
    var last := t.chain.mail[Last(t.chain)];
    ReceiveAbout(k, d, None, None, t.chain.mail[r]);
    ReceiveAbout(k, d, None, None, last + t.deferred);
    AboutAppend(k, d, last, t.deferred);
    ReceiveAllAppend(d, None, last, t.deferred);
  }

  /** In every state the last replicator is one queue apart from each online one: in all but the verification
      slot, and in that too if no verification ever overtakes the queue. */
  lemma {:induction false} CatchesUp(s: Deferring, cancelled: Option<Hash>, actions: seq<Action>, k: Kinds, d: Key,
                                     r: Key)
    requires StartsOffline(s) && AlikeRun(s, cancelled, actions, k, d, r)
    requires r in s.chain.addrList && r != Last(s.chain)
    ensures OneQueueApart(OfflineRun(s, cancelled, actions).value, k, d, r)
  {
    DeliveredThenQueued(s, cancelled, actions, k, d, r);
    BehindCatchesUp(OfflineRun(s, cancelled, actions).value, k, d, r);
  }

  // ----- the online replicators and the ledger

  ghost predicate FreshSubmissions(actions: seq<Action>) {
    forall i, j :: 0 <= i < j < |actions| && Submits(actions[i]) && Submits(actions[j]) ==>
      actions[i].e.modification.transactionHash != actions[j].e.modification.transactionHash
  }

  predicate Submits(a: Action) {
    a.Handle? && a.e.ModifyEvent?
  }

  lemma FreshSubmissionsPrefix(actions: seq<Action>)
    requires FreshSubmissions(actions) && actions != []
    ensures FreshSubmissions(actions[..|actions| - 1])
    ensures var a := actions[|actions| - 1];
            Submits(a) ==> forall d, m :: Handle(ModifyEvent(d, m)) in actions[..|actions| - 1] ==>
              m.transactionHash != a.e.modification.transactionHash
  {
    var earlier := actions[..|actions| - 1];
    forall d, m | Submits(actions[|actions| - 1]) && Handle(ModifyEvent(d, m)) in earlier
      ensures m.transactionHash != actions[|actions| - 1].e.modification.transactionHash
    {
      var i :| 0 <= i < |earlier| && earlier[i] == Handle(ModifyEvent(d, m));
      assert Submits(actions[i]) && actions[i].e.modification == m;
    }
  }

  /** What one action does to the queue of drive `d`. */
  lemma OfflineQueueStep(s: Deferring, cancelled: Option<Hash>, a: Action, d: Key)
    requires OfflineDefined(s, cancelled, a)
    ensures var queue := s.chain.Drive(d).pendingModifications;
            var queue' := OfflineStep(s, cancelled, a).chain.Drive(d).pendingModifications;
            if AddsDrive(a, d) then queue' == []
            else if a.DeliverNext? then queue' == queue
            else if a.e.ModifyEvent? && a.e.d == d then queue' == queue + [a.e.modification]
            else if a.e.CancelEvent? && a.e.d == d then queue' == EraseHash(queue, a.e.hash)
            else if Publishes(s, cancelled, a.e) && a.e.info.driveKey == d then queue != [] && queue' == queue[1..]
            else queue' == queue
  {
  }

  ghost predicate Publishes(s: Deferring, cancelled: Option<Hash>, e: Event) {
    e.ApprovalReadyEvent? && Considered(s, cancelled, e.info) && SizesAgree(s.chain, e.info)
  }

  lemma {:induction false} OfflinePendingIsFresh(s: Deferring, cancelled: Option<Hash>, actions: seq<Action>, d: Key)
    requires StartsOffline(s) && OfflineRun(s, cancelled, actions).Some? && FreshSubmissions(actions)
    ensures var queue := OfflineRun(s, cancelled, actions).value.chain.Drive(d).pendingModifications;
            DistinctHashes(queue) && forall m :: m in queue ==> Handle(ModifyEvent(d, m)) in actions
  {
    if actions == [] {
    } else {
      var earlier, a := actions[..|actions| - 1], actions[|actions| - 1];
      var t := OfflineRun(s, cancelled, earlier).value;
      assert actions == earlier + [a];
      FreshSubmissionsPrefix(actions);
      OfflinePendingIsFresh(s, cancelled, earlier, d);
      OfflineQueueStep(t, cancelled, a, d);
      var queue := t.chain.Drive(d).pendingModifications;
      if a.Handle? && a.e.CancelEvent? && a.e.d == d {
        EraseHashDistinct(queue, a.e.hash);
      } else if Submits(a) && a.e.d == d {
        forall i | 0 <= i < |queue| ensures queue[i].transactionHash != a.e.modification.transactionHash {
          assert Handle(ModifyEvent(d, queue[i])) in earlier;
        }
      }
    }
  }

  // ----- what online replicators make of it

  /** A member's view has the ledger's queue and last approval, and the given number of bytes as its
      cumulative download; other replicators hold no view. */
  ghost predicate OnlineMirrors(view: Option<View>, di: DriveInfo, r: Key, bytes: nat) {
    if r in di.driveRequest.fullReplicatorList
    then view.Some? && view.value.pending == di.pendingModifications && view.value.lastApproval == PublishedLast(di)
         && view.value.cumulativeDownload == bytes
    else view.None?
  }

  /** The state's log of `r` gives such a view of drive `d`. */
  ghost predicate SeenBy(c: Chain, d: Key, r: Key, bytes: nat) {
    r in c.mail && OnlineMirrors(ViewOf(d, c.mail[r]), c.Drive(d), r, bytes)
  }

  lemma ModifySeen(view: Option<View>, di: DriveInfo, r: Key, bytes: nat, d: Key, m: ModificationRequest)
    requires OnlineMirrors(view, di, r, bytes)
    ensures OnlineMirrors(Receive(d, view, Modify(d, m)), Enqueued(di, m), r, bytes)
  {
  }

  lemma CancelSeen(view: Option<View>, di: DriveInfo, r: Key, bytes: nat, d: Key, h: Hash)
    requires OnlineMirrors(view, di, r, bytes) && DistinctHashes(di.pendingModifications)
    ensures OnlineMirrors(Receive(d, view, CancelModify(d, h)), Erased(di, h), r, bytes)
  {
    if view.Some? {
      EraseFirstIsEraseAllIff(view.value.pending, h);
    }
  }

  /** A replicator adds the popped front's size, which the ledger does not. */
  lemma ApprovalSeen(view: Option<View>, di: DriveInfo, r: Key, bytes: nat, info: ApprovalTransactionInfo)
    requires OnlineMirrors(view, di, r, bytes) && Fronted(di, info.modifyTransactionHash)
    ensures OnlineMirrors(Receive(info.driveKey, view, ApprovalPublished(Publish(info))), PopFront(di, info), r,
                          bytes + di.pendingModifications[0].maxDataSize)
  {
    if view.Some? {
      CatchUpFront(view.value, Publish(info));
    }
  }

  /** One message more is received by the view so far; one about another drive changes nothing. */
  lemma ViewAfter(d: Key, log: seq<Message>, m: Message)
    ensures ViewOf(d, log + [m]) == Receive(d, ViewOf(d, log), m)
    ensures m.Drive() != d ==> ViewOf(d, log + [m]) == ViewOf(d, log)
  {
    ReceiveAllAppend(d, None, log, [m]);
    ReceiveOne(d, ViewOf(d, log), m);
  }

  /** When the last replicator is not `r`, posting appends the message to the log of `r`. */
  lemma SeenWhenPosted(c: Chain, deferred: seq<Message>, d: Key, r: Key, bytes: nat, m: Message)
    requires c.addrList != [] && r in c.mail && r != Last(c)
    requires OnlineMirrors(if m.Drive() == d then Receive(d, ViewOf(d, c.mail[r]), m) else ViewOf(d, c.mail[r]),
                           c.Drive(d), r, bytes)
    ensures SeenBy(Post(c, deferred, m).chain, d, r, bytes)
  {
    ViewAfter(d, c.mail[r], m);
  }

  /** The bytes an online member expects after the action. */
  ghost function BytesAfter(s: Deferring, cancelled: Option<Hash>, a: Action, d: Key, bytes: nat): nat {
    if AddsDrive(a, d) then 0
    else if Takes(s, cancelled, a, d) then bytes + s.chain.Drive(d).pendingModifications[0].maxDataSize
    else bytes
  }

  /** The action pops the front of drive `d`. */
  ghost predicate Takes(s: Deferring, cancelled: Option<Hash>, a: Action, d: Key) {
    a.Handle? && Publishes(s, cancelled, a.e) && a.e.info.driveKey == d
  }

  /** The action is defined and the view of the online replicator `r` is in step. */
  ghost predicate Hears(s: Deferring, cancelled: Option<Hash>, e: Event, d: Key, r: Key, bytes: nat) {
    OfflineDefined(s, cancelled, Handle(e)) && r != Last(s.chain) && SeenBy(s.chain, d, r, bytes)
  }

  lemma HearsModify(s: Deferring, cancelled: Option<Hash>, e: Event, d: Key, r: Key, bytes: nat)
    requires Hears(s, cancelled, e, d, r, bytes) && e.ModifyEvent?
    ensures SeenBy(OfflineStep(s, cancelled, Handle(e)).chain, d, r, bytes)
  {
    var c := s.chain;
    ModifySeen(ViewOf(d, c.mail[r]), c.Drive(d), r, bytes, d, e.modification);
    SeenWhenPosted(WithDrive(c, e.d, Enqueued(c.Drive(e.d), e.modification)), s.deferred, d, r, bytes,
                   Modify(e.d, e.modification));
  }

  lemma HearsCancel(s: Deferring, cancelled: Option<Hash>, e: Event, d: Key, r: Key, bytes: nat)
    requires Hears(s, cancelled, e, d, r, bytes) && e.CancelEvent?
    requires DistinctHashes(s.chain.Drive(d).pendingModifications)
    ensures SeenBy(OfflineStep(s, cancelled, Handle(e)).chain, d, r, bytes)
  {
    var c := s.chain;
    CancelSeen(ViewOf(d, c.mail[r]), c.Drive(d), r, bytes, d, e.hash);
    SeenWhenPosted(WithDrive(c, e.d, Erased(c.Drive(e.d), e.hash)), s.deferred, d, r, bytes, CancelModify(e.d, e.hash));
  }

  lemma HearsApproval(s: Deferring, cancelled: Option<Hash>, e: Event, d: Key, r: Key, bytes: nat)
    requires Hears(s, cancelled, e, d, r, bytes) && e.ApprovalReadyEvent?
    ensures SeenBy(OfflineStep(s, cancelled, Handle(e)).chain, d, r, BytesAfter(s, cancelled, Handle(e), d, bytes))
  {
    var c, info := s.chain, e.info;
    if Publishes(s, cancelled, e) {
      if info.driveKey == d {
        ApprovalSeen(ViewOf(d, c.mail[r]), c.Drive(d), r, bytes, info);
      }
      SeenWhenPosted(PoppedChain(c, info), s.deferred, d, r, BytesAfter(s, cancelled, Handle(e), d, bytes),
                     ApprovalPublished(Publish(info)));
    }
  }

  lemma HearsSingle(s: Deferring, cancelled: Option<Hash>, e: Event, d: Key, r: Key, bytes: nat)
    requires Hears(s, cancelled, e, d, r, bytes) && e.SingleApprovalReadyEvent?
    ensures SeenBy(OfflineStep(s, cancelled, Handle(e)).chain, d, r, bytes)
  {
    ViewAfter(d, s.chain.mail[r], SingleApprovalPublished(e.info.driveKey, e.info.modifyTransactionHash));
  }

  lemma HearsAddition(s: Deferring, cancelled: Option<Hash>, e: Event, d: Key, r: Key, bytes: nat)
    requires Hears(s, cancelled, e, d, r, bytes) && e.AddDriveEvent? && (e.d == d ==> d !in s.chain.drives)
    ensures SeenBy(OfflineStep(s, cancelled, Handle(e)).chain, d, r, BytesAfter(s, cancelled, Handle(e), d, bytes))
  {
    var c := s.chain;
    AddedLogs(s, cancelled, e, r);
    if Outgoing(c, e, r) != [] {
      assert Outgoing(c, e, r) == [AddDrive(e.d, NewDrive(e, c.addrList).driveRequest)];
      ViewAfter(d, c.mail[r], Outgoing(c, e, r)[0]);
    } else {
      assert c.mail[r] + [] == c.mail[r];
    }
  }

  lemma VerificationSeen(view: Option<View>, di: DriveInfo, di': DriveInfo, r: Key, bytes: nat, d: Key, m: Message)
    requires OnlineMirrors(view, di, r, bytes) && IsVerification(m)
    requires di'.driveRequest == di.driveRequest && di'.pendingModifications == di.pendingModifications
    requires di'.lastApprovedModification == di.lastApprovedModification
    ensures OnlineMirrors(Receive(d, view, m), di', r, bytes) && OnlineMirrors(view, di', r, bytes)
  {
  }

  /** A verification handler changes nothing but the drive's slot. */
  lemma AfterVerification(s: Deferring, cancelled: Option<Hash>, e: Event, d: Key)
    requires OfflineDefined(s, cancelled, Handle(e)) && VerificationEvent(e)
    ensures var t := OfflineStep(s, cancelled, Handle(e));
            && t.chain.Drive(d).driveRequest == s.chain.Drive(d).driveRequest
            && t.chain.Drive(d).pendingModifications == s.chain.Drive(d).pendingModifications
            && t.chain.Drive(d).lastApprovedModification == s.chain.Drive(d).lastApprovedModification
            && t.chain.rootHashes == s.chain.rootHashes
  {
  }

  lemma HearsVerification(s: Deferring, cancelled: Option<Hash>, e: Event, d: Key, r: Key, bytes: nat)
    requires Hears(s, cancelled, e, d, r, bytes) && VerificationEvent(e)
    ensures SeenBy(OfflineStep(s, cancelled, Handle(e)).chain, d, r, bytes)
  {
    var c, t, told := s.chain, OfflineStep(s, cancelled, Handle(e)).chain, Outgoing(s.chain, e, r);
    VerificationLogs(s, cancelled, e, AllKinds, d, r);
    SaysOnlyVerification(c, e, r);
    AfterVerification(s, cancelled, e, d);
    if told == [] {
      assert c.mail[r] + [] == c.mail[r];
      VerificationSeen(ViewOf(d, c.mail[r]), c.Drive(d), t.Drive(d), r, bytes, d, CancelDriveVerification(d));
    } else {
      assert told == [told[0]] && told[0] in told;
      ViewAfter(d, c.mail[r], told[0]);
      VerificationSeen(ViewOf(d, c.mail[r]), c.Drive(d), t.Drive(d), r, bytes, d, told[0]);
    }
  }

  lemma {:induction false} SeenAfter(s: Deferring, cancelled: Option<Hash>, a: Action, d: Key, r: Key, bytes: nat)
    requires OfflineDefined(s, cancelled, a) && r != Last(s.chain) && SeenBy(s.chain, d, r, bytes)
    requires AddsDrive(a, d) ==> d !in s.chain.drives
    requires DistinctHashes(s.chain.Drive(d).pendingModifications)
    ensures SeenBy(OfflineStep(s, cancelled, a).chain, d, r, BytesAfter(s, cancelled, a, d, bytes))
  {
    if a.DeliverNext? {
    } else if a.e.ModifyEvent? {
      HearsModify(s, cancelled, a.e, d, r, bytes);
    } else if a.e.CancelEvent? {
      HearsCancel(s, cancelled, a.e, d, r, bytes);
    } else if a.e.ApprovalReadyEvent? {
      HearsApproval(s, cancelled, a.e, d, r, bytes);
    } else if a.e.SingleApprovalReadyEvent? {
      HearsSingle(s, cancelled, a.e, d, r, bytes);
    } else if a.e.AddDriveEvent? {
      HearsAddition(s, cancelled, a.e, d, r, bytes);
    } else {
      HearsVerification(s, cancelled, a.e, d, r, bytes);
    }
  }

  /** The modifications popped from drive `d` since it was added. */
  ghost function Taken(s: Deferring, cancelled: Option<Hash>, actions: seq<Action>, d: Key): seq<ModificationRequest> {
    if actions == [] then []
    else
      var earlier, a := actions[..|actions| - 1], actions[|actions| - 1];
      var before, t := Taken(s, cancelled, earlier, d), OfflineRun(s, cancelled, earlier);
      if AddsDrive(a, d) then []
      else if t.Some? && Takes(t.value, cancelled, a, d) then before + [t.value.chain.Drive(d).pendingModifications[0]]
      else before
  }

  lemma BytesTaken(s: Deferring, cancelled: Option<Hash>, actions: seq<Action>, d: Key)
    requires actions != [] && OfflineRun(s, cancelled, actions).Some?
    ensures var earlier, a := actions[..|actions| - 1], actions[|actions| - 1];
            SumOfMaxSizes(Taken(s, cancelled, actions, d)) ==
            BytesAfter(OfflineRun(s, cancelled, earlier).value, cancelled, a, d,
                       SumOfMaxSizes(Taken(s, cancelled, earlier, d)))
  {
    var earlier, a := actions[..|actions| - 1], actions[|actions| - 1];
    var t := OfflineRun(s, cancelled, earlier).value;
    if Takes(t, cancelled, a, d) {
      SumOfMaxSizesAppend(Taken(s, cancelled, earlier, d), t.chain.Drive(d).pendingModifications[0]);
    }
  }

  /** What `r` sees after the actions is the ledger's queue and last approval, and the bytes popped. */
  ghost predicate Converges(s: Deferring, cancelled: Option<Hash>, actions: seq<Action>, d: Key, r: Key) {
    OfflineRun(s, cancelled, actions).Some? &&
    SeenBy(OfflineRun(s, cancelled, actions).value.chain, d, r, SumOfMaxSizes(Taken(s, cancelled, actions, d)))
  }

  /** In every state, what an online replicator has heard gives the ledger's own queue and last approval of
      each drive, and the sum of the sizes popped since its addition as the cumulative download. */
  lemma {:induction false} OnlineConvergence(s: Deferring, cancelled: Option<Hash>, actions: seq<Action>, d: Key,
                                             r: Key)
    requires StartsOffline(s) && OfflineRun(s, cancelled, actions).Some? && FreshSubmissions(actions)
    requires r in s.chain.addrList && r != Last(s.chain) && FreshAdditions(s, cancelled, actions, d)
    ensures Converges(s, cancelled, actions, d, r)
  {
    if actions == [] {
      SeenAtStart(s, d, r);
    } else {
      LastAction(s, cancelled, actions, d);
      FreshSubmissionsPrefix(actions);
      OnlineConvergence(s, cancelled, actions[..|actions| - 1], d, r);
      ConvergesNext(s, cancelled, actions, d, r);
    }
  }

  lemma ConvergesNext(s: Deferring, cancelled: Option<Hash>, actions: seq<Action>, d: Key, r: Key)
    requires StartsOffline(s) && actions != [] && OfflineRun(s, cancelled, actions).Some?
    requires FreshSubmissions(actions[..|actions| - 1]) && FreshAdditions(s, cancelled, actions, d)
    requires r in s.chain.addrList && r != Last(s.chain)
    requires Converges(s, cancelled, actions[..|actions| - 1], d, r)
    ensures Converges(s, cancelled, actions, d, r)
  {
    BeforeLast(s, cancelled, actions, d, r);
    SeenAfterLast(s, cancelled, actions, d, r);
  }

  /** What the next step of the view needs of the state. */
  ghost predicate ReadyFor(c: Chain, a: Action, d: Key, r: Key) {
    && c.addrList != [] && r != Last(c) && DistinctHashes(c.Drive(d).pendingModifications)
    && (AddsDrive(a, d) ==> d !in c.drives)
  }

  lemma BeforeLast(s: Deferring, cancelled: Option<Hash>, actions: seq<Action>, d: Key, r: Key)
    requires StartsOffline(s) && actions != [] && OfflineRun(s, cancelled, actions).Some?
    requires FreshSubmissions(actions[..|actions| - 1]) && FreshAdditions(s, cancelled, actions, d)
    requires r != Last(s.chain)
    ensures var t := OfflineRun(s, cancelled, actions[..|actions| - 1]);
            t.Some? && ReadyFor(t.value.chain, actions[|actions| - 1], d, r)
  {
    var earlier := actions[..|actions| - 1];
    LastAction(s, cancelled, actions, d);
    RunKeepsRunning(s, cancelled, earlier);
    OfflinePendingIsFresh(s, cancelled, earlier, d);
  }

  lemma SeenAtStart(s: Deferring, d: Key, r: Key)
    requires StartsOffline(s) && r in s.chain.addrList
    ensures SeenBy(s.chain, d, r, 0)
  {
  }

  lemma SeenAfterLast(s: Deferring, cancelled: Option<Hash>, actions: seq<Action>, d: Key, r: Key)
    requires actions != [] && OfflineRun(s, cancelled, actions).Some?
    requires var a, t := actions[|actions| - 1], OfflineRun(s, cancelled, actions[..|actions| - 1]).value;
             && ReadyFor(t.chain, a, d, r)
             && SeenBy(t.chain, d, r, SumOfMaxSizes(Taken(s, cancelled, actions[..|actions| - 1], d)))
    ensures SeenBy(OfflineRun(s, cancelled, actions).value.chain, d, r, SumOfMaxSizes(Taken(s, cancelled, actions, d)))
  {
    var earlier, a := actions[..|actions| - 1], actions[|actions| - 1];
    BytesTaken(s, cancelled, actions, d);
    SeenAfter(OfflineRun(s, cancelled, earlier).value, cancelled, a, d, r,
              SumOfMaxSizes(Taken(s, cancelled, earlier, d)));
  }

  /** This ledger never expects a download and never lists a completed modification. */
  lemma {:induction false} LedgerListsNothing(s: Deferring, cancelled: Option<Hash>, actions: seq<Action>, d: Key)
    requires StartsOffline(s) && OfflineRun(s, cancelled, actions).Some?
    ensures var q := OfflineRun(s, cancelled, actions).value.chain.Drive(d).driveRequest;
            q.expectedCumulativeDownloadSize == 0 && q.completedModifications == []
  {
    if actions == [] {
    } else {
      var earlier := actions[..|actions| - 1];
      LedgerListsNothing(s, cancelled, earlier, d);
      ListsNothingStep(OfflineRun(s, cancelled, earlier).value, cancelled, actions[|actions| - 1], d);
    }
  }

  lemma SumIsZeroIff(queue: seq<ModificationRequest>)
    ensures SumOfMaxSizes(queue) == 0 <==> forall m :: m in queue ==> m.maxDataSize == 0
  {
    if queue == [] {
    } else {
      SumIsZeroIff(queue[1..]);
      assert queue == [queue[0]] + queue[1..];
    }
  }

  /** The replicator and the ledger have the same cumulative size. */
  ghost predicate SizesMatch(c: Chain, d: Key, r: Key)
    requires r in c.mail && ViewOf(d, c.mail[r]).Some?
  {
    ViewOf(d, c.mail[r]).value.cumulativeDownload == c.Drive(d).driveRequest.expectedCumulativeDownloadSize
  }

  /** On the cumulative size an online member and the ledger agree exactly as long as nothing of positive
      size was popped since the drive was added. */
  lemma OnlineSizeAgreesIff(s: Deferring, cancelled: Option<Hash>, actions: seq<Action>, d: Key, r: Key)
    requires StartsOffline(s) && OfflineRun(s, cancelled, actions).Some? && FreshSubmissions(actions)
    requires r in s.chain.addrList && r != Last(s.chain) && FreshAdditions(s, cancelled, actions, d)
    requires r in OfflineRun(s, cancelled, actions).value.chain.Members(d)
    ensures var c := OfflineRun(s, cancelled, actions).value.chain;
            && r in c.mail && ViewOf(d, c.mail[r]).Some?
            && (SizesMatch(c, d, r) <==> forall m :: m in Taken(s, cancelled, actions, d) ==> m.maxDataSize == 0)
  {
    OnlineConvergence(s, cancelled, actions, d, r);
    LedgerListsNothing(s, cancelled, actions, d);
    SumIsZeroIff(Taken(s, cancelled, actions, d));
  }

  /** So do the last replicator and the ledger once the queue is drained. */
  lemma DrainedSizeAgreesIff(s: Deferring, cancelled: Option<Hash>, actions: seq<Action>, d: Key, r: Key)
    requires StartsOffline(s) && OfflineRun(s, cancelled, actions).Some? && FreshSubmissions(actions)
    requires r in s.chain.addrList && r != Last(s.chain) && AddsAlikeRun(s, cancelled, actions, d, r)
    requires var t := OfflineRun(s, cancelled, actions).value; r in t.chain.Members(d) && t.deferred == []
    ensures var c := OfflineRun(s, cancelled, actions).value.chain;
            && c.addrList != [] && Last(c) in c.mail && ViewOf(d, c.mail[Last(c)]).Some?
            && (SizesMatch(c, d, Last(c)) <==> forall m :: m in Taken(s, cancelled, actions, d) ==> m.maxDataSize == 0)
  {
    AlikeIsFresh(s, cancelled, actions, d, r);
    OnlineSizeAgreesIff(s, cancelled, actions, d, r);
    CatchesUp(s, cancelled, actions, DeferredKinds, d, r);
  }

  // ----- cancellation is final, through the queue too

  predicate Announces(m: Message, h: Hash) {
    m.ApprovalPublished? && m.approval.modifyTransactionHash == h
  }

  /** Nobody was told, nor will be told from the queue, that `h` was approved. */
  ghost predicate NeverAnnounced(s: Deferring, h: Hash) {
    && (forall r, m :: r in s.chain.mail && m in s.chain.mail[r] ==> !Announces(m, h))
    && (forall m :: m in s.deferred ==> !Announces(m, h))
  }

  /** An inherited handler tells of no approval. */
  lemma DirectSaysNoApproval(s: Deferring, cancelled: Option<Hash>, e: Event, r: Key, m: Message, h: Hash)
    requires OfflineDefined(s, cancelled, Handle(e)) && (e.AddDriveEvent? || VerificationEvent(e))
    requires r in s.chain.mail && m in OfflineStep(s, cancelled, Handle(e)).chain.mail[r] && m !in s.chain.mail[r]
    ensures !Announces(m, h)
  {
    assert m in Outgoing(s.chain, e, r);
  }

  /** One action announces only the hash it gives a root. */
  lemma {:induction false} AnnouncedStep(s: Deferring, cancelled: Option<Hash>, a: Action, h: Hash)
    requires OfflineDefined(s, cancelled, a)
    requires NeverAnnounced(s, h) && !(a.Handle? && Publishes(s, cancelled, a.e) && a.e.info.modifyTransactionHash == h)
    ensures var t := OfflineStep(s, cancelled, a);
            NeverAnnounced(t, h) && (h in t.chain.rootHashes <==> h in s.chain.rootHashes)
  {
    var t := OfflineStep(s, cancelled, a);
    RootStep(s, cancelled, a);
    forall r, m | r in t.chain.mail && m in t.chain.mail[r] ensures !Announces(m, h) {
      if m !in s.chain.mail[r] && a.Handle? && (a.e.AddDriveEvent? || VerificationEvent(a.e)) {
        DirectSaysNoApproval(s, cancelled, a.e, r, m, h);
      }
    }
  }

  lemma RootStep(s: Deferring, cancelled: Option<Hash>, a: Action)
    requires OfflineDefined(s, cancelled, a)
    ensures var t := OfflineStep(s, cancelled, a);
            forall h :: h in t.chain.rootHashes <==>
              h in s.chain.rootHashes
              || (a.Handle? && Publishes(s, cancelled, a.e) && a.e.info.modifyTransactionHash == h)
  {
  }

  /** A modification with a root hash was submitted and is pending nowhere; one without is unannounced. */
  lemma {:induction false} OfflineRootsAreSettled(s: Deferring, cancelled: Option<Hash>, actions: seq<Action>, h: Hash)
    requires StartsOffline(s) && OfflineRun(s, cancelled, actions).Some? && FreshSubmissions(actions)
    ensures var t := OfflineRun(s, cancelled, actions).value;
            if h in t.chain.rootHashes
            then (exists d, m :: Handle(ModifyEvent(d, m)) in actions && m.transactionHash == h)
                 && (forall d :: !Pending(t.chain, d, h))
            else NeverAnnounced(t, h)
  {
    if actions == [] {
    } else {
      var earlier, a := actions[..|actions| - 1], actions[|actions| - 1];
      var t, u := OfflineRun(s, cancelled, earlier).value, OfflineRun(s, cancelled, actions).value;
      assert actions == earlier + [a];
      FreshSubmissionsPrefix(actions);
      OfflineRootsAreSettled(s, cancelled, earlier, h);
      RootStep(t, cancelled, a);
      if h !in u.chain.rootHashes {
        AnnouncedStep(t, cancelled, a, h);
      } else if h in t.chain.rootHashes {
        var d, m :| Handle(ModifyEvent(d, m)) in earlier && m.transactionHash == h;
        assert Handle(ModifyEvent(d, m)) in actions;
        forall k ensures !Pending(u.chain, k, h) {
          NotPendingStep(t, cancelled, a, k, h);
        }
      } else {
        PoppedIsPendingNowhere(s, cancelled, earlier, a);
        assert forall x :: x in earlier ==> x in actions;
      }
    }
  }

  lemma NotPendingStep(s: Deferring, cancelled: Option<Hash>, a: Action, d: Key, h: Hash)
    requires OfflineDefined(s, cancelled, a) && !Pending(s.chain, d, h)
    requires Submits(a) ==> a.e.modification.transactionHash != h
    ensures !Pending(OfflineStep(s, cancelled, a).chain, d, h)
  {
    OfflineQueueStep(s, cancelled, a, d);
  }

  lemma {:induction false} PoppedIsPendingNowhere(s: Deferring, cancelled: Option<Hash>, actions: seq<Action>,
                                                  a: Action)
    requires StartsOffline(s) && OfflineRun(s, cancelled, actions).Some? && FreshSubmissions(actions)
    requires var t := OfflineRun(s, cancelled, actions).value;
             OfflineDefined(t, cancelled, a) && a.Handle? && Publishes(t, cancelled, a.e)
    ensures var t, h := OfflineRun(s, cancelled, actions).value, a.e.info.modifyTransactionHash;
            && (exists d, m :: Handle(ModifyEvent(d, m)) in actions && m.transactionHash == h)
            && (forall d :: !Pending(OfflineStep(t, cancelled, a).chain, d, h))
  {
    var t, own, h := OfflineRun(s, cancelled, actions).value, a.e.info.driveKey, a.e.info.modifyTransactionHash;
    var queue := t.chain.Drive(own).pendingModifications;
    OfflinePendingIsFresh(s, cancelled, actions, own);
    assert Handle(ModifyEvent(own, queue[0])) in actions;
    forall d ensures !Pending(OfflineStep(t, cancelled, a).chain, d, h) {
      OfflineQueueStep(t, cancelled, a, d);
      if d == own {
        forall m | m in queue[1..] ensures m.transactionHash != h {
          var j :| 0 <= j < |queue[1..]| && queue[1..][j] == m;
          assert queue[j + 1] == m;
        }
      } else if Pending(t.chain, d, h) {
        OfflinePendingOnce(s, cancelled, actions, d, own, h);
      }
    }
  }

  lemma OfflinePendingOnce(s: Deferring, cancelled: Option<Hash>, actions: seq<Action>, d: Key, d': Key, h: Hash)
    requires StartsOffline(s) && OfflineRun(s, cancelled, actions).Some? && FreshSubmissions(actions)
    requires var c := OfflineRun(s, cancelled, actions).value.chain; Pending(c, d, h) && Pending(c, d', h)
    ensures d == d'
  {
    var c := OfflineRun(s, cancelled, actions).value.chain;
    OfflinePendingIsFresh(s, cancelled, actions, d);
    OfflinePendingIsFresh(s, cancelled, actions, d');
    var m :| m in c.Drive(d).pendingModifications && m.transactionHash == h;
    var m' :| m' in c.Drive(d').pendingModifications && m'.transactionHash == h;
    var i :| 0 <= i < |actions| && actions[i] == Handle(ModifyEvent(d, m));
    var j :| 0 <= j < |actions| && actions[j] == Handle(ModifyEvent(d', m'));
    assert Submits(actions[i]) && Submits(actions[j]);
    assert i == j;
  }

  predicate SubmitsAgain(actions: seq<Action>, h: Hash) {
    exists a :: a in actions && Submits(a) && a.e.modification.transactionHash == h
  }

  /** A hash that is pending nowhere, without a root, unannounced and not submitted again stays so. */
  lemma {:induction false} StaysUnapproved(s: Deferring, cancelled: Option<Hash>, later: seq<Action>, h: Hash)
    requires (forall d :: !Pending(s.chain, d, h)) && h !in s.chain.rootHashes && NeverAnnounced(s, h)
    requires OfflineRun(s, cancelled, later).Some? && !SubmitsAgain(later, h)
    ensures var t := OfflineRun(s, cancelled, later).value;
            (forall d :: !Pending(t.chain, d, h)) && h !in t.chain.rootHashes && NeverAnnounced(t, h)
  {
    if later == [] {
    } else {
      var earlier, a := later[..|later| - 1], later[|later| - 1];
      assert a in later && forall x :: x in earlier ==> x in later;
      StaysUnapproved(s, cancelled, earlier, h);
      var t := OfflineRun(s, cancelled, earlier).value;
      if a.Handle? && Publishes(t, cancelled, a.e) && a.e.info.modifyTransactionHash == h {
        var front := t.chain.Drive(a.e.info.driveKey).pendingModifications[0];
        assert front in t.chain.Drive(a.e.info.driveKey).pendingModifications;
        assert Pending(t.chain, a.e.info.driveKey, h);
        assert false;
      } else {
        AnnouncedStep(t, cancelled, a, h);
        forall d ensures !Pending(OfflineStep(t, cancelled, a).chain, d, h) {
          NotPendingStep(t, cancelled, a, d, h);
        }
      }
    }
  }

  lemma {:induction false} OfflineRunAppend(s: Deferring, cancelled: Option<Hash>, a: seq<Action>, b: seq<Action>)
    requires OfflineRun(s, cancelled, a).Some?
    ensures OfflineRun(s, cancelled, a + b) == OfflineRun(OfflineRun(s, cancelled, a).value, cancelled, b)
    decreases |b|
  {
    if b == [] {
      assert a + b == a;
    } else {
      assert (a + b)[..|a + b| - 1] == a + b[..|b| - 1];
      OfflineRunAppend(s, cancelled, a, b[..|b| - 1]);
    }
  }

  /** Cancelled while pending and not submitted again: no root hash, and no replicator, online or
      behind, is ever told that it was approved. */
  lemma {:induction false} OfflineCancellationIsFinal(s: Deferring, cancelled: Option<Hash>, before: seq<Action>,
                                                      d: Key, h: Hash, later: seq<Action>)
    requires StartsOffline(s) && FreshSubmissions(before) && !SubmitsAgain(later, h)
    requires OfflineRun(s, cancelled, before).Some? && Pending(OfflineRun(s, cancelled, before).value.chain, d, h)
    requires OfflineRun(s, cancelled, before + [Handle(CancelEvent(d, h))] + later).Some?
    ensures var t := OfflineRun(s, cancelled, before + [Handle(CancelEvent(d, h))] + later).value;
            h !in t.chain.rootHashes && NeverAnnounced(t, h) && forall k :: !Pending(t.chain, k, h)
  {
    var cancel := Handle(CancelEvent(d, h));
    var upTo := before + [cancel];
    assert upTo[..|upTo| - 1] == before;
    RunKeepsRunning(s, cancelled, before);
    var t := OfflineRun(s, cancelled, before).value;
    OfflineRootsAreSettled(s, cancelled, before, h);
    AnnouncedStep(t, cancelled, cancel, h);
    var u := OfflineStep(t, cancelled, cancel);
    forall k ensures !Pending(u.chain, k, h) {
      OfflineQueueStep(t, cancelled, cancel, k);
      if k != d && Pending(t.chain, k, h) {
        OfflinePendingOnce(s, cancelled, before, k, d, h);
      }
    }
    OfflineRunAppend(s, cancelled, upTo, later);
    StaysUnapproved(u, cancelled, later, h);
  }

  /** The filter alone does it too: the filtered hash is never approved, even while it is pending. */
  lemma {:induction false} FilteredNeverApproved(s: Deferring, h: Hash, actions: seq<Action>)
    requires StartsOffline(s) && OfflineRun(s, Some(h), actions).Some?
    ensures var t := OfflineRun(s, Some(h), actions).value; h !in t.chain.rootHashes && NeverAnnounced(t, h)
  {
    if actions == [] {
    } else {
      var earlier, a := actions[..|actions| - 1], actions[|actions| - 1];
      FilteredNeverApproved(s, h, earlier);
      AnnouncedStep(OfflineRun(s, Some(h), earlier).value, Some(h), a, h);
    }
  }
}
