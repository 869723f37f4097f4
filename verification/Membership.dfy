/** The lists of a drive's replicators, in the ledger and as its members know them. */
module Membership {
  import opened Basics
  import opened Protocol
  import opened Replica
  import opened Chain
  import opened Convergence

  /** In every reachable state the full list and both shards are one sequence without repetitions. */
  lemma {:induction false} ListsAgree(c: Chain, events: seq<Event>, d: Key)
    requires Initial(c) && DefinedRun(c, events)
    ensures var q := Run(c, events).Drive(d).driveRequest;
            && Distinct(q.fullReplicatorList)
            && q.modifyDonatorShard == q.fullReplicatorList && q.modifyRecipientShard == q.fullReplicatorList
  {
    RunWellFormed(c, events);
    assert WellFormedDrive(d, Run(c, events).Drive(d));
  }

  /** A replicator that joins and leaves again leaves the drive's record as it was. */
  lemma JoinThenLeave(c: Chain, d: Key, r: Key)
    requires WellFormed(c) && Defined(c, AddReplicatorEvent(d, r))
    ensures Step(Step(c, AddReplicatorEvent(d, r)), RemoveReplicatorEvent(d, r)).Drive(d) == c.Drive(d)
  {
    assert WellFormedDrive(d, c.Drive(d));
    AppendThenWithout(c.Members(d), r);
  }

  lemma {:induction false} LastOfDistinct(s: seq<Key>, x: Key)
    requires Distinct(s) && x in s
    ensures Without(s, x) + [x] == s <==> s[|s| - 1] == x
  {
    var before := s[..|s| - 1];
    if s[|s| - 1] == x {
      assert s == before + [x];
      AppendThenWithout(before, x);
    } else {
      assert (Without(s, x) + [x])[|Without(s, x)|] == x;
    }
  }

  /** A member that leaves and joins again becomes the last of the list: the lists are restored exactly
      when it was the last before. */
  lemma LeaveThenJoinRestoresIff(c: Chain, d: Key, r: Key)
    requires WellFormed(c) && r in c.Members(d)
    ensures var left := Step(c, RemoveReplicatorEvent(d, r));
            && Defined(left, AddReplicatorEvent(d, r))
            && (Step(left, AddReplicatorEvent(d, r)).Drive(d) == c.Drive(d) <==> c.Members(d)[|c.Members(d)| - 1] == r)
  {
    assert WellFormedDrive(d, c.Drive(d));
    LastOfDistinct(c.Members(d), r);
  }

  // ----- what the members know of the lists

  /** A shard as the ledger tells it: the full list, or the full list without the replicator itself. */
  predicate IsTold(list: seq<Key>, r: Key, shard: seq<Key>) {
    shard == list || shard == Without(list, r)
  }

  /** A member knows the list and both shards as told; any other replicator knows nothing of the drive. */
  ghost predicate Knows(view: Option<View>, list: seq<Key>, r: Key) {
    if r in list then
      view.Some? && view.value.replicators == list
      && IsTold(list, r, view.value.donatorShard) && IsTold(list, r, view.value.recipientShard)
    else view.None?
  }

  /** The message is not about who is a member. */
  predicate KeepsMembers(m: Message) {
    !m.AddDrive? && !m.RemoveDrive? && !m.SetReplicators? && !m.SetShardDonator? && !m.SetShardRecipient?
  }

  lemma {:induction false} KnowsStill(d: Key, view: Option<View>, log: seq<Message>, list: seq<Key>, r: Key)
    requires Knows(view, list, r) && forall m :: m in log ==> KeepsMembers(m)
    ensures Knows(ReceiveAll(d, view, log), list, r)
    decreases |log|
  {
    if log == [] {
    } else {
      assert log[0] in log;
      KnowsStill(d, Receive(d, view, log[0]), log[1..], list, r);
    }
  }

  lemma KnowsWhenAdded(c: Chain, e: Event, view: Option<View>, r: Key)
    requires e.AddDriveEvent? && e.d !in c.drives && Knows(view, c.Members(e.d), r)
    ensures Knows(ReceiveAll(e.d, view, Outgoing(c, e, r)), Step(c, e).Members(e.d), r)
  {
    if Outgoing(c, e, r) != [] {
      ReceiveOne(e.d, view, Outgoing(c, e, r)[0]);
    }
  }

  /** After a join: the new list, and both shards without oneself. */
  ghost predicate KnowsStripped(view: Option<View>, list: seq<Key>, r: Key) {
    view.Some? && view.value.replicators == list
    && view.value.donatorShard == Without(list, r) && view.value.recipientShard == Without(list, r)
  }

  lemma KnowsWhenJoined(c: Chain, e: Event, view: Option<View>, r: Key)
    requires e.AddReplicatorEvent? && WellFormed(c) && Defined(c, e) && Knows(view, c.Members(e.d), r)
    ensures var list, after := c.Members(e.d) + [e.replicator], ReceiveAll(e.d, view, Outgoing(c, e, r));
            Step(c, e).Members(e.d) == list && (if r in list then KnowsStripped(after, list, r) else after.None?)
  {
    var d, k := e.d, e.replicator;
    assert WellFormedDrive(d, c.Drive(d));
    var di := Joined(c.Drive(d), k);
    var q := di.driveRequest;
    if r == k {
      ReceiveReplay(d, q.(modifyDonatorShard := Without(q.modifyDonatorShard, r),
                          modifyRecipientShard := Without(q.modifyRecipientShard, r)), di, false);
    } else if r in q.fullReplicatorList {
      ReceiveReconfigured(d, view.value, q.fullReplicatorList, Without(q.modifyDonatorShard, r),
                          Without(q.modifyRecipientShard, r));
    }
  }

  /** After a leave: the new list for both shards, with oneself; the one that left knows nothing. */
  ghost predicate KnowsWhole(view: Option<View>, list: seq<Key>) {
    view.Some? && view.value.replicators == list
    && view.value.donatorShard == list && view.value.recipientShard == list
  }

  lemma KnowsWhenLeft(c: Chain, e: Event, view: Option<View>, r: Key)
    requires e.RemoveReplicatorEvent? && WellFormed(c) && Knows(view, c.Members(e.d), r)
    ensures var list, after := Without(c.Members(e.d), e.replicator), ReceiveAll(e.d, view, Outgoing(c, e, r));
            Step(c, e).Members(e.d) == list && (if r in list then KnowsWhole(after, list) else after.None?)
  {
    var d, k := e.d, e.replicator;
    assert WellFormedDrive(d, c.Drive(d));
    var q := Left(c.Drive(d), k).driveRequest;
    if r == k {
      ReceiveOne(d, view, RemoveDrive(d));
    } else if r in q.fullReplicatorList {
      ReceiveReconfigured(d, view.value, q.fullReplicatorList, q.modifyDonatorShard, q.modifyRecipientShard);
    }
  }

  lemma KnowsWhenStarted(c: Chain, d: Key, r: Key)
    requires WellFormed(c)
    ensures Knows(ViewOf(d, ReplayDrives(c.drives, c.drives.Keys, r)), c.Members(d), r)
  {
    assert WellFormedDrive(d, c.Drive(d));
    ReceiveReplayDrives(c.drives, c.drives.Keys, r, d, None);
    ReceiveReplay(d, c.Drive(d).driveRequest, c.Drive(d), true);
  }

  /** The event changes nobody's membership. */
  predicate KeepsLists(e: Event) {
    !e.AddDriveEvent? && !e.AddReplicatorEvent? && !e.RemoveReplicatorEvent?
  }

  lemma OtherEventsKeepMembers(c: Chain, e: Event, d: Key, r: Key)
    requires KeepsLists(e)
    ensures Step(c, e).Members(d) == c.Members(d) && forall m :: m in Outgoing(c, e, r) ==> KeepsMembers(m)
  {
  }

  lemma KnowsAfterOwn(c: Chain, e: Event, d: Key, view: Option<View>, r: Key)
    requires WellFormed(c) && Defined(c, e) && Addressed(e) && e.Subject() == Some(d)
    requires (e.AddDriveEvent? ==> d !in c.drives) && Knows(view, c.Members(d), r)
    ensures Knows(ReceiveAll(d, view, Outgoing(c, e, r)), Step(c, e).Members(d), r)
  {
    if e.AddDriveEvent? {
      KnowsWhenAdded(c, e, view, r);
    } else if e.AddReplicatorEvent? {
      KnowsWhenJoined(c, e, view, r);
    } else if e.RemoveReplicatorEvent? {
      KnowsWhenLeft(c, e, view, r);
    } else {
      OtherEventsKeepMembers(c, e, d, r);
      KnowsStill(d, view, Outgoing(c, e, r), c.Members(d), r);
    }
  }

  lemma KnowsWhenTold(c: Chain, e: Event, d: Key, view: Option<View>, r: Key)
    requires WellFormed(c) && Defined(c, e) && Addressed(e) && (e.AddDriveEvent? ==> e.d !in c.drives)
    requires Knows(view, c.Members(d), r)
    ensures Knows(ReceiveAll(d, view, Outgoing(c, e, r)), Step(c, e).Members(d), r)
  {
    if e.Subject() == Some(d) {
      KnowsAfterOwn(c, e, d, view, r);
    } else {
      OtherDriveUntouched(c, e, d, view, r);
    }
  }

  lemma KnowsAfter(c: Chain, e: Event, d: Key, r: Key)
    requires WellFormed(c) && Defined(c, e) && (e.AddDriveEvent? ==> e.d !in c.drives) && r in Step(c, e).mail
    requires r in c.mail ==> Knows(ViewOf(d, c.mail[r]), c.Members(d), r)
    ensures Knows(ViewOf(d, Step(c, e).mail[r]), Step(c, e).Members(d), r)
  {
    if r !in c.mail {
      KnowsWhenStarted(c, d, r);
    } else if Addressed(e) {
      ViewAfterEvent(c, e, d, r);
      KnowsWhenTold(c, e, d, ViewOf(d, c.mail[r]), r);
    }
  }

  lemma ViewAfterEvent(s: Chain, e: Event, d: Key, r: Key)
    requires Addressed(e) && r in s.mail
    ensures r in Step(s, e).mail
    ensures ViewOf(d, Step(s, e).mail[r]) == ReceiveAll(d, ViewOf(d, s.mail[r]), Outgoing(s, e, r))
  {
    ReceiveAllAppend(d, None, s.mail[r], Outgoing(s, e, r));
  }

  /** In every reachable state, after failed upload checks and with reused transaction hashes too: a running
      replicator knows the drive exactly if it is a member, with the full list and, for each shard, the full
      list with or without itself. */
  lemma {:induction false} MembersKnow(c: Chain, events: seq<Event>, d: Key, r: Key)
    requires Initial(c) && DefinedRun(c, events) && FreshDrives(c, events) && r in Run(c, events).mail
    ensures Knows(ViewOf(d, Run(c, events).mail[r]), Run(c, events).Members(d), r)
  {
    if events == [] {
    } else {
      var earlier, e := events[..|events| - 1], events[|events| - 1];
      PrefixRuns(c, events);
      FreshDrivesPrefix(c, events);
      RunWellFormed(c, earlier);
      if r in Run(c, earlier).mail {
        MembersKnow(c, earlier, d, r);
      }
      KnowsAfter(Run(c, earlier), e, d, r);
    }
  }

  /** When a replicator joins, every running member, the new one included, knows the full list, and
      both shards as the full list without itself. */
  lemma {:induction false} ShardsAfterJoin(c: Chain, events: seq<Event>, d: Key, k: Key, r: Key)
    requires Initial(c) && DefinedRun(c, events) && FreshDrives(c, events)
    requires var s := Run(c, events); Defined(s, AddReplicatorEvent(d, k)) && r in s.mail
    ensures var t, list := Step(Run(c, events), AddReplicatorEvent(d, k)), Run(c, events).Members(d) + [k];
            && r in t.mail && t.Members(d) == list
            && (if r in list then KnowsStripped(ViewOf(d, t.mail[r]), list, r) else ViewOf(d, t.mail[r]).None?)
  {
    var s, e := Run(c, events), AddReplicatorEvent(d, k);
    RunWellFormed(c, events);
    MembersKnow(c, events, d, r);
    ViewAfterEvent(s, e, d, r);
    KnowsWhenJoined(s, e, ViewOf(d, s.mail[r]), r);
  }

  /** When one leaves, the others know the full list as it is for both shards, themselves included, and
      the one that left knows the drive no more. */
  lemma {:induction false} ShardsAfterLeave(c: Chain, events: seq<Event>, d: Key, k: Key, r: Key)
    requires Initial(c) && DefinedRun(c, events) && FreshDrives(c, events) && r in Run(c, events).mail
    ensures var t, list := Step(Run(c, events), RemoveReplicatorEvent(d, k)), Without(Run(c, events).Members(d), k);
            && r in t.mail && t.Members(d) == list && k !in list
            && (if r in list then KnowsWhole(ViewOf(d, t.mail[r]), list) else ViewOf(d, t.mail[r]).None?)
  {
    var s, e := Run(c, events), RemoveReplicatorEvent(d, k);
    RunWellFormed(c, events);
    MembersKnow(c, events, d, r);
    ViewAfterEvent(s, e, d, r);
    KnowsWhenLeft(s, e, ViewOf(d, s.mail[r]), r);
  }

  // ----- what the members know of completed modifications

  /** The cancellations listed when `r` was told of the drive last: when the drive was added, when it
      joined, or when it was started. */
  ghost function ListedWhenTold(c: Chain, events: seq<Event>, d: Key, r: Key): seq<CompletedModification> {
    if events == [] then []
    else
      var earlier, e := events[..|events| - 1], events[|events| - 1];
      NowListed(Run(c, earlier), e, d, r, ListedWhenTold(c, earlier, d, r))
  }

  ghost function NowListed(s: Chain, e: Event, d: Key, r: Key,
                           before: seq<CompletedModification>): seq<CompletedModification> {
    if e.AddDriveEvent? && e.d == d then []
    else if e == AddReplicatorEvent(d, r) || (e == StartEvent(r) && r !in s.mail)
      then s.Drive(d).driveRequest.completedModifications
    else before
  }

  /** Nothing but the loss of the drive changes what a view holds of the list. */
  lemma {:induction false} CompletedKept(d: Key, view: Option<View>, log: seq<Message>)
    requires view.Some? && forall m :: m in log ==> m.Drive() != d || !m.RemoveDrive?
    ensures ReceiveAll(d, view, log).Some? && ReceiveAll(d, view, log).value.completed == view.value.completed
    decreases |log|
  {
    if log == [] {
    } else {
      assert log[0] in log;
      CompletedKept(d, Receive(d, view, log[0]), log[1..]);
    }
  }

  lemma MembersAreNotRemoved(c: Chain, e: Event, d: Key, r: Key)
    requires WellFormed(c) && Addressed(e) && r in Step(c, e).Members(d)
    ensures forall m :: m in Outgoing(c, e, r) ==> m.Drive() != d || !m.RemoveDrive?
  {
    if e.AddReplicatorEvent? {
      assert WellFormedDrive(e.d, c.Drive(e.d));
      var di := Joined(c.Drive(e.d), e.replicator);
      forall m | m in Modifies(e.d, di.pendingModifications) ensures !m.RemoveDrive? {}
    }
  }

  /** The drive is new to a replicator that becomes a member. */
  lemma CompletedWhenNew(c: Chain, e: Event, d: Key, view: Option<View>, r: Key)
    requires WellFormed(c) && view.None? && r !in c.Members(d) && r in Step(c, e).Members(d)
    requires e.AddDriveEvent? || e.AddReplicatorEvent?
    ensures var after := ReceiveAll(d, view, Outgoing(c, e, r));
            after.Some? && after.value.completed ==
                           if e.AddDriveEvent? then [] else c.Drive(d).driveRequest.completedModifications
  {
    if e.AddDriveEvent? {
      ReceiveOne(d, view, Outgoing(c, e, r)[0]);
    } else {
      assert WellFormedDrive(d, c.Drive(d));
      var di := Joined(c.Drive(d), r);
      var q := di.driveRequest;
      ReceiveReplay(d, q.(modifyDonatorShard := Without(q.modifyDonatorShard, r),
                          modifyRecipientShard := Without(q.modifyRecipientShard, r)), di, false);
    }
  }

  lemma CompletedWhenStarted(c: Chain, d: Key, r: Key)
    requires WellFormed(c) && r in c.Members(d)
    ensures var view := ViewOf(d, ReplayDrives(c.drives, c.drives.Keys, r));
            view.Some? && view.value.completed == c.Drive(d).driveRequest.completedModifications
  {
    assert WellFormedDrive(d, c.Drive(d));
    ReceiveReplayDrives(c.drives, c.drives.Keys, r, d, None);
    ReceiveReplay(d, c.Drive(d).driveRequest, c.Drive(d), true);
  }

  /** The view holds exactly this list of completed modifications. */
  ghost predicate HoldsCompleted(view: Option<View>, completed: seq<CompletedModification>) {
    view.Some? && view.value.completed == completed
  }

  lemma {:induction false} CompletedWhenTold(s: Chain, e: Event, d: Key, r: Key, before: seq<CompletedModification>)
    requires WellFormed(s) && Defined(s, e) && (e.AddDriveEvent? ==> e.d !in s.drives) && Addressed(e) && r in s.mail
    requires Knows(ViewOf(d, s.mail[r]), s.Members(d), r) && r in Step(s, e).Members(d)
    requires r in s.Members(d) ==> HoldsCompleted(ViewOf(d, s.mail[r]), before)
    ensures HoldsCompleted(ViewOf(d, Step(s, e).mail[r]), NowListed(s, e, d, r, before))
  {
    ViewAfterEvent(s, e, d, r);
    if r in s.Members(d) {
      MembersAreNotRemoved(s, e, d, r);
      CompletedKept(d, ViewOf(d, s.mail[r]), Outgoing(s, e, r));
    } else {
      NewMembers(s, e, d, r);
      CompletedWhenNew(s, e, d, ViewOf(d, s.mail[r]), r);
    }
  }

  lemma CompletedAfter(s: Chain, e: Event, d: Key, r: Key, before: seq<CompletedModification>)
    requires WellFormed(s) && Defined(s, e) && (e.AddDriveEvent? ==> e.d !in s.drives)
    requires r in Step(s, e).mail && r in Step(s, e).Members(d)
    requires r in s.mail ==> Knows(ViewOf(d, s.mail[r]), s.Members(d), r)
    requires r in s.mail && r in s.Members(d) ==> HoldsCompleted(ViewOf(d, s.mail[r]), before)
    ensures HoldsCompleted(ViewOf(d, Step(s, e).mail[r]), NowListed(s, e, d, r, before))
  {
    if r !in s.mail {
      CompletedWhenStarted(s, d, r);
    } else if Addressed(e) {
      CompletedWhenTold(s, e, d, r, before);
    }
  }

  lemma NewMembers(s: Chain, e: Event, d: Key, r: Key)
    requires r !in s.Members(d) && r in Step(s, e).Members(d)
    ensures (e.AddDriveEvent? && e.d == d) || e == AddReplicatorEvent(d, r)
  {
  }

  /** In every reachable state a running member has of the completed modifications exactly those listed when
      it was told of the drive last: it is not told of later ones. */
  lemma {:induction false} CompletedAsTold(c: Chain, events: seq<Event>, d: Key, r: Key)
    requires Initial(c) && DefinedRun(c, events) && FreshDrives(c, events)
    requires r in Run(c, events).mail && r in Run(c, events).Members(d)
    ensures HoldsCompleted(ViewOf(d, Run(c, events).mail[r]), ListedWhenTold(c, events, d, r))
  {
    if events == [] {
    } else {
      var earlier, e := events[..|events| - 1], events[|events| - 1];
      var s := Run(c, earlier);
      PrefixRuns(c, events);
      FreshDrivesPrefix(c, events);
      RunWellFormed(c, earlier);
      if r in s.mail {
        MembersKnow(c, earlier, d, r);
        if r in s.Members(d) {
          CompletedAsTold(c, earlier, d, r);
        }
      }
      CompletedAfter(s, e, d, r, ListedWhenTold(c, earlier, d, r));
    }
  }
}
