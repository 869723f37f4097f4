/** Drives do not interfere: what a run leaves of one drive is what its own events alone leave. */
module Isolation {
  import opened Basics
  import opened Protocol
  import opened Replica
  import opened Chain
  import opened Convergence

  /** The event is the drive's own, or starts or stops a replicator. */
  predicate Concerns(e: Event, d: Key) {
    e.Subject() == None || e.Subject() == Some(d)
  }

  /** The run of one drive's own events; replicators still start and stop. */
  function Own(events: seq<Event>, d: Key): seq<Event> {
    if events == [] then []
    else
      var e := events[|events| - 1];
      Own(events[..|events| - 1], d) + (if Concerns(e, d) then [e] else [])
  }

  /** The hash under which an event writes to the maps shared by all drives. */
  function SharedHash(e: Event): Option<Hash> {
    match e
    case ApprovalReadyEvent(_, info) => Some(info.modifyTransactionHash)
    case SingleApprovalReadyEvent(_, info) => Some(info.modifyTransactionHash)
    case VerificationReadyEvent(info) => Some(info.tx)
    case _ => None
  }

  /** No other drive's event uses hash `h`. */
  ghost predicate OnlyOn(events: seq<Event>, d: Key, h: Hash) {
    forall e :: e in events && SharedHash(e) == Some(h) ==> e.Subject() == Some(d)
  }

  /** Hashes of this drive's verification results are used by no other drive. */
  ghost predicate UniqueVerifications(events: seq<Event>, d: Key) {
    forall e :: e in events && e.VerificationReadyEvent? && e.verifyInfo.driveKey == d ==>
      OnlyOn(events, d, e.verifyInfo.tx)
  }

  ghost predicate SameEntry<T(!new)>(m: map<Hash, T>, n: map<Hash, T>, h: Hash) {
    (h in m <==> h in n) && (h in m ==> m[h] == n[h])
  }

  /** The two states hold the same of drive `d` and of hash `h`. */
  ghost predicate SameEntries(s: Chain, t: Chain, h: Hash) {
    SameEntry(s.rootHashes, t.rootHashes, h) && SameEntry(s.sizes, t.sizes, h) && SameEntry(s.verified, t.verified, h)
  }

  lemma OnlyOnPrefix(events: seq<Event>, d: Key, h: Hash)
    requires events != [] && OnlyOn(events, d, h)
    ensures OnlyOn(events[..|events| - 1], d, h)
  {
    assert forall e :: e in events[..|events| - 1] ==> e in events;
  }

  /** The drive's record never depends on what happens to other drives. */
  lemma {:induction false} DriveIsolated(c: Chain, events: seq<Event>, d: Key)
    requires Initial(c)
    ensures var s, t := Run(c, events), Run(c, Own(events, d));
            && s.Drive(d) == t.Drive(d) && s.addrList == t.addrList && s.mail.Keys == t.mail.Keys
            && (forall k :: k in t.drives ==> k == d)
  {
    if events == [] {
    } else {
      var earlier, e := events[..|events| - 1], events[|events| - 1];
      DriveIsolated(c, earlier, d);
      OwnRun(c, events, d);
      if Concerns(e, d) {
        SameStep(Run(c, earlier), Run(c, Own(earlier, d)), e, d);
      } else {
        OtherStep(Run(c, earlier), e, d);
      }
    }
  }

  lemma OwnRun(c: Chain, events: seq<Event>, d: Key)
    requires events != []
    ensures var earlier, e := events[..|events| - 1], events[|events| - 1];
            var t := Run(c, Own(earlier, d));
            Run(c, Own(events, d)) == if Concerns(e, d) then Step(t, e) else t
  {
    var earlier, e := events[..|events| - 1], events[|events| - 1];
    if Concerns(e, d) {
      assert Own(events, d)[..|Own(events, d)| - 1] == Own(earlier, d);
    } else {
      assert Own(events, d) == Own(earlier, d);
    }
  }

  lemma OtherStep(s: Chain, e: Event, d: Key)
    requires !Concerns(e, d)
    ensures var t := Step(s, e); t.Drive(d) == s.Drive(d) && t.addrList == s.addrList && t.mail.Keys == s.mail.Keys
  {
  }

  lemma SameStep(s: Chain, t: Chain, e: Event, d: Key)
    requires s.Drive(d) == t.Drive(d) && s.addrList == t.addrList && s.mail.Keys == t.mail.Keys
    requires Concerns(e, d)
    ensures Step(s, e).Drive(d) == Step(t, e).Drive(d) && Step(s, e).mail.Keys == Step(t, e).mail.Keys
    ensures forall k :: k in Step(t, e).drives ==> k in t.drives || k == d
  {
  }

  /** So do its entries in the shared maps, if no other drive uses its hashes. */
  lemma {:induction false} EntriesIsolated(c: Chain, events: seq<Event>, d: Key, h: Hash)
    requires Initial(c) && OnlyOn(events, d, h)
    ensures SameEntries(Run(c, events), Run(c, Own(events, d)), h)
  {
    if events == [] {
    } else {
      var earlier, e := events[..|events| - 1], events[|events| - 1];
      OnlyOnPrefix(events, d, h);
      EntriesIsolated(c, earlier, d, h);
      DriveIsolated(c, earlier, d);
      assert e in events;
      OwnRun(c, events, d);
      if Concerns(e, d) {
        SameEntriesStep(Run(c, earlier), Run(c, Own(earlier, d)), e, d, h);
      } else {
        OtherEntriesStep(Run(c, earlier), e, h);
      }
    }
  }

  lemma OtherEntriesStep(s: Chain, e: Event, h: Hash)
    requires SharedHash(e) != Some(h)
    ensures SameEntries(Step(s, e), s, h)
  {
  }

  lemma SameEntriesStep(s: Chain, t: Chain, e: Event, d: Key, h: Hash)
    requires s.Drive(d) == t.Drive(d) && SameEntries(s, t, h)
    requires Concerns(e, d)
    ensures SameEntries(Step(s, e), Step(t, e), h)
  {
    if SharedHash(e) == Some(h) {
      assert s.Sizes(h) == t.Sizes(h);
    } else {
      OtherEntriesStep(s, e, h);
      OtherEntriesStep(t, e, h);
    }
  }

  /** So does what every running replicator makes of the drive. */
  lemma {:induction false} ViewsIsolated(c: Chain, events: seq<Event>, d: Key, r: Key)
    requires Initial(c) && DefinedRun(c, events) && UniqueVerifications(events, d)
    requires r in Run(c, events).mail
    ensures r in Run(c, Own(events, d)).mail
    ensures ViewOf(d, Run(c, events).mail[r]) == ViewOf(d, Run(c, Own(events, d)).mail[r])
  {
    DriveIsolated(c, events, d);
    if events == [] {
    } else {
      var earlier, e := events[..|events| - 1], events[|events| - 1];
      var s, t := Run(c, earlier), Run(c, Own(earlier, d));
      PrefixRuns(c, events);
      RunWellFormed(c, earlier);
      DriveIsolated(c, earlier, d);
      UniquePrefix(events, d);
      OwnRun(c, events, d);
      if r in s.mail {
        ViewsIsolated(c, earlier, d, r);
      }
      if Concerns(e, d) {
        if e.VerificationReadyEvent? {
          assert e in events;
          OnlyOnPrefix(events, d, e.verifyInfo.tx);
          EntriesIsolated(c, earlier, d, e.verifyInfo.tx);
        }
        SameViewStep(s, t, e, d, r);
      } else {
        ReceiveAllAppend(d, None, s.mail[r], Outgoing(s, e, r));
        OtherDriveUntouched(s, e, d, ViewOf(d, s.mail[r]), r);
      }
    }
  }

  lemma UniquePrefix(events: seq<Event>, d: Key)
    requires UniqueVerifications(events, d) && events != []
    ensures UniqueVerifications(events[..|events| - 1], d)
  {
    var earlier := events[..|events| - 1];
    forall e | e in earlier && e.VerificationReadyEvent? && e.verifyInfo.driveKey == d
      ensures OnlyOn(earlier, d, e.verifyInfo.tx)
    {
      assert e in events;
      OnlyOnPrefix(events, d, e.verifyInfo.tx);
    }
  }

  lemma StartedView(s: Chain, d: Key, r: Key)
    requires (forall k :: k in s.drives ==> WellFormedDrive(k, s.drives[k])) && WellFormedDrive(d, s.Drive(d))
    ensures ViewOf(d, ReplayDrives(s.drives, s.drives.Keys, r)) ==
            if r in s.Members(d)
            then ReceiveAll(d, None, Replay(d, s.Drive(d).driveRequest, s.Drive(d), true)) else None
  {
    ReceiveReplayDrives(s.drives, s.drives.Keys, r, d, None);
  }

  lemma SameMessages(s: Chain, t: Chain, e: Event, d: Key, r: Key)
    requires s.Drive(d) == t.Drive(d) && s.addrList == t.addrList
    requires e.Subject() == Some(d) && !e.SingleApprovalReadyEvent?
    requires e.VerificationReadyEvent? ==> (e.verifyInfo.tx in s.verified <==> e.verifyInfo.tx in t.verified)
    ensures Outgoing(s, e, r) == Outgoing(t, e, r)
  {
  }

  lemma {:induction false} SameViewStep(s: Chain, t: Chain, e: Event, d: Key, r: Key)
    requires WellFormed(s) && s.Drive(d) == t.Drive(d) && s.addrList == t.addrList && s.mail.Keys == t.mail.Keys
    requires forall k :: k in t.drives ==> k == d
    requires Concerns(e, d)
    requires e.VerificationReadyEvent? ==> (e.verifyInfo.tx in s.verified <==> e.verifyInfo.tx in t.verified)
    requires r in s.mail ==> ViewOf(d, s.mail[r]) == ViewOf(d, t.mail[r])
    requires r in Step(s, e).mail && r in Step(t, e).mail
    ensures ViewOf(d, Step(s, e).mail[r]) == ViewOf(d, Step(t, e).mail[r])
  {
    MailAfter(s, e, r);
    MailAfter(t, e, r);
    if r !in s.mail {
      SameViewStarted(s, t, d, r);
    } else if Addressed(e) {
      SameViewTold(s, t, e, d, r, ViewOf(d, s.mail[r]));
      ReceiveAllAppend(d, None, s.mail[r], Outgoing(s, e, r));
      ReceiveAllAppend(d, None, t.mail[r], Outgoing(t, e, r));
    }
  }

  lemma MailAfter(s: Chain, e: Event, r: Key)
    requires r in Step(s, e).mail
    ensures Step(s, e).mail[r] == (if r !in s.mail then ReplayDrives(s.drives, s.drives.Keys, r)
                                   else if Addressed(e) then s.mail[r] + Outgoing(s, e, r)
                                   else s.mail[r])
  {
  }

  lemma SameViewStarted(s: Chain, t: Chain, d: Key, r: Key)
    requires WellFormed(s) && s.Drive(d) == t.Drive(d) && forall k :: k in t.drives ==> k == d
    ensures ViewOf(d, ReplayDrives(s.drives, s.drives.Keys, r)) == ViewOf(d, ReplayDrives(t.drives, t.drives.Keys, r))
  {
    assert WellFormedDrive(d, s.Drive(d));
    StartedView(s, d, r);
    StartedView(t, d, r);
  }

  lemma SameViewTold(s: Chain, t: Chain, e: Event, d: Key, r: Key, view: Option<View>)
    requires s.Drive(d) == t.Drive(d) && s.addrList == t.addrList && e.Subject() == Some(d)
    requires e.VerificationReadyEvent? ==> (e.verifyInfo.tx in s.verified <==> e.verifyInfo.tx in t.verified)
    ensures ReceiveAll(d, view, Outgoing(s, e, r)) == ReceiveAll(d, view, Outgoing(t, e, r))
  {
    if e.SingleApprovalReadyEvent? {
      SingleApprovalUnseen(s, e, r, view);
      SingleApprovalUnseen(t, e, r, view);
    } else {
      SameMessages(s, t, e, d, r);
    }
  }

  /** Notice of a single approval changes no view. */
  lemma SingleApprovalUnseen(s: Chain, e: Event, r: Key, view: Option<View>)
    requires e.SingleApprovalReadyEvent?
    ensures ReceiveAll(e.info.driveKey, view, Outgoing(s, e, r)) == view
  {
    if Outgoing(s, e, r) != [] {
      ReceiveOne(e.info.driveKey, view, Outgoing(s, e, r)[0]);
    }
  }
}
