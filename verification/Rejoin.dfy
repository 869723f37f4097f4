/** When a replicator joins, the ledger still has the layout it recorded for it if it was a member
    before, while its own counters start from nothing. Exactly when its reports are bound to pass. */
module Rejoin {
  import opened Basics
  import opened Protocol
  import opened Chain
  import opened HonestRuns
  import opened Membership
  import opened Opinions
  import opened Quorum
  import opened Uploads

  // ----- the least share a counter can get

  /** Everything goes to `x`. */
  ghost function AllTo(keys: set<Key>, x: Key, target: nat): map<Key, nat> {
    map k | k in keys :: if k == x then target else 0
  }

  lemma {:induction false} SumZeros(m: map<Key, nat>)
    requires forall k :: k in m ==> m[k] == 0
    ensures Sum(m) == 0
    decreases |m|
  {
    if m == map[] {
    } else {
      var k :| k in m;
      SumWithout(m, k);
      SumZeros(m - {k});
    }
  }

  lemma SumAllTo(keys: set<Key>, x: Key, target: nat)
    requires x in keys
    ensures Sum(AllTo(keys, x, target)) == target
  {
    var m := AllTo(keys, x, target);
    SumWithout(m, x);
    SumZeros(m - {x});
  }

  /** When only `x` was heard from, it is given all. */
  lemma SkewedTraffic(shard: seq<Key>, client: Key, x: Key, target: nat)
    requires x in shard || x == client
    ensures var current := Current(shard, client, map[x := 1]);
            IsNormalized(current, AllTo(current.Keys, x, target), client, target)
  {
    var current := Current(shard, client, map[x := 1]);
    assert current == AllTo(current.Keys, x, 1);
    SumAllTo(current.Keys, x, 1);
    SumAllTo(current.Keys, x, target);
  }

  /** Any uploader but the client can get nothing; the client, too, unless it is the only one. */
  function LeastShare(shard: seq<Key>, client: Key, target: nat, k: Key): nat {
    if k == client && (forall x :: x in shard ==> x == client) then target else 0
  }

  lemma GetsLeastShare(shard: seq<Key>, client: Key, traffic: map<Key, nat>, n: map<Key, nat>, target: nat, k: Key)
    requires IsNormalized(Current(shard, client, traffic), n, client, target) && k in n
    ensures LeastShare(shard, client, target, k) <= n[k]
  {
    if k == client && (forall x :: x in shard ==> x == client) {
      SumWithout(n, client);
      assert n - {client} == map[];
    }
  }

  lemma LeastShareOccurs(shard: seq<Key>, client: Key, target: nat, k: Key) returns (x: Key)
    requires k in shard || k == client
    ensures x in shard || x == client
    ensures AllTo(Current(shard, client, map[x := 1]).Keys, x, target)[k] == LeastShare(shard, client, target, k)
  {
    if k != client {
      x := client;
    } else if y :| y in shard && y != client {
      x := y;
    } else {
      x := client;
    }
  }

  /** The new counters pass against the recorded layout. */
  ghost predicate Fits(known: seq<KeyAndBytes>, n: map<Key, nat>) {
    forall e :: e in Layout(n) ==> BytesOf(known, e.key).Some? ==> BytesOf(known, e.key).value <= e.uploadedBytes
  }

  lemma FitsIff(known: seq<KeyAndBytes>, n: map<Key, nat>)
    ensures Fits(known, n) <==> forall k :: k in n ==> Counter(known, k) <= n[k]
  {
    LayoutEntries(n);
    if Fits(known, n) {
      forall k | k in n ensures Counter(known, k) <= n[k] {
        assert KeyAndBytes(k, n[k]) in Layout(n);
      }
    }
  }

  /** What a new controller can come to pass against the recorded layout, whatever its traffic was. */
  ghost predicate BoundToFit(known: seq<KeyAndBytes>, shard: seq<Key>, client: Key, target: nat) {
    forall traffic, n :: IsNormalized(Current(shard, client, traffic), n, client, target) ==> Fits(known, n)
  }

  ghost predicate NothingToLose(known: seq<KeyAndBytes>, shard: seq<Key>, client: Key, target: nat) {
    forall k :: k in shard || k == client ==> Counter(known, k) <= LeastShare(shard, client, target, k)
  }

  /** The first opinion is bound to pass exactly when no recorded counter of the shard or the client
      exceeds the least share it can get. */
  lemma BoundToFitIff(known: seq<KeyAndBytes>, shard: seq<Key>, client: Key, target: nat)
    ensures BoundToFit(known, shard, client, target) <==> NothingToLose(known, shard, client, target)
  {
    if BoundToFit(known, shard, client, target) {
      forall k | k in shard || k == client ensures Counter(known, k) <= LeastShare(shard, client, target, k) {
        var x := LeastShareOccurs(shard, client, target, k);
        var n := AllTo(Current(shard, client, map[x := 1]).Keys, x, target);
        SkewedTraffic(shard, client, x, target);
        FitsIff(known, n);
        assert k in n;
      }
    }
    if NothingToLose(known, shard, client, target) {
      forall traffic, n | IsNormalized(Current(shard, client, traffic), n, client, target) ensures Fits(known, n) {
        forall k | k in n ensures Counter(known, k) <= n[k] {
          GetsLeastShare(shard, client, traffic, n, target, k);
        }
        FitsIff(known, n);
      }
    }
  }

  // ----- the first report of a replicator that has just joined

  /** The member has counted nothing yet. */
  ghost predicate CountsFromNothing(t: Honest, d: Key, r: Key) {
    && r in t.chain.Members(d) && r in t.team && r !in t.ready
    && t.team[r] == NewAccounts(Cumulative(t.chain, d))
  }

  /** And it has a last approval to catch up with. */
  ghost predicate JustJoined(t: Honest, d: Key, r: Key) {
    && CountsFromNothing(t, d, r)
    && t.chain.Drive(d).lastApprovedModification.Some?
    && t.chain.Sizes(LastHash(t.chain, d)) == {Cumulative(t.chain, d)}
  }

  ghost function FirstReport(s: Chain, d: Key, r: Key, a: Accounts): (mv: Move)
    requires s.Drive(d).lastApprovedModification.Some?
    ensures mv.ReportSingle? && mv.reporter == r
  {
    ReportSingle(r, ApprovalTransactionInfo(d, LastHash(s, d), 0, [SingleOpinion(r, Layout(a.notApproved.uploads))]))
  }

  /** Whatever its traffic, the single report the replicator makes after catching up passes. */
  ghost predicate FirstReportPasses(t: Honest, d: Key, client: Key, r: Key, shard: seq<Key>)
    requires t.chain.Drive(d).lastApprovedModification.Some?
  {
    forall traffic, updated :: PassesCatchingUp(t, d, client, r, shard, traffic, updated)
  }

  ghost predicate PassesCatchingUp(t: Honest, d: Key, client: Key, r: Key, shard: seq<Key>, traffic: map<Key, nat>,
                                   updated: Accounts)
    requires t.chain.Drive(d).lastApprovedModification.Some?
  {
    Possible(t, d, client, CatchUp(r, shard, traffic, updated)) ==>
      Passes(t.chain, ReportEvent(FirstReport(t.chain, d, r, updated)))
  }

  /** A new controller's update is the normalized traffic. */
  lemma FirstUpdate(b: Accounts, client: Key, id: Hash, shard: seq<Key>, total: nat, traffic: map<Key, nat>)
    ensures Updates(NewAccounts(total), b, client, id, shard, 0, traffic) <==>
            && b == NewAccounts(total).(notApproved := CumulativeUploads(id, b.notApproved.uploads))
            && IsNormalized(Current(shard, client, traffic), b.notApproved.uploads, client, total)
  {
    var n, current := b.notApproved.uploads, Current(shard, client, traffic);
    if n.Keys == current.Keys {
      forall k | k in n
        ensures CounterUpdated(map[], n, current, total, k) <==> IsShare(n[k], current[k], total, Sum(current))
      {
      }
    }
  }

  /** The verdict on a member's only opinion about the last approval. */
  lemma VerdictOnOne(di: DriveInfo, info: ApprovalTransactionInfo, o: SingleOpinion)
    requires info.opinions == [o] && o.replicatorKey in di.driveRequest.fullReplicatorList
    requires di.lastApprovedModification.Some?
    requires di.lastApprovedModification.value.modifyTransactionHash == info.modifyTransactionHash
    ensures SingleApprovalVerdict(di, info) == if Admissible(di.uploads, o) then Counted else SingleUploadFault
  {
    var next := di.uploads[o.replicatorKey := o.uploadLayout];
    assert info.opinions[1..] == [];
    assert Record(next, []) == Recorded(next, true);
  }

  lemma TotalsOne(o: SingleOpinion)
    ensures Totals([o]) == {Total(o.uploadLayout)}
  {
    assert o in [o];
  }

  /** Such an opinion, if it has the recorded total, passes exactly when it is admissible. */
  lemma OnePassesIff(s: Chain, info: ApprovalTransactionInfo, reporter: Key, o: SingleOpinion)
    requires info.opinions == [o] && o.replicatorKey in s.Members(info.driveKey)
    requires s.Drive(info.driveKey).lastApprovedModification.Some?
    requires LastHash(s, info.driveKey) == info.modifyTransactionHash
    requires s.Sizes(info.modifyTransactionHash) == {Total(o.uploadLayout)}
    ensures Passes(s, SingleApprovalReadyEvent(reporter, info)) <==> Admissible(s.Drive(info.driveKey).uploads, o)
  {
    TotalsOne(o);
    VerdictOnOne(s.Drive(info.driveKey), info, o);
    assert s.Sizes(info.modifyTransactionHash) + Totals(info.opinions) == {Total(o.uploadLayout)};
  }

  lemma FirstReportPassesIfFits(t: Honest, d: Key, r: Key, a: Accounts)
    requires JustJoined(t, d, r) && Sum(a.notApproved.uploads) == Cumulative(t.chain, d)
    ensures Passes(t.chain, ReportEvent(FirstReport(t.chain, d, r, a))) <==>
            (r in t.chain.Drive(d).uploads ==> Fits(t.chain.Drive(d).uploads[r], a.notApproved.uploads))
  {
    LayoutEntries(a.notApproved.uploads);
    OnePassesIff(t.chain, FirstReport(t.chain, d, r, a).info, r, SingleOpinion(r, Layout(a.notApproved.uploads)));
  }

  ghost function NewlyUpdated(total: nat, id: Hash, n: map<Key, nat>): Accounts {
    NewAccounts(total).(notApproved := CumulativeUploads(id, n))
  }

  /** What a replicator that has just joined can come to by catching up. */
  lemma CatchesUpIff(t: Honest, d: Key, client: Key, r: Key, shard: seq<Key>, traffic: map<Key, nat>, b: Accounts)
    requires JustJoined(t, d, r) && Cumulative(t.chain, d) > 0
    ensures var total, n := Cumulative(t.chain, d), b.notApproved.uploads;
            Possible(t, d, client, CatchUp(r, shard, traffic, b)) <==>
            b == NewlyUpdated(total, LastHash(t.chain, d), n)
            && IsNormalized(Current(shard, client, traffic), n, client, total)
  {
    FirstUpdate(b, client, LastHash(t.chain, d), shard, Cumulative(t.chain, d), traffic);
  }

  lemma PassesMeansFits(t: Honest, d: Key, client: Key, r: Key, shard: seq<Key>)
    requires JustJoined(t, d, r) && Cumulative(t.chain, d) > 0 && FirstReportPasses(t, d, client, r, shard)
    requires r in t.chain.Drive(d).uploads
    ensures BoundToFit(t.chain.Drive(d).uploads[r], shard, client, Cumulative(t.chain, d))
  {
    var known, total := t.chain.Drive(d).uploads[r], Cumulative(t.chain, d);
    forall traffic, n | IsNormalized(Current(shard, client, traffic), n, client, total) ensures Fits(known, n) {
      var b := NewlyUpdated(total, LastHash(t.chain, d), n);
      assert PassesCatchingUp(t, d, client, r, shard, traffic, b);
      CatchesUpIff(t, d, client, r, shard, traffic, b);
      FirstReportPassesIfFits(t, d, r, b);
    }
  }

  lemma FitsMeansPasses(t: Honest, d: Key, client: Key, r: Key, shard: seq<Key>)
    requires JustJoined(t, d, r) && Cumulative(t.chain, d) > 0
    requires r in t.chain.Drive(d).uploads ==>
      BoundToFit(t.chain.Drive(d).uploads[r], shard, client, Cumulative(t.chain, d))
    ensures FirstReportPasses(t, d, client, r, shard)
  {
    forall traffic, b ensures PassesCatchingUp(t, d, client, r, shard, traffic, b) {
      CatchesUpIff(t, d, client, r, shard, traffic, b);
      if Possible(t, d, client, CatchUp(r, shard, traffic, b)) {
        FirstReportPassesIfFits(t, d, r, b);
      }
    }
  }

  /** Exactly when the first single report of a joining replicator is bound to pass, for the shard it
      was told: when nothing was recorded for it, or nothing that it can fall short of. */
  lemma FirstReportPassesIff(t: Honest, d: Key, client: Key, r: Key, shard: seq<Key>)
    requires JustJoined(t, d, r) && Cumulative(t.chain, d) > 0
    ensures FirstReportPasses(t, d, client, r, shard) <==>
            (r in t.chain.Drive(d).uploads ==>
               NothingToLose(t.chain.Drive(d).uploads[r], shard, client, Cumulative(t.chain, d)))
  {
    if r in t.chain.Drive(d).uploads {
      BoundToFitIff(t.chain.Drive(d).uploads[r], shard, client, Cumulative(t.chain, d));
      if FirstReportPasses(t, d, client, r, shard) {
        PassesMeansFits(t, d, client, r, shard);
      }
    }
    if r in t.chain.Drive(d).uploads ==>
         NothingToLose(t.chain.Drive(d).uploads[r], shard, client, Cumulative(t.chain, d)) {
      FitsMeansPasses(t, d, client, r, shard);
    }
  }

  lemma FirstReportCanFail(t: Honest, d: Key, client: Key, r: Key, shard: seq<Key>)
    returns (catchUp: Move, report: Move)
    requires JustJoined(t, d, r) && Cumulative(t.chain, d) > 0 && r in t.chain.Drive(d).uploads
    requires !NothingToLose(t.chain.Drive(d).uploads[r], shard, client, Cumulative(t.chain, d))
    ensures catchUp.CatchUp? && catchUp.r == r && catchUp.shard == shard && Possible(t, d, client, catchUp)
    ensures IsReportOf(report, r) && Possible(AfterMove(t, d, catchUp), d, client, report)
    ensures !Passes(AfterMove(t, d, catchUp).chain, ReportEvent(report))
  {
    FirstReportPassesIff(t, d, client, r, shard);
    var traffic, updated :| !PassesCatchingUp(t, d, client, r, shard, traffic, updated);
    catchUp, report := CatchUp(r, shard, traffic, updated), FirstReport(t.chain, d, r, updated);
    ReportIsPossible(t, d, client, catchUp);
  }

  /** The replicator's own single report. */
  predicate IsReportOf(mv: Move, r: Key) {
    mv.ReportSingle? && mv.reporter == r && |mv.info.opinions| == 1 && mv.info.opinions[0].replicatorKey == r
  }

  /** After catching up, the replicator is free to make its single report. */
  lemma ReportIsPossible(t: Honest, d: Key, client: Key, catchUp: Move)
    requires catchUp.CatchUp? && Possible(t, d, client, catchUp)
    ensures AfterMove(t, d, catchUp).chain == t.chain
    ensures Possible(AfterMove(t, d, catchUp), d, client, FirstReport(t.chain, d, catchUp.r, catchUp.updated))
  {
  }

  // ----- with the shards the ledger tells

  /** An update takes the donator shard its replicator was told: in every reachable state one of these. */
  predicate UsesTold(s: Chain, d: Key, mv: Move) {
    match mv
    case Calculate(r, shard, _, _) => IsTold(s.Members(d), r, shard)
    case CatchUp(r, shard, _, _) => IsTold(s.Members(d), r, shard)
    case _ => true
  }

  ghost predicate ToldRun(t: Honest, d: Key, moves: seq<Move>) {
    moves == [] ||
    (var earlier, mv := moves[..|moves| - 1], moves[|moves| - 1];
     ToldRun(t, d, earlier) && UsesTold(HonestRun(t, d, earlier).chain, d, mv))
  }

  /** The moves are possible with the shards told, no assertion has failed, and `r` does not join. */
  ghost predicate GoesOn(t: Honest, d: Key, client: Key, moves: seq<Move>, r: Key) {
    PossibleRun(t, d, client, moves) && ToldRun(t, d, moves) && AllPass(t, d, moves) && Join(r) !in moves
  }

  lemma OneMoveMore(t: Honest, d: Key, client: Key, moves: seq<Move>, mv: Move)
    requires PossibleRun(t, d, client, moves) && ToldRun(t, d, moves) && AllPass(t, d, moves)
    requires var u := HonestRun(t, d, moves);
             Possible(u, d, client, mv) && UsesTold(u.chain, d, mv)
               && (IsReport(mv) ==> Passes(u.chain, ReportEvent(mv)))
    ensures var more := moves + [mv];
            && PossibleRun(t, d, client, more) && ToldRun(t, d, more) && AllPass(t, d, more)
            && HonestRun(t, d, more) == AfterMove(HonestRun(t, d, moves), d, mv)
  {
    var more := moves + [mv];
    assert more[..|more| - 1] == moves && more[|more| - 1] == mv;
  }

  lemma GoesOnWith(t: Honest, d: Key, client: Key, moves: seq<Move>, r: Key, mv: Move)
    requires GoesOn(t, d, client, moves, r) && Possible(HonestRun(t, d, moves), d, client, mv)
    requires !IsReport(mv) && mv != Join(r) && UsesTold(HonestRun(t, d, moves).chain, d, mv)
    ensures GoesOn(t, d, client, moves + [mv], r)
    ensures HonestRun(t, d, moves + [mv]) == AfterMove(HonestRun(t, d, moves), d, mv)
  {
    OneMoveMore(t, d, client, moves, mv);
  }

  /** After such moves: of what the next report records, the opinions of `r` are admissible. */
  ghost predicate AdmitsNext(t: Honest, d: Key, client: Key, r: Key, moves: seq<Move>, mv: Move) {
    GoesOn(t, d, client, moves, r) && IsReport(mv) && Possible(HonestRun(t, d, moves), d, client, mv)
    && Records(HonestRun(t, d, moves).chain, ReportEvent(mv)) ==>
      forall o :: o in mv.info.opinions && o.replicatorKey == r ==>
        Admissible(HonestRun(t, d, moves).chain.Drive(d).uploads, o)
  }

  /** Whoever else joins or leaves, and as long as no assertion has failed. */
  ghost predicate BoundToPass(t: Honest, d: Key, client: Key, r: Key) {
    forall moves, mv :: AdmitsNext(t, d, client, r, moves, mv)
  }

  lemma CoveredOpinionIsAdmissible(t: Honest, d: Key, client: Key, mv: Move, o: SingleOpinion)
    requires InStep(t, d) && Possible(t, d, client, mv) && IsReport(mv) && o in mv.info.opinions
    requires Records(t.chain, ReportEvent(mv)) && Covered(t, d, o.replicatorKey)
    ensures Admissible(t.chain.Drive(d).uploads, o)
  {
    var uploads, a := t.chain.Drive(d).uploads, t.team[o.replicatorKey];
    if mv.Report? {
      if o.replicatorKey in uploads {
        BelowGrows(uploads[o.replicatorKey], a.approved.uploads, a.notApproved.uploads);
      }
      BelowIsAdmissible(uploads, o.replicatorKey, a.notApproved.uploads);
      assert o == SingleOpinion(o.replicatorKey, Layout(a.notApproved.uploads));
    } else {
      BelowIsAdmissible(uploads, o.replicatorKey, a.approved.uploads);
      assert o == SingleOpinion(o.replicatorKey, Layout(a.approved.uploads));
    }
  }

  lemma CoveredIsBoundToPass(t: Honest, d: Key, client: Key, r: Key)
    requires InStep(t, d) && Covered(t, d, r)
    ensures BoundToPass(t, d, client, r)
  {
    forall moves, mv: Move ensures AdmitsNext(t, d, client, r, moves, mv) {
      var u := HonestRun(t, d, moves);
      if GoesOn(t, d, client, moves, r) && IsReport(mv) && Possible(u, d, client, mv)
         && Records(u.chain, ReportEvent(mv)) {
        StaysInStep(t, d, client, moves);
        RunCovers(t, d, client, moves, r);
        forall o | o in mv.info.opinions && o.replicatorKey == r ensures Admissible(u.chain.Drive(d).uploads, o) {
          CoveredOpinionIsAdmissible(u, d, client, mv, o);
        }
      }
    }
  }

  // ----- how a report can fail

  /** No counter exceeds its layout's total. */
  lemma CounterWithin(layout: seq<KeyAndBytes>, k: Key)
    ensures Counter(layout, k) <= Total(layout)
  {
    if layout == [] {
    } else {
      CounterWithin(layout[1..], k);
    }
  }

  /** A key above all in the list and two others. */
  lemma FreshKey(list: seq<Key>, a: Key, b: Key) returns (x: Key)
    ensures x !in list && x != a && x != b
    ensures forall k :: k in list ==> k < x
  {
    if list == [] {
      x := a + b + 1;
    } else {
      var y := FreshKey(list[1..], a, b);
      x := if list[0] >= y then list[0] + y + a + b + 1 else y;
      assert list == [list[0]] + list[1..];
    }
  }

  /** A replicator that joins counts from nothing, and has just joined if there is a last approval. */
  lemma JoinsFromNothing(u: Honest, d: Key, r: Key)
    requires InStep(u, d) && r !in u.chain.Members(d)
    ensures var t := AfterMove(u, d, Join(r));
            && InStep(t, d) && CountsFromNothing(t, d, r)
            && t.chain.Members(d) == u.chain.Members(d) + [r] && Cumulative(t.chain, d) == Cumulative(u.chain, d)
            && t.chain.Drive(d).uploads == u.chain.Drive(d).uploads
            && (u.chain.Drive(d).uploads != map[] ==> JustJoined(t, d, r))
  {
    JoinKeeps(u, d, r);
  }

  /** Others joining and leaving do not change that, nor what is recorded. */
  lemma OthersMove(t: Honest, d: Key, r: Key, mv: Move)
    requires CountsFromNothing(t, d, r) && ((mv.Join? && mv.r != r) || (mv.Leave? && mv.r != r))
    ensures var u := AfterMove(t, d, mv);
            && CountsFromNothing(u, d, r) && Cumulative(u.chain, d) == Cumulative(t.chain, d)
            && u.chain.Drive(d).uploads == t.chain.Drive(d).uploads
            && u.chain.Members(d) == if mv.Join? then t.chain.Members(d) + [mv.r] else Without(t.chain.Members(d), mv.r)
  {
  }

  /** Whether `shard` is what `r` was told after the moves that followed its joining: itself is in it only
      once somebody has left since the last join. */
  predicate ToldAfter(moves: seq<Move>, list: seq<Key>, r: Key, shard: seq<Key>) {
    shard == if moves != [] && moves[|moves| - 1].Leave? then list else Without(list, r)
  }

  /** The counter of `k` can come to nothing with the shard. */
  ghost predicate Exposes(shard: seq<Key>, client: Key, k: Key) {
    if k == client then exists y :: y in shard && y != client else k in shard
  }

  lemma ExposedHasNoShare(shard: seq<Key>, client: Key, target: nat, k: Key)
    requires Exposes(shard, client, k)
    ensures (k in shard || k == client) && LeastShare(shard, client, target, k) == 0
  {
    if k == client {
      var y :| y in shard && y != client;
    }
  }

  /** After moves of others the shard told to `r` exposes the counter of `k`; for `r` nothing has changed. */
  ghost predicate LeadsTo(t: Honest, d: Key, client: Key, r: Key, k: Key, moves: seq<Move>, shard: seq<Key>) {
    && GoesOn(t, d, client, moves, r) && Exposes(shard, client, k)
    && var u := HonestRun(t, d, moves);
       && CountsFromNothing(u, d, r) && Cumulative(u.chain, d) == Cumulative(t.chain, d)
       && u.chain.Drive(d).uploads == t.chain.Drive(d).uploads
       && IsTold(u.chain.Members(d), r, shard) && ToldAfter(moves, u.chain.Members(d), r, shard)
  }

  lemma AfterJoining(t: Honest, d: Key, client: Key, r: Key, k: Key, x: Key)
    requires CountsFromNothing(t, d, r) && x !in t.chain.Members(d)
    requires if k == client then x != client else x == k
    ensures LeadsTo(t, d, client, r, k, [Join(x)], Without(t.chain.Members(d) + [x], r))
  {
    assert GoesOn(t, d, client, [], r) && HonestRun(t, d, []) == t;
    OthersMove(t, d, r, Join(x));
    GoesOnWith(t, d, client, [], r, Join(x));
    assert [] + [Join(x)] == [Join(x)];
    assert x in Without(t.chain.Members(d) + [x], r);
  }

  lemma AfterJoiningAndLeaving(t: Honest, d: Key, client: Key, r: Key, x: Key)
    requires CountsFromNothing(t, d, r) && x !in t.chain.Members(d) && r != client
    ensures LeadsTo(t, d, client, r, r, [Join(x)] + [Leave(x)], Without(t.chain.Members(d) + [x], x))
  {
    var t1 := AfterMove(t, d, Join(x));
    assert GoesOn(t, d, client, [], r) && HonestRun(t, d, []) == t;
    OthersMove(t, d, r, Join(x));
    GoesOnWith(t, d, client, [], r, Join(x));
    assert [] + [Join(x)] == [Join(x)];
    OthersMove(t1, d, r, Leave(x));
    GoesOnWith(t, d, client, [Join(x)], r, Leave(x));
    assert r in Without(t.chain.Members(d) + [x], x);
  }

  lemma ShardToLose(t: Honest, d: Key, client: Key, r: Key, k: Key) returns (moves: seq<Move>, shard: seq<Key>)
    requires CountsFromNothing(t, d, r)
    ensures LeadsTo(t, d, client, r, k, moves, shard)
  {
    var list := t.chain.Members(d);
    if Exposes(Without(list, r), client, k) {
      moves, shard := [], Without(list, r);
      assert HonestRun(t, d, []) == t;
    } else if k == client || k == r {
      var x := FreshKey(list, client, r);
      if k == client {
        moves, shard := [Join(x)], Without(list + [x], r);
        AfterJoining(t, d, client, r, k, x);
      } else {
        moves, shard := [Join(x)] + [Leave(x)], Without(list + [x], x);
        AfterJoiningAndLeaving(t, d, client, r, x);
      }
    } else {
      moves, shard := [Join(k)], Without(list + [k], r);
      AfterJoining(t, d, client, r, k, k);
    }
  }

  /** A member that counts from nothing, while a positive counter is recorded for it, can catch up, with a
      shard the ledger tells it, so that its single report fails the upload check. */
  lemma CountingFromNothingCanFail(t: Honest, d: Key, client: Key, r: Key)
    returns (moves: seq<Move>, catchUp: Move, report: Move)
    requires InStep(t, d) && CountsFromNothing(t, d, r) && !SafeJoin(t.chain, d, r)
    ensures GoesOn(t, d, client, moves + [catchUp], r) && catchUp.CatchUp? && catchUp.r == r
    ensures ToldAfter(moves, HonestRun(t, d, moves).chain.Members(d), r, catchUp.shard)
    ensures var u := HonestRun(t, d, moves + [catchUp]);
            IsReportOf(report, r) && Possible(u, d, client, report) && !Passes(u.chain, ReportEvent(report))
  {
    var known, total := t.chain.Drive(d).uploads[r], Cumulative(t.chain, d);
    var k :| Counter(known, k) > 0;
    CounterWithin(known, k);
    var shard;
    moves, shard := ShardToLose(t, d, client, r, k);
    var u := HonestRun(t, d, moves);
    StaysInStep(t, d, client, moves);
    assert u.chain.Drive(d).uploads != map[];
    ExposedHasNoShare(shard, client, total, k);
    assert !NothingToLose(known, shard, client, total);
    catchUp, report := FirstReportCanFail(u, d, client, r, shard);
    GoesOnWith(t, d, client, moves, r, catchUp);
  }

  // ----- joining

  /** The replicator catches up, and then its single report fails. */
  ghost predicate FailsAfter(t: Honest, d: Key, client: Key, r: Key, catchUp: Move, report: Move) {
    && catchUp.CatchUp? && catchUp.r == r && Possible(t, d, client, catchUp)
    && IsReportOf(report, r) && Possible(AfterMove(t, d, catchUp), d, client, report)
    && !Passes(AfterMove(t, d, catchUp).chain, ReportEvent(report))
  }

  lemma FirstReportFails(t: Honest, d: Key, client: Key, r: Key, catchUp: Move)
    requires catchUp.CatchUp? && catchUp.r == r && Possible(t, d, client, catchUp)
    requires !Passes(t.chain, ReportEvent(FirstReport(t.chain, d, r, catchUp.updated)))
    ensures FailsAfter(t, d, client, r, catchUp, FirstReport(t.chain, d, r, catchUp.updated))
  {
    ReportIsPossible(t, d, client, catchUp);
  }

  /** A replicator that joins with a positive counter recorded can come to fail the upload check. */
  lemma UnsafeJoinCanFail(u: Honest, d: Key, client: Key, r: Key)
    returns (moves: seq<Move>, catchUp: Move, report: Move)
    requires InStep(u, d) && r !in u.chain.Members(d) && !SafeJoin(u.chain, d, r)
    ensures var t := AfterMove(u, d, Join(r));
            && GoesOn(t, d, client, moves + [catchUp], r) && catchUp.CatchUp? && catchUp.r == r
            && ToldAfter(moves, HonestRun(t, d, moves).chain.Members(d), r, catchUp.shard)
            && var after := HonestRun(t, d, moves + [catchUp]);
               && IsReportOf(report, r) && Possible(after, d, client, report)
               && !Passes(after.chain, ReportEvent(report))
  {
    var t := AfterMove(u, d, Join(r));
    JoinsFromNothing(u, d, r);
    moves, catchUp, report := CountingFromNothingCanFail(t, d, client, r);
  }

  lemma FailingIsInadmissible(t: Honest, d: Key, client: Key, r: Key, report: Move)
    requires InStep(t, d) && IsReportOf(report, r) && Possible(t, d, client, report)
    requires !Passes(t.chain, ReportEvent(report))
    ensures Records(t.chain, ReportEvent(report))
    ensures !Admissible(t.chain.Drive(d).uploads, report.info.opinions[0])
  {
    NextReportPassesIff(t, d, client, report);
  }

  lemma FailingIsNotBound(t: Honest, d: Key, client: Key, r: Key, moves: seq<Move>, report: Move)
    requires InStep(t, d) && GoesOn(t, d, client, moves, r) && IsReportOf(report, r)
    requires Possible(HonestRun(t, d, moves), d, client, report)
    requires !Passes(HonestRun(t, d, moves).chain, ReportEvent(report))
    ensures !BoundToPass(t, d, client, r)
  {
    StaysInStep(t, d, client, moves);
    FailingIsInadmissible(HonestRun(t, d, moves), d, client, r, report);
    assert report.info.opinions[0] in report.info.opinions;
    assert !AdmitsNext(t, d, client, r, moves, report);
  }

  /** Exactly when the opinions of a replicator that joins are bound to be admissible until it leaves, with
      the shards the ledger tells, whoever else joins or leaves, and as long as no assertion has failed:
      when no positive counter is recorded for it. */
  lemma JoinIsSafeIff(t: Honest, d: Key, client: Key, moves: seq<Move>, r: Key)
    requires StartsHonest(t, d) && PossibleRun(t, d, client, moves) && AllPass(t, d, moves)
    requires Possible(HonestRun(t, d, moves), d, client, Join(r))
    ensures var u := HonestRun(t, d, moves);
            BoundToPass(AfterMove(u, d, Join(r)), d, client, r) <==> SafeJoin(u.chain, d, r)
  {
    var u := HonestRun(t, d, moves);
    var joined := AfterMove(u, d, Join(r));
    HonestRunInStep(t, d, client, moves);
    JoinKeeps(u, d, r);
    if SafeJoin(u.chain, d, r) {
      JoinCoversIff(u, d, r);
      CoveredIsBoundToPass(joined, d, client, r);
    } else {
      var others, catchUp, report := UnsafeJoinCanFail(u, d, client, r);
      FailingIsNotBound(joined, d, client, r, others + [catchUp], report);
    }
  }

  // ----- an opinion from before leaving

  /** A safe join is not enough if somebody still holds an opinion the replicator gave before it left: when
      that is approved after it has joined again, the replicator is as if it had joined with the opinion
      recorded, and safe exactly if the opinion counts nothing. */
  lemma OldOpinionIsSafeIff(t: Honest, d: Key, reporter: Key, info: ApprovalTransactionInfo, o: SingleOpinion)
    requires InStep(t, d) && CountsFromNothing(t, d, o.replicatorKey)
    requires info.driveKey == d && ApprovalVerdict(t.chain.Drive(d), info).Accepted?
    requires o in info.opinions && DistinctAuthors(info.opinions) && DistinctKeys(o.uploadLayout)
    requires t.chain.Sizes(info.modifyTransactionHash) == {}
    requires Totals(info.opinions) == {Cumulative(t.chain, d) + Queue(t.chain, d)[0].maxDataSize}
    ensures var u, r := AfterMove(t, d, Report(reporter, info)), o.replicatorKey;
            && InStep(u, d) && CountsFromNothing(u, d, r) && u.chain.Members(d) == t.chain.Members(d)
            && (SafeJoin(u.chain, d, r) <==> Total(o.uploadLayout) == 0)
  {
    var r, uploads := o.replicatorKey, t.chain.Drive(d).uploads;
    ApprovalKeeps(t, d, reporter, info);
    AfterApproval(t.chain, d, ApprovalReadyEvent(reporter, info));
    AfterReport(t, d, reporter, info);
    RecordKeepsOpinions(uploads, info.opinions, r);
    assert r in Authors(info.opinions);
    OnlyOpinion(info.opinions, o, SingleOpinion(r, Record(uploads, info.opinions).uploads[r]));
    CountersAreZeroIff(o.uploadLayout);
  }

  lemma OnlyOpinion(opinions: seq<SingleOpinion>, o: SingleOpinion, x: SingleOpinion)
    requires DistinctAuthors(opinions) && o in opinions && x in opinions && x.replicatorKey == o.replicatorKey
    ensures x == o
  {
    var i :| 0 <= i < |opinions| && opinions[i] == o;
    var j :| 0 <= j < |opinions| && opinions[j] == x;
  }

  lemma CountersAreZeroIff(layout: seq<KeyAndBytes>)
    requires DistinctKeys(layout)
    ensures (forall k :: Counter(layout, k) == 0) <==> Total(layout) == 0
  {
    if forall k :: Counter(layout, k) == 0 {
      forall e | e in layout ensures e.uploadedBytes == 0 {
        DistinctBytes(layout, e);
        assert Counter(layout, e.key) == 0;
      }
      ZeroTotal(layout);
    }
    if Total(layout) == 0 {
      forall k ensures Counter(layout, k) == 0 {
        CounterWithin(layout, k);
      }
    }
  }

  lemma ZeroTotal(layout: seq<KeyAndBytes>)
    requires forall e :: e in layout ==> e.uploadedBytes == 0
    ensures Total(layout) == 0
  {
    if layout == [] {
    } else {
      ZeroTotal(layout[1..]);
    }
  }
}
