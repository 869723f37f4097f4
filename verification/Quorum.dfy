/** Accepted sets of opinions: how many may be missing, and when two of them share a member. */
module Quorum {
  import opened Basics
  import opened Protocol
  import opened Chain

  /** The least number of opinions that the integer test lets through. */
  function Needed(members: nat): (n: nat)
    ensures !TooFew(n, members)
    ensures forall k: nat :: !TooFew(k, members) <==> k >= n
  {
    (2 * members) / 3 + 1
  }

  /** The test rejects exactly the sets of at most two thirds; all but `f` of `n` pass it exactly when `n > 3f`. */
  lemma FaultTolerance(n: nat, f: nat)
    requires f <= n
    ensures forall size: nat :: TooFew(size, n) <==> 3 * size <= 2 * n
    ensures !TooFew(n - f, n) <==> n > 3 * f
  {
  }

  /** A set of members whose opinions are accepted. */
  ghost predicate Supports(quorum: set<Key>, members: set<Key>) {
    quorum <= members && !TooFew(|quorum|, |members|)
  }

  lemma UnionSize<T>(a: set<T>, b: set<T>)
    ensures |a + b| + |a * b| == |a| + |b|
  {
    assert a + b == a + (b - a);
    assert b == (b - a) + a * b;
  }

  /** Two accepted sets over the same members share more than a third of them. */
  lemma QuorumsShareAThird(members: set<Key>, p: set<Key>, q: set<Key>)
    requires Supports(p, members) && Supports(q, members)
    ensures 3 * |p * q| > |members|
  {
    UnionSize(p, q);
    SubsetSize(p + q, members);
  }

  lemma SubsetOfSize(s: set<Key>, k: nat) returns (t: set<Key>)
    requires k <= |s|
    ensures t <= s && |t| == k
  {
    if k == 0 {
      t := {};
    } else {
      var x :| x in s;
      t := SubsetOfSize(s - {x}, k - 1);
      t := t + {x};
    }
  }

  ghost predicate AlwaysMeet(members: set<Key>, members': set<Key>) {
    forall p, q :: Supports(p, members) && Supports(q, members') ==> p * q != {}
  }

  /** Under any reconfiguration of non-empty lists, accepted sets before and after are bound to share a
      member exactly when the two least quorums together exceed the union of the lists. */
  lemma QuorumsMeetIff(members: set<Key>, members': set<Key>)
    requires members != {} && members' != {}
    ensures AlwaysMeet(members, members') <==> Needed(|members|) + Needed(|members'|) > |members + members'|
  {
    var n, n' := Needed(|members|), Needed(|members'|);
    if n + n' > |members + members'| {
      forall p, q | Supports(p, members) && Supports(q, members') ensures p * q != {} {
        UnionSize(p, q);
        SubsetSize(p + q, members + members');
      }
    } else {
      var p, q := DisjointQuorums(members, members');
      assert !AlwaysMeet(members, members');
    }
  }

  lemma DisjointQuorums(members: set<Key>, members': set<Key>) returns (p: set<Key>, q: set<Key>)
    requires members != {} && members' != {}
    requires Needed(|members|) + Needed(|members'|) <= |members + members'|
    ensures Supports(p, members) && Supports(q, members') && p * q == {}
  {
    var n, n' := Needed(|members|), Needed(|members'|);
    var only, both := members - members', members * members';
    assert members == only + both && members + members' == only + members';
    if n <= |only| {
      p := SubsetOfSize(only, n);
      q := SubsetOfSize(members', n');
    } else {
      var t := SubsetOfSize(both, n - |only|);
      p := only + t;
      assert members' == (members' - t) + t;
      q := SubsetOfSize(members' - t, n');
    }
  }

  /** Adding or removing one replicator between two approvals keeps an overlap: an accepted set is
      never empty, so neither is the smaller list. */
  lemma QuorumsMeetAfterOneChange(members: set<Key>, members': set<Key>, x: Key, p: set<Key>, q: set<Key>)
    requires members' == members || members' == members + {x} || members == members' + {x}
    requires Supports(p, members) && Supports(q, members')
    ensures p * q != {}
  {
    SubsetSize(p, members);
    SubsetSize(q, members');
    if members' == members {
      QuorumsShareAThird(members, p, q);
    } else {
      var small, large := if members' == members + {x} then members else members',
                          if members' == members + {x} then members' else members;
      assert |large| <= |small| + 1 by {
        UnionSize(small, {x});
      }
      assert members + members' == large;
      QuorumsMeetIff(members, members');
    }
  }

  // ----- opinions

  ghost function Authors(opinions: seq<SingleOpinion>): set<Key> {
    set o | o in opinions :: o.replicatorKey
  }

  ghost predicate DistinctAuthors(opinions: seq<SingleOpinion>) {
    forall i, j :: 0 <= i < j < |opinions| ==> opinions[i].replicatorKey != opinions[j].replicatorKey
  }

  lemma AuthorsSize(opinions: seq<SingleOpinion>)
    requires DistinctAuthors(opinions)
    ensures |Authors(opinions)| == |opinions|
  {
    var keys := seq(|opinions|, i requires 0 <= i < |opinions| => opinions[i].replicatorKey);
    DistinctSize(keys);
    assert Authors(opinions) == set k | k in keys by {
      forall k | k in Authors(opinions) ensures k in keys {
        var o :| o in opinions && o.replicatorKey == k;
        var i :| 0 <= i < |opinions| && opinions[i] == o;
        assert keys[i] == k;
      }
      forall k | k in keys ensures k in Authors(opinions) {
        var i :| 0 <= i < |keys| && keys[i] == k;
        assert opinions[i] in opinions;
      }
    }
  }

  ghost function MemberSet(di: DriveInfo): set<Key> {
    set k | k in di.driveRequest.fullReplicatorList
  }

  /** The authors of an approval that takes the front support the drive's members, if they are distinct. */
  lemma ApprovalIsSupported(di: DriveInfo, info: ApprovalTransactionInfo)
    requires Distinct(di.driveRequest.fullReplicatorList) && DistinctAuthors(info.opinions)
    requires ApprovalVerdict(di, info).Accepted?
    ensures Supports(Authors(info.opinions), MemberSet(di))
  {
    AuthorsSize(info.opinions);
    DistinctSize(di.driveRequest.fullReplicatorList);
  }

  /** `n` opinions of one author. */
  function Repeated(r: Key, n: nat): seq<SingleOpinion> {
    seq(n, _ => SingleOpinion(r, []))
  }

  /** The handler counts opinions, not authors: one member's opinion, repeated often enough, passes the
      test on any drive, and its author alone supports the members exactly when there are no others. */
  lemma RepeatedOpinionsPass(members: seq<Key>, r: Key)
    requires Distinct(members) && r in members
    ensures var opinions := Repeated(r, Needed(|members|));
            && OpinionsFromMembers(opinions, members) && !TooFew(|opinions|, |members|)
            && Authors(opinions) == {r}
            && (Supports(Authors(opinions), set k | k in members) <==> |members| == 1)
  {
    var opinions := Repeated(r, Needed(|members|));
    assert opinions[0] in opinions;
    DistinctSize(members);
  }

  // ----- one opinion fewer

  /** The override that drops the last opinion of a full set. */
  function WithoutLast(info: ApprovalTransactionInfo, replicators: nat): ApprovalTransactionInfo {
    if |info.opinions| == replicators && info.opinions != []
    then info.(opinions := info.opinions[..|info.opinions| - 1]) else info
  }

  /** One opinion fewer than replicators is what the override passes on exactly when it gets a full set or a
      set that already misses one; it is then the first ones, in order. */
  lemma OneFewerIsPassedOn(info: ApprovalTransactionInfo, n: nat)
    ensures var sent := WithoutLast(info, n);
            && (|sent.opinions| + 1 == n <==> n > 0 && (|info.opinions| == n || |info.opinions| == n - 1))
            && (|sent.opinions| + 1 == n ==> sent == info.(opinions := info.opinions[..n - 1]))
  {
    if |info.opinions| + 1 == n {
      assert info.opinions[..n - 1] == info.opinions;
    }
  }

  /** Of a full set of opinions about the queue's front, one from each of `n` replicators, the last one can be
      dropped exactly if the others are members' and more than two thirds as many as members; when all
      replicators are members, exactly from four on. */
  lemma DroppingOneIsSafeIff(di: DriveInfo, info: ApprovalTransactionInfo, n: nat)
    requires |info.opinions| == n > 0 && Fronted(di, info.modifyTransactionHash)
    ensures var members := di.driveRequest.fullReplicatorList;
            var safe := !ApprovalVerdict(di, WithoutLast(info, n)).InvalidOpinions?;
            && (safe <==> OpinionsFromMembers(info.opinions[..n - 1], members) && 3 * (n - 1) > 2 * |members|)
            && (OpinionsFromMembers(info.opinions, members) && |members| == n ==> (safe <==> n >= 4))
  {
    FaultTolerance(n, 1);
    var members := di.driveRequest.fullReplicatorList;
    assert TooFew(n - 1, |members|) <==> 3 * (n - 1) <= 2 * |members|;
    if OpinionsFromMembers(info.opinions, members) {
      assert forall o :: o in info.opinions[..n - 1] ==> o in info.opinions;
    }
  }
}
