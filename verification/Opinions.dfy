/** How a replicator turns its traffic counters into an opinion: the bytes it got from each uploader
    are scaled so that all its uploads together make exactly the download that was expected. */
module Opinions {
  import opened Basics
  import opened Protocol
  import opened Uploads

  datatype CumulativeUploads = CumulativeUploads(modificationId: Hash, uploads: map<Key, nat>)

  /** The controller's fields. */
  datatype Accounts = Accounts(approvedExpected: nat, approved: CumulativeUploads, notApproved: CumulativeUploads)

  /** The accounts of a new controller. */
  function NewAccounts(expected: nat): Accounts {
    Accounts(expected, CumulativeUploads(0, map[]), CumulativeUploads(0, map[]))
  }

  // ----- sums over maps

  ghost function Sum(m: map<Key, nat>): nat
    decreases |m|
  {
    if m == map[] then 0
    else
      var k := Least(m.Keys);
      m[k] + Sum(m - {k})
  }

  /** Any key can be counted first. */
  lemma {:induction false} SumWithout(m: map<Key, nat>, k: Key)
    requires k in m
    ensures Sum(m) == m[k] + Sum(m - {k})
    decreases |m|
  {
    var l := Least(m.Keys);
    if k != l {
      SumWithout(m - {l}, k);
      assert l in (m - {k}).Keys;
      LeastWithout(m.Keys, k);
      assert (m - {k}).Keys == m.Keys - {k};
      assert (m - {k}) - {l} == (m - {l}) - {k};
    }
  }

  lemma LeastWithout(keys: set<Key>, k: Key)
    requires k in keys && k != Least(keys)
    ensures keys - {k} != {} && Least(keys - {k}) == Least(keys)
  {
    assert Least(keys) in keys - {k};
  }

  function At(m: map<Key, nat>, k: Key): nat {
    if k in m then m[k] else 0
  }

  lemma SumUpdate(m: map<Key, nat>, k: Key, v: nat)
    ensures Sum(m[k := v]) == Sum(m) - At(m, k) + v
  {
    SumWithout(m[k := v], k);
    assert m[k := v] - {k} == m - {k};
    if k in m {
      SumWithout(m, k);
    } else {
      assert m - {k} == m;
    }
  }

  function Added(m: map<Key, nat>, n: map<Key, nat>): map<Key, nat> {
    map k | k in m.Keys + n.Keys :: At(m, k) + At(n, k)
  }

  lemma AddedStep(m: map<Key, nat>, n: map<Key, nat>, k: Key, v: nat)
    requires k !in n
    ensures Added(m, n[k := v]) == Added(m, n)[k := At(m, k) + v] && At(Added(m, n), k) == At(m, k)
  {
  }

  lemma SumAddedStep(m: map<Key, nat>, n: map<Key, nat>, k: Key, v: nat)
    requires k !in n
    ensures Sum(Added(m, n[k := v])) == Sum(Added(m, n)) + v && Sum(n[k := v]) == Sum(n) + v
  {
    AddedStep(m, n, k, v);
    SumUpdate(Added(m, n), k, At(m, k) + v);
    SumUpdate(n, k, v);
  }

  lemma SplitOff(m: map<Key, nat>, k: Key)
    requires k in m
    ensures m == (m - {k})[k := m[k]] && k !in m - {k}
  {
  }

  lemma {:induction false} SumAdded(m: map<Key, nat>, n: map<Key, nat>)
    ensures Sum(Added(m, n)) == Sum(m) + Sum(n)
    decreases |n|
  {
    if n == map[] {
      assert Added(m, n) == m;
    } else {
      var k :| k in n;
      SumAdded(m, n - {k});
      SplitOff(n, k);
      SumAddedStep(m, n - {k}, k, n[k]);
    }
  }

  function Restrict(m: map<Key, nat>, keys: set<Key>): map<Key, nat> {
    map k | k in m && k in keys :: m[k]
  }

  lemma RestrictStep(m: map<Key, nat>, keys: set<Key>, k: Key)
    requires k in m && k !in keys
    ensures Restrict(m, keys + {k}) == Restrict(m, keys)[k := m[k]] && k !in Restrict(m, keys)
  {
  }

  // ----- scaling

  lemma Distribute(a: int, b: int, c: int)
    ensures (a + b) * c == a * c + b * c
    ensures (a - b) * c == a * c - b * c
  {
  }

  lemma Cancel(a: int, b: int, c: int)
    requires c > 0 && a * c <= b * c
    ensures a <= b
  {
  }

  lemma Monotone(a: int, b: int, c: nat)
    requires a <= b
    ensures a * c <= b * c
  {
  }

  /** The proportional share, rounded down; nothing if there was no traffic at all. */
  ghost predicate IsShare(share: int, bytes: nat, target: nat, sum: nat) {
    if sum == 0 then share == 0 else share * sum <= bytes * target < (share + 1) * sum
  }

  lemma ShareIsUnique(p: int, q: int, bytes: nat, target: nat, sum: nat)
    requires IsShare(p, bytes, target, sum) && IsShare(q, bytes, target, sum)
    ensures p == q
  {
    if p < q {
      Monotone(p + 1, q, sum);
    } else if q < p {
      Monotone(q + 1, p, sum);
    }
  }

  ghost predicate AreShares(m: map<Key, nat>, n: map<Key, nat>, target: nat, sum: nat) {
    forall k :: k in n ==> k in m && IsShare(n[k], m[k], target, sum)
  }

  lemma AnotherShare(m: map<Key, nat>, n: map<Key, nat>, k: Key, share: nat, target: nat, sum: nat)
    requires AreShares(m, n, target, sum) && k in m && k !in n && IsShare(share, m[k], target, sum)
    ensures AreShares(m, n[k := share], target, sum) && Sum(n[k := share]) == Sum(n) + share
  {
    SumUpdate(n, k, share);
  }

  /** Rounding down, shares together never exceed the share of the whole. */
  lemma {:induction false} SharesTogether(m: map<Key, nat>, n: map<Key, nat>, target: nat, sum: nat)
    requires sum > 0 && m.Keys == n.Keys && AreShares(m, n, target, sum)
    ensures Sum(n) * sum <= Sum(m) * target
    decreases |m|
  {
    if m == map[] {
      assert n == map[];
    } else {
      var k :| k in m;
      SharesTogether(m - {k}, n - {k}, target, sum);
      SumWithout(m, k);
      SumWithout(n, k);
      AddShare(Sum(n - {k}), Sum(m - {k}), n[k], m[k], target, sum);
    }
  }

  lemma AddShare(shares: nat, bytes: nat, share: nat, v: nat, target: nat, sum: nat)
    requires shares * sum <= bytes * target && share * sum <= v * target
    ensures (share + shares) * sum <= (v + bytes) * target
  {
    Distribute(share, shares, sum);
    Distribute(v, bytes, target);
  }

  /** The shares of all but the client fit the target, and leave at least the client's own share. */
  lemma SharesFit(m: map<Key, nat>, shares: map<Key, nat>, client: Key, target: nat)
    requires client in m && Sum(m) > 0 && shares.Keys == m.Keys - {client} && AreShares(m, shares, target, Sum(m))
    ensures Sum(shares) <= target && (target - Sum(shares)) * Sum(m) >= m[client] * target
  {
    SumWithout(m, client);
    SharesTogether(m - {client}, shares, target, Sum(m));
    Remainder(m[client], Sum(m - {client}), Sum(shares), target);
  }

  lemma Remainder(mine: nat, others: nat, shares: nat, target: nat)
    requires mine + others > 0 && shares * (mine + others) <= others * target
    ensures shares <= target && (target - shares) * (mine + others) >= mine * target
  {
    var s := mine + others;
    Distribute(mine, others, target);
    assert s * target == mine * target + others * target;
    Cancel(shares, target, s);
    Distribute(target, shares, s);
  }

  lemma {:induction false} SumZero(m: map<Key, nat>, k: Key)
    requires Sum(m) == 0 && k in m
    ensures m[k] == 0
  {
    SumWithout(m, k);
  }

  /** `n` is `m` scaled to `target`: every replicator gets its share, and the client what is left, so
      that all together make the target. */
  ghost predicate IsNormalized(m: map<Key, nat>, n: map<Key, nat>, client: Key, target: nat) {
    && n.Keys == m.Keys
    && Sum(n) == target
    && (forall k :: k in m && k != client ==> IsShare(n[k], m[k], target, Sum(m)))
  }

  /** The client never gets less than its own proportional share. */
  lemma ClientGetsItsShare(m: map<Key, nat>, n: map<Key, nat>, client: Key, target: nat)
    requires client in m && IsNormalized(m, n, client, target)
    ensures n[client] * Sum(m) >= m[client] * target
  {
    if Sum(m) == 0 {
      SumZero(m, client);
    } else {
      SharesFit(m, n - {client}, client, target);
      SumWithout(n, client);
    }
  }

  lemma {:induction false} RestIsClients(m: map<Key, nat>, shares: map<Key, nat>, client: Key, target: nat)
    requires client in m && Sum(m) > 0 && shares.Keys == m.Keys - {client} && AreShares(m, shares, target, Sum(m))
    ensures Sum(shares) <= target
    ensures IsNormalized(m, (m + shares)[client := target - Sum(shares)], client, target)
  {
    SharesFit(m, shares, client, target);
    var n := (m + shares)[client := target - Sum(shares)];
    SumWithout(n, client);
    assert n - {client} == shares;
  }

  lemma AllIsClients(m: map<Key, nat>, client: Key, target: nat)
    requires client in m && Sum(m) == 0
    ensures IsNormalized(m, m[client := target], client, target)
  {
    SumUpdate(m, client, target);
    forall k | k in m ensures m[k] == 0 {
      SumZero(m, k);
    }
  }

  // ----- the controller's operations

  function Current(replicators: seq<Key>, client: Key, traffic: map<Key, nat>): map<Key, nat> {
    map k | k in (set r | r in replicators) + {client} :: At(traffic, k)
  }

  /** The two assertions before the scaling. */
  ghost predicate Updatable(a: Accounts, add: nat) {
    a.approvedExpected + add > 0 && a.approvedExpected + add >= Sum(a.notApproved.uploads)
  }

  /** No counter of `m` is missing or larger than in `n`. */
  ghost predicate Dominated(m: map<Key, nat>, n: map<Key, nat>) {
    forall k :: k in m ==> k in n && m[k] <= n[k]
  }

  /** How the counter of a replicator changes in an update. */
  ghost predicate CounterUpdated(before: map<Key, nat>, after: map<Key, nat>, current: map<Key, nat>, target: nat,
                                 k: Key)
    requires k in after
  {
    if k in current then IsShare(after[k] - At(before, k), current[k], target, Sum(current))
    else after[k] == At(before, k)
  }

  lemma SameCounter(before: map<Key, nat>, after: map<Key, nat>, after': map<Key, nat>, current: map<Key, nat>,
                    client: Key, target: nat, k: Key)
    requires k in after && k in after'
    requires CounterUpdated(before, after, current, target, k) && CounterUpdated(before, after', current, target, k)
    ensures after[k] == after'[k]
  {
    if k in current {
      ShareIsUnique(after[k] - At(before, k), after'[k] - At(before, k), current[k], target, Sum(current));
    }
  }

  /** Counters only grow, each but the client's by its share of the target, and all together by the target. */
  ghost predicate CountersUpdated(before: map<Key, nat>, after: map<Key, nat>, current: map<Key, nat>, client: Key,
                                  target: nat)
  {
    && after.Keys == before.Keys + current.Keys
    && Sum(after) == Sum(before) + target
    && Dominated(before, after)
    && (forall k :: k in after && k != client ==> CounterUpdated(before, after, current, target, k))
  }

  /** What an update makes of the accounts: a replicator's counter grows by its share of the part of the
      expected download that is not accounted for yet, and the client's so that all counters together
      make exactly the expected download. */
  ghost predicate Updates(a: Accounts, b: Accounts, client: Key, id: Hash, replicators: seq<Key>, add: nat,
                          traffic: map<Key, nat>)
  {
    var before, after, current := a.notApproved.uploads, b.notApproved.uploads, Current(replicators, client, traffic);
    var target := a.approvedExpected + add - Sum(before);
    && target >= 0
    && b == a.(notApproved := CumulativeUploads(id, after))
    && CountersUpdated(before, after, current, client, target)
  }

  lemma {:induction false} SumSame(m: map<Key, nat>, n: map<Key, nat>, client: Key)
    requires client in m && m.Keys == n.Keys && Sum(m) == Sum(n)
    requires forall k :: k in m && k != client ==> m[k] == n[k]
    ensures m == n
  {
    SumWithout(m, client);
    SumWithout(n, client);
    assert m - {client} == n - {client};
  }

  lemma SameCounters(before: map<Key, nat>, after: map<Key, nat>, after': map<Key, nat>, current: map<Key, nat>,
                     client: Key, target: nat)
    requires client in current
    requires CountersUpdated(before, after, current, client, target)
    requires CountersUpdated(before, after', current, client, target)
    ensures after == after'
  {
    forall k | k in after && k != client ensures after[k] == after'[k] {
      SameCounter(before, after, after', current, client, target, k);
    }
    SumSame(after, after', client);
  }

  /** This determines the accounts. */
  lemma UpdateIsUnique(a: Accounts, b: Accounts, b': Accounts, client: Key, id: Hash, replicators: seq<Key>, add: nat,
                       traffic: map<Key, nat>)
    requires Updates(a, b, client, id, replicators, add, traffic)
    requires Updates(a, b', client, id, replicators, add, traffic)
    ensures b == b'
  {
    var current := Current(replicators, client, traffic);
    assert client in current;
    SameCounters(a.notApproved.uploads, b.notApproved.uploads, b'.notApproved.uploads, current, client,
                 a.approvedExpected + add - Sum(a.notApproved.uploads));
  }

  lemma AddingCounters(before: map<Key, nat>, n: map<Key, nat>, current: map<Key, nat>, client: Key, target: nat)
    requires IsNormalized(current, n, client, target)
    ensures CountersUpdated(before, Added(before, n), current, client, target)
  {
    var after := Added(before, n);
    SumAdded(before, n);
    AddedDominates(before, n);
    forall k | k in after && k != client ensures CounterUpdated(before, after, current, target, k) {
      AddingUpdatesCounter(before, n, current, client, target, k);
    }
  }

  /** Adding normalized uploads to the accounted ones is an update. */
  lemma AddingUpdates(a: Accounts, b: Accounts, n: map<Key, nat>, client: Key, id: Hash, replicators: seq<Key>,
                      add: nat, traffic: map<Key, nat>)
    requires Updatable(a, add)
    requires IsNormalized(Current(replicators, client, traffic), n, client,
                          a.approvedExpected + add - Sum(a.notApproved.uploads))
    requires b == a.(notApproved := CumulativeUploads(id, Added(a.notApproved.uploads, n)))
    ensures Updates(a, b, client, id, replicators, add, traffic)
  {
    var before, target := a.notApproved.uploads, a.approvedExpected + add - Sum(a.notApproved.uploads);
    AddingCounters(before, n, Current(replicators, client, traffic), client, target);
    assert b.notApproved.uploads == Added(before, n);
  }

  lemma AddingUpdatesCounter(before: map<Key, nat>, n: map<Key, nat>, current: map<Key, nat>, client: Key, target: nat,
                             k: Key)
    requires IsNormalized(current, n, client, target) && k in Added(before, n) && k != client
    ensures CounterUpdated(before, Added(before, n), current, target, k)
  {
    assert Added(before, n)[k] == At(before, k) + At(n, k);
  }

  lemma AddedDominates(m: map<Key, nat>, n: map<Key, nat>)
    ensures Dominated(m, Added(m, n)) && Added(m, n).Keys == m.Keys + n.Keys
  {
  }

  ghost function ApprovedAccounts(a: Accounts): Accounts {
    var sum := Sum(a.notApproved.uploads);
    a.(approved := a.notApproved, approvedExpected := if sum > a.approvedExpected then sum else a.approvedExpected)
  }

  function Disapproved(a: Accounts): Accounts {
    a.(notApproved := a.approved)
  }

  function Increased(a: Accounts, add: nat): Accounts {
    a.(approvedExpected := a.approvedExpected + add)
  }

  // ----- what an update credits, in terms of the traffic

  /** All bytes received from these keys, each counted once. */
  ghost function TrafficOf(keys: set<Key>, traffic: map<Key, nat>): nat
    decreases |keys|
  {
    if keys == {} then 0
    else
      var k := Least(keys);
      At(traffic, k) + TrafficOf(keys - {k}, traffic)
  }

  /** The shard and the client. */
  ghost function Uploaders(replicators: seq<Key>, client: Key): set<Key> {
    (set k | k in replicators) + {client}
  }

  lemma {:induction false} SumIsTraffic(m: map<Key, nat>, traffic: map<Key, nat>)
    requires forall k :: k in m ==> m[k] == At(traffic, k)
    ensures Sum(m) == TrafficOf(m.Keys, traffic)
    decreases |m|
  {
    if m == map[] {
    } else {
      var k := Least(m.Keys);
      assert (m - {k}).Keys == m.Keys - {k};
      SumIsTraffic(m - {k}, traffic);
    }
  }

  /** The current uploads are the traffic from the shard and the client. */
  lemma CurrentIsTraffic(replicators: seq<Key>, client: Key, traffic: map<Key, nat>)
    ensures var current := Current(replicators, client, traffic);
            && current.Keys == Uploaders(replicators, client)
            && (forall k :: k in current ==> current[k] == At(traffic, k))
            && Sum(current) == TrafficOf(Uploaders(replicators, client), traffic)
  {
    var current := Current(replicators, client, traffic);
    assert current.Keys == Uploaders(replicators, client);
    SumIsTraffic(current, traffic);
  }

  /** What the counters grow by. */
  ghost function Grown(before: map<Key, nat>, after: map<Key, nat>, current: map<Key, nat>): map<Key, nat>
    requires Dominated(before, after) && current.Keys <= after.Keys
  {
    map k | k in current :: after[k] - At(before, k)
  }

  /** What the counters grow by is the current uploads, normalized. */
  lemma GrowthIsNormalized(before: map<Key, nat>, after: map<Key, nat>, current: map<Key, nat>, client: Key,
                           target: nat)
    requires client in current && CountersUpdated(before, after, current, client, target)
    ensures IsNormalized(current, Grown(before, after, current), client, target)
    ensures after == Added(before, Grown(before, after, current))
  {
    var n := Grown(before, after, current);
    forall k | k in after ensures after[k] == At(before, k) + At(n, k) {
      if k !in current {
        assert CounterUpdated(before, after, current, target, k);
      }
    }
    assert after == Added(before, n);
    SumAdded(before, n);
    forall k | k in current && k != client ensures IsShare(n[k], current[k], target, Sum(current)) {
      assert CounterUpdated(before, after, current, target, k);
    }
  }

  /** The counters of the uploaders grow by what they uploaded, scaled by the target over all they uploaded:
      a replicator's rounded down, the client's by the rest, which is at least its own part. */
  ghost predicate Credits(before: map<Key, nat>, after: map<Key, nat>, uploaders: set<Key>, client: Key,
                          traffic: map<Key, nat>, target: nat)
  {
    && after.Keys == before.Keys + uploaders && Sum(after) == Sum(before) + target
    && forall k :: k in after ==>
         Credited(after[k] - At(before, k), k, uploaders, client, traffic, target)
  }

  ghost predicate Credited(growth: int, k: Key, uploaders: set<Key>, client: Key, traffic: map<Key, nat>, target: nat) {
    var all := TrafficOf(uploaders, traffic);
    if k !in uploaders then growth == 0
    else if k == client then growth >= 0 && growth * all >= At(traffic, k) * target
    else if all == 0 then growth == 0
    else growth >= 0 && growth * all <= At(traffic, k) * target < (growth + 1) * all
  }

  lemma KeyCredited(before: map<Key, nat>, after: map<Key, nat>, replicators: seq<Key>, client: Key,
                    traffic: map<Key, nat>, target: nat, k: Key)
    requires CountersUpdated(before, after, Current(replicators, client, traffic), client, target) && k in after
    ensures Credited(after[k] - At(before, k), k, Uploaders(replicators, client), client, traffic, target)
  {
    var current := Current(replicators, client, traffic);
    CurrentIsTraffic(replicators, client, traffic);
    if k == client {
      GrowthIsNormalized(before, after, current, client, target);
      ClientGetsItsShare(current, Grown(before, after, current), client, target);
    } else {
      assert CounterUpdated(before, after, current, target, k);
    }
  }

  /** The expected download is accounted for under the given hash, and credited in terms of the traffic alone. */
  ghost predicate AccountsFor(a: Accounts, b: Accounts, client: Key, id: Hash, replicators: seq<Key>, add: nat,
                              traffic: map<Key, nat>)
  {
    var before, after := a.notApproved.uploads, b.notApproved.uploads;
    var target := a.approvedExpected + add - Sum(before);
    && b.notApproved.modificationId == id && b.approved == a.approved && b.approvedExpected == a.approvedExpected
    && target >= 0 && Sum(after) == a.approvedExpected + add
    && Credits(before, after, Uploaders(replicators, client), client, traffic, target)
  }

  lemma CountersCredited(before: map<Key, nat>, after: map<Key, nat>, replicators: seq<Key>, client: Key,
                         traffic: map<Key, nat>, target: nat)
    requires CountersUpdated(before, after, Current(replicators, client, traffic), client, target)
    ensures Credits(before, after, Uploaders(replicators, client), client, traffic, target)
  {
    CurrentIsTraffic(replicators, client, traffic);
    forall k | k in after
      ensures Credited(after[k] - At(before, k), k, Uploaders(replicators, client), client, traffic, target)
    {
      KeyCredited(before, after, replicators, client, traffic, target, k);
    }
  }

  /** What every update credits. */
  lemma UpdateCredits(a: Accounts, b: Accounts, client: Key, id: Hash, replicators: seq<Key>, add: nat,
                      traffic: map<Key, nat>)
    requires Updates(a, b, client, id, replicators, add, traffic)
    ensures AccountsFor(a, b, client, id, replicators, add, traffic)
  {
    CountersCredited(a.notApproved.uploads, b.notApproved.uploads, replicators, client, traffic,
                     a.approvedExpected + add - Sum(a.notApproved.uploads));
  }

  lemma NormalizedAlready(m: map<Key, nat>, client: Key)
    ensures IsNormalized(m, m, client, Sum(m))
  {
    forall k | k in m ensures IsShare(m[k], m[k], Sum(m), Sum(m)) {
      SumWithout(m, k);
      Distribute(m[k], 1, Sum(m));
    }
  }

  lemma ExactCounters(before: map<Key, nat>, after: map<Key, nat>, current: map<Key, nat>, client: Key)
    requires client in current && CountersUpdated(before, after, current, client, Sum(current))
    ensures after == Added(before, current)
  {
    NormalizedAlready(current, client);
    AddingCounters(before, current, current, client, Sum(current));
    SameCounters(before, after, Added(before, current), current, client, Sum(current));
  }

  /** When the traffic is exactly what is to be accounted for, the counters of the shard and of the client grow
      by exactly what each of them uploaded. */
  lemma {:induction false} ExactTrafficIsCredited(a: Accounts, b: Accounts, client: Key, id: Hash,
                                                  replicators: seq<Key>, add: nat, traffic: map<Key, nat>)
    requires Updates(a, b, client, id, replicators, add, traffic)
    requires TrafficOf(Uploaders(replicators, client), traffic)
          == a.approvedExpected + add - Sum(a.notApproved.uploads)
    ensures forall k :: k in Uploaders(replicators, client) ==>
              k in b.notApproved.uploads
              && b.notApproved.uploads[k] == At(a.notApproved.uploads, k) + At(traffic, k)
  {
    CurrentIsTraffic(replicators, client, traffic);
    ExactCounters(a.notApproved.uploads, b.notApproved.uploads, Current(replicators, client, traffic), client);
  }

  // ----- layouts

  /** The entries in ascending key order. */
  ghost function Layout(m: map<Key, nat>): seq<KeyAndBytes>
    decreases |m|
  {
    if m == map[] then []
    else
      var k := Least(m.Keys);
      [KeyAndBytes(k, m[k])] + Layout(m - {k})
  }

  lemma {:induction false} LayoutEntries(m: map<Key, nat>)
    ensures Total(Layout(m)) == Sum(m)
    ensures DistinctKeys(Layout(m))
    ensures forall e :: e in Layout(m) <==> e.key in m && e.uploadedBytes == m[e.key]
    decreases |m|
  {
    if m == map[] {
    } else {
      var k := Least(m.Keys);
      var rest := Layout(m - {k});
      LayoutEntries(m - {k});
      forall j | 0 <= j < |rest| ensures rest[j].key != k {
        assert rest[j] in rest;
      }
    }
  }

  lemma {:induction false} LayoutAscends(m: map<Key, nat>)
    ensures forall i, j :: 0 <= i < j < |Layout(m)| ==> Layout(m)[i].key < Layout(m)[j].key
    decreases |m|
  {
    if m == map[] {
    } else {
      var k := Least(m.Keys);
      var rest := Layout(m - {k});
      LayoutAscends(m - {k});
      LayoutEntries(m - {k});
      forall j | 0 <= j < |rest| ensures k < rest[j].key {
        assert rest[j] in rest;
      }
    }
  }

  lemma LayoutBytes(m: map<Key, nat>, k: Key)
    ensures BytesOf(Layout(m), k) == if k in m then Some(m[k]) else None
  {
    LayoutEntries(m);
    if k in m {
      assert KeyAndBytes(k, m[k]) in Layout(m);
    }
  }

  /** A layout passes the upload check against any layout whose counters it dominates. */
  lemma DominatedLayouts(m: map<Key, nat>, n: map<Key, nat>)
    requires Dominated(m, n)
    ensures Covers(Layout(n), Layout(m)) && DistinctKeys(Layout(n)) && DistinctKeys(Layout(m))
    ensures forall e :: e in Layout(n) ==>
              (BytesOf(Layout(m), e.key).Some? ==> BytesOf(Layout(m), e.key).value <= e.uploadedBytes)
  {
    LayoutEntries(m);
    LayoutEntries(n);
    forall k | Counter(Layout(m), k) > 0 ensures BytesOf(Layout(n), k).Some? {
      LayoutBytes(m, k);
      LayoutBytes(n, k);
    }
    forall e | e in Layout(n) && BytesOf(Layout(m), e.key).Some?
      ensures BytesOf(Layout(m), e.key).value <= e.uploadedBytes
    {
      LayoutBytes(m, e.key);
    }
  }

  // ----- the object

  class ModifyOpinionController {
    const clientKey: Key
    var approvedExpectedCumulativeDownload: nat
    var approvedCumulativeUploads: CumulativeUploads
    var notApprovedCumulativeUploads: CumulativeUploads

    ghost function State(): Accounts
      reads this
    {
      Accounts(approvedExpectedCumulativeDownload, approvedCumulativeUploads, notApprovedCumulativeUploads)
    }

    constructor (client: Key, expectedCumulativeDownload: nat)
      ensures clientKey == client && State() == NewAccounts(expectedCumulativeDownload)
    {
      clientKey := client;
      approvedExpectedCumulativeDownload := expectedCumulativeDownload;
      approvedCumulativeUploads := CumulativeUploads(0, map[]);
      notApprovedCumulativeUploads := CumulativeUploads(0, map[]);
    }

    method IncreaseApprovedExpectedCumulativeDownload(add: nat)
      modifies this
      ensures State() == Increased(old(State()), add)
    {
      approvedExpectedCumulativeDownload := approvedExpectedCumulativeDownload + add;
    }

    /** `std::accumulate` over a map's values. */
    method Accumulate(m: map<Key, nat>) returns (sum: nat)
      ensures sum == Sum(m)
    {
      sum := 0;
      var rest := m;
      while rest != map[]
        invariant sum + Sum(rest) == Sum(m)
        decreases |rest|
      {
        var k :| k in rest.Keys;
        SumWithout(rest, k);
        sum := sum + rest[k];
        rest := rest - {k};
      }
    }

    method NormalizeUploads(modificationUploads: map<Key, nat>, targetSum: nat) returns (uploads: map<Key, nat>)
      requires clientKey in modificationUploads
      ensures IsNormalized(modificationUploads, uploads, clientKey, targetSum)
    {
      var sumBefore := Accumulate(modificationUploads);
      if sumBefore == 0 {
        AllIsClients(modificationUploads, clientKey, targetSum);
        return modificationUploads[clientKey := targetSum];
      }
      var sumAfter;
      ghost var shares;
      uploads, sumAfter, shares := ScaleOthers(modificationUploads, targetSum, sumBefore);
      RestIsClients(modificationUploads, shares, clientKey, targetSum);
      uploads := uploads[clientKey := targetSum - sumAfter];
    }

    method Share(uploadBytes: nat, targetSum: nat, sumBefore: nat) returns (share: nat)
      requires sumBefore > 0
      ensures IsShare(share, uploadBytes, targetSum, sumBefore)
    {
      var product := uploadBytes * targetSum;
      share := product / sumBefore;
      assert product == share * sumBefore + product % sumBefore;
      Distribute(share, 1, sumBefore);
    }

    /** The loop over all uploads but the client's. */
    method ScaleOthers(modificationUploads: map<Key, nat>, targetSum: nat, sumBefore: nat)
      returns (uploads: map<Key, nat>, sumAfter: nat, ghost shares: map<Key, nat>)
      requires sumBefore > 0
      ensures shares.Keys == modificationUploads.Keys - {clientKey}
      ensures AreShares(modificationUploads, shares, targetSum, sumBefore)
      ensures uploads == modificationUploads + shares && sumAfter == Sum(shares)
    {
      uploads, sumAfter, shares := modificationUploads, 0, map[];
      var rest := modificationUploads.Keys;
      while rest != {}
        invariant rest <= modificationUploads.Keys && shares.Keys == modificationUploads.Keys - rest - {clientKey}
        invariant AreShares(modificationUploads, shares, targetSum, sumBefore)
        invariant uploads == modificationUploads + shares && sumAfter == Sum(shares)
        decreases rest
      {
        LeastExists(rest);
        var key :| key in rest && forall k :: k in rest ==> key <= k;
        rest := rest - {key};
        if key != clientKey {
          var share := Share(uploads[key], targetSum, sumBefore);
          AnotherShare(modificationUploads, shares, key, share, targetSum, sumBefore);
          uploads, sumAfter, shares := uploads[key := share], sumAfter + share, shares[key := share];
        }
      }
    }

    /** The loop over the shard, and the client's entry. */
    method CurrentUploads(replicators: seq<Key>, traffic: map<Key, nat>) returns (uploads: map<Key, nat>)
      ensures uploads == Current(replicators, clientKey, traffic)
      ensures uploads.Keys == Uploaders(replicators, clientKey)
      ensures forall k :: k in uploads ==> uploads[k] == if k in traffic then traffic[k] else 0
    {
      uploads := map[];
      for i := 0 to |replicators|
        invariant uploads == map k | k in (set r | r in replicators[..i]) :: At(traffic, k)
      {
        assert replicators[..i + 1] == replicators[..i] + [replicators[i]];
        uploads := uploads[replicators[i] := if replicators[i] in traffic then traffic[replicators[i]] else 0];
      }
      assert replicators[..|replicators|] == replicators;
      uploads := uploads[clientKey := if clientKey in traffic then traffic[clientKey] else 0];
      CurrentIsTraffic(replicators, clientKey, traffic);
    }

    /** The loop that adds the current uploads to the accounted ones. */
    method AddUploads(current: map<Key, nat>)
      modifies this`notApprovedCumulativeUploads
      ensures notApprovedCumulativeUploads == old(notApprovedCumulativeUploads).(
                uploads := Added(old(notApprovedCumulativeUploads).uploads, current))
    {
      var known := notApprovedCumulativeUploads;
      var uploads := known.uploads;
      ghost var before := uploads;
      var rest := current.Keys;
      ghost var done: set<Key> := {};
      assert Added(before, Restrict(current, done)) == before;
      while rest != {}
        invariant rest <= current.Keys && done == current.Keys - rest
        invariant uploads == Added(before, Restrict(current, done))
        decreases rest
      {
        var key :| key in rest;
        RestrictStep(current, done, key);
        AddedStep(before, Restrict(current, done), key, current[key]);
        if key !in uploads {
          uploads := uploads[key := 0];
        }
        uploads := uploads[key := uploads[key] + current[key]];
        rest, done := rest - {key}, done + {key};
      }
      assert done == current.Keys;
      assert Restrict(current, done) == current;
      notApprovedCumulativeUploads := known.(uploads := uploads);
    }

    method UpdateCumulativeUploads(modificationId: Hash, replicators: seq<Key>, addCumulativeDownload: nat,
                                   traffic: map<Key, nat>)
      requires Updatable(State(), addCumulativeDownload)
      modifies this
      ensures Updates(old(State()), State(), clientKey, modificationId, replicators, addCumulativeDownload, traffic)
      ensures AccountsFor(old(State()), State(), clientKey, modificationId, replicators, addCumulativeDownload, traffic)
    {
      ghost var a := State();
      var currentUploads := CurrentUploads(replicators, traffic);
      var accounted := Accumulate(notApprovedCumulativeUploads.uploads);
      var targetSize := approvedExpectedCumulativeDownload + addCumulativeDownload - accounted;
      currentUploads := NormalizeUploads(currentUploads, targetSize);
      AddUploads(currentUploads);
      notApprovedCumulativeUploads := notApprovedCumulativeUploads.(modificationId := modificationId);
      AddingUpdates(a, State(), currentUploads, clientKey, modificationId, replicators, addCumulativeDownload, traffic);
      UpdateCredits(a, State(), clientKey, modificationId, replicators, addCumulativeDownload, traffic);
    }

    method FillOpinion() returns (replicatorsUploads: seq<KeyAndBytes>)
      ensures replicatorsUploads == Layout(notApprovedCumulativeUploads.uploads)
    {
      replicatorsUploads := [];
      var rest := notApprovedCumulativeUploads.uploads;
      while rest != map[]
        invariant replicatorsUploads + Layout(rest) == Layout(notApprovedCumulativeUploads.uploads)
        decreases |rest|
      {
        LeastExists(rest.Keys);
        var key :| key in rest.Keys && forall k :: k in rest.Keys ==> key <= k;
        assert key == Least(rest.Keys);
        Associative(replicatorsUploads, [KeyAndBytes(key, rest[key])], Layout(rest - {key}));
        replicatorsUploads := replicatorsUploads + [KeyAndBytes(key, rest[key])];
        rest := rest - {key};
      }
      assert replicatorsUploads + [] == replicatorsUploads;
    }

    method ApproveCumulativeUploads(modificationId: Hash)
      requires modificationId == notApprovedCumulativeUploads.modificationId
      modifies this
      ensures State() == ApprovedAccounts(old(State()))
    {
      approvedCumulativeUploads := notApprovedCumulativeUploads;
      var sum := Accumulate(approvedCumulativeUploads.uploads);
      if approvedExpectedCumulativeDownload < sum {
        approvedExpectedCumulativeDownload := sum;
      }
    }

    method DisapproveCumulativeUploads()
      modifies this
      ensures State() == Disapproved(old(State()))
    {
      notApprovedCumulativeUploads := approvedCumulativeUploads;
    }
  }
}
