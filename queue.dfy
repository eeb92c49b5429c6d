/** The matchmaking queue of server.js: an array of entries in arrival
    order. Joining appends; matchmaking takes out the two earliest entries
    for a (tier, mode) key; leaving or disconnecting takes out the first
    entry of a connection. */
module Queue {

  /** One queued player; `socketId` names the connection. */
  datatype QueueEntry = QueueEntry(socketId: string, userId: string, tier: string, mode: string, joinedAt: int)

  predicate Matches(e: QueueEntry, tier: string, mode: string)
  {
    e.tier == tier && e.mode == mode
  }

  /** `matchmakingQueue.filter(p => p.tier === tier && p.mode === mode)`. */
  function Filter(q: seq<QueueEntry>, tier: string, mode: string): (r: seq<QueueEntry>)
    ensures |r| <= |q|
  {
    if q == [] then []
    else (if Matches(q[0], tier, mode) then [q[0]] else []) + Filter(q[1..], tier, mode)
  }

  /** The entries for any other key, in queue order. */
  function Others(q: seq<QueueEntry>, tier: string, mode: string): seq<QueueEntry>
  {
    if q == [] then []
    else (if Matches(q[0], tier, mode) then [] else [q[0]]) + Others(q[1..], tier, mode)
  }

  /** The queue with its first n entries for (tier, mode) taken out. */
  function RemoveMatches(q: seq<QueueEntry>, tier: string, mode: string, n: nat): seq<QueueEntry>
  {
    if n == 0 || q == [] then q
    else if Matches(q[0], tier, mode) then RemoveMatches(q[1..], tier, mode, n - 1)
    else [q[0]] + RemoveMatches(q[1..], tier, mode, n)
  }

  /** `q.splice(i, 1)`. */
  function Splice(q: seq<QueueEntry>, i: int): seq<QueueEntry>
    requires 0 <= i < |q|
  {
    q[..i] + q[i + 1..]
  }

  /** `q.findIndex(p => p.socketId === sid)`: the first position of the connection, or -1. */
  function FindSocket(q: seq<QueueEntry>, sid: string): (r: int)
    ensures -1 <= r < |q|
    ensures r == -1 <==> forall i :: 0 <= i < |q| ==> q[i].socketId != sid
    ensures r >= 0 ==> q[r].socketId == sid && forall i :: 0 <= i < r ==> q[i].socketId != sid
  {
    if q == [] then -1
    else if q[0].socketId == sid then 0
    else
      var k := FindSocket(q[1..], sid);
      if k == -1 then -1 else k + 1
  }

  /** What leave_queue and disconnect do to the queue. */
  function RemoveSocket(q: seq<QueueEntry>, sid: string): (r: seq<QueueEntry>)
    ensures FindSocket(q, sid) == -1 ==> r == q
    ensures var i := FindSocket(q, sid); i >= 0 ==>
      |r| == |q| - 1 && q[i].socketId == sid && r[..i] == q[..i] && r[i..] == q[i + 1..]
  {
    var i := FindSocket(q, sid);
    if i > -1 then Splice(q, i) else q
  }

  /** The entries of connection `sid`, and those of every other connection. */
  function WithSocket(q: seq<QueueEntry>, sid: string): seq<QueueEntry>
  {
    if q == [] then [] else (if q[0].socketId == sid then [q[0]] else []) + WithSocket(q[1..], sid)
  }

  function WithoutSocket(q: seq<QueueEntry>, sid: string): seq<QueueEntry>
  {
    if q == [] then [] else (if q[0].socketId == sid then [] else [q[0]]) + WithoutSocket(q[1..], sid)
  }

  lemma {:induction false} FilterAppend(a: seq<QueueEntry>, b: seq<QueueEntry>, tier: string, mode: string)
    ensures Filter(a + b, tier, mode) == Filter(a, tier, mode) + Filter(b, tier, mode)
    ensures Others(a + b, tier, mode) == Others(a, tier, mode) + Others(b, tier, mode)
  {
    if a == [] {
      assert a + b == b;
    } else {
      assert (a + b)[0] == a[0] && (a + b)[1..] == a[1..] + b;
      FilterAppend(a[1..], b, tier, mode);
      var m := Matches(a[0], tier, mode);
      assert Filter(a + b, tier, mode) == (if m then [a[0]] else []) + Filter(a[1..] + b, tier, mode);
      assert Others(a + b, tier, mode) == (if m then [] else [a[0]]) + Others(a[1..] + b, tier, mode);
    }
  }

  lemma {:induction false} SocketAppend(a: seq<QueueEntry>, b: seq<QueueEntry>, sid: string)
    ensures WithSocket(a + b, sid) == WithSocket(a, sid) + WithSocket(b, sid)
    ensures WithoutSocket(a + b, sid) == WithoutSocket(a, sid) + WithoutSocket(b, sid)
  {
    if a == [] {
      assert a + b == b;
    } else {
      assert (a + b)[0] == a[0] && (a + b)[1..] == a[1..] + b;
      SocketAppend(a[1..], b, sid);
      var m := a[0].socketId == sid;
      assert WithSocket(a + b, sid) == (if m then [a[0]] else []) + WithSocket(a[1..] + b, sid);
      assert WithoutSocket(a + b, sid) == (if m then [] else [a[0]]) + WithoutSocket(a[1..] + b, sid);
    }
  }

  /** Taking out the first n matches leaves exactly the later matches for the key. */
  lemma {:induction false} RemoveMatchesFilter(q: seq<QueueEntry>, tier: string, mode: string, n: nat)
    requires n <= |Filter(q, tier, mode)|
    ensures Filter(RemoveMatches(q, tier, mode, n), tier, mode) == Filter(q, tier, mode)[n..]
  {
    if n > 0 && q != [] {
      var f := Filter(q, tier, mode);
      var rest := Filter(q[1..], tier, mode);
      if Matches(q[0], tier, mode) {
        assert f == [q[0]] + rest;
        RemoveMatchesFilter(q[1..], tier, mode, n - 1);
        assert RemoveMatches(q, tier, mode, n) == RemoveMatches(q[1..], tier, mode, n - 1);
        assert f[n..] == rest[n - 1..];
      } else {
        assert f == rest;
        RemoveMatchesFilter(q[1..], tier, mode, n);
        var r := RemoveMatches(q[1..], tier, mode, n);
        assert RemoveMatches(q, tier, mode, n) == [q[0]] + r;
        assert ([q[0]] + r)[0] == q[0] && ([q[0]] + r)[1..] == r;
        assert Filter(RemoveMatches(q, tier, mode, n), tier, mode) == Filter(r, tier, mode);
      }
    }
  }

  /** Entries for other keys are neither removed nor reordered. */
  lemma {:induction false} RemoveMatchesOthers(q: seq<QueueEntry>, tier: string, mode: string, n: nat)
    ensures Others(RemoveMatches(q, tier, mode, n), tier, mode) == Others(q, tier, mode)
  {
    if n > 0 && q != [] {
      RemoveMatchesOthers(q[1..], tier, mode, if Matches(q[0], tier, mode) then n - 1 else n);
    }
  }

  lemma MultisetCons(x: QueueEntry, s: seq<QueueEntry>)
    ensures multiset([x] + s) == multiset{x} + multiset(s)
  {
  }

  /** The queue is its entries for the key together with all others. */
  lemma {:induction false} FilterOthersMultiset(q: seq<QueueEntry>, tier: string, mode: string)
    ensures multiset(q) == multiset(Filter(q, tier, mode)) + multiset(Others(q, tier, mode))
  {
    if q != [] {
      var f, o := Filter(q[1..], tier, mode), Others(q[1..], tier, mode);
      FilterOthersMultiset(q[1..], tier, mode);
      assert [q[0]] + q[1..] == q;
      MultisetCons(q[0], q[1..]);
      MultisetShift(q[0], multiset(q), multiset(q[1..]), multiset(f), multiset(o));
      if Matches(q[0], tier, mode) {
        MultisetCons(q[0], f);
      } else {
        MultisetCons(q[0], o);
      }
    }
  }

  lemma MultisetShift(x: QueueEntry, all: multiset<QueueEntry>, rest: multiset<QueueEntry>,
                      left: multiset<QueueEntry>, right: multiset<QueueEntry>)
    requires all == multiset{x} + rest && rest == left + right
    ensures all == (multiset{x} + left) + right && all == left + (multiset{x} + right)
  {
  }

  /** What is removed is exactly the first n matches: nothing is lost or duplicated. */
  lemma RemoveMatchesMultiset(q: seq<QueueEntry>, tier: string, mode: string, n: nat)
    requires n <= |Filter(q, tier, mode)|
    ensures multiset(RemoveMatches(q, tier, mode, n)) + multiset(Filter(q, tier, mode)[..n]) == multiset(q)
  {
    var f := Filter(q, tier, mode);
    KeptMultiset(q, tier, mode, n);
    QueueMultiset(q, tier, mode, n);
    Regroup(multiset(RemoveMatches(q, tier, mode, n)), multiset(q), multiset(f[..n]), multiset(f[n..]),
            multiset(Others(q, tier, mode)));
  }

  /** After the removal the queue holds the later matches and all others. */
  lemma KeptMultiset(q: seq<QueueEntry>, tier: string, mode: string, n: nat)
    requires n <= |Filter(q, tier, mode)|
    ensures multiset(RemoveMatches(q, tier, mode, n)) ==
            multiset(Filter(q, tier, mode)[n..]) + multiset(Others(q, tier, mode))
  {
    RemoveMatchesFilter(q, tier, mode, n);
    RemoveMatchesOthers(q, tier, mode, n);
    FilterOthersMultiset(RemoveMatches(q, tier, mode, n), tier, mode);
  }

  /** Before it the queue holds the first n matches, the later ones and all others. */
  lemma QueueMultiset(q: seq<QueueEntry>, tier: string, mode: string, n: nat)
    requires n <= |Filter(q, tier, mode)|
    ensures var f := Filter(q, tier, mode);
      multiset(q) == (multiset(f[..n]) + multiset(f[n..])) + multiset(Others(q, tier, mode))
  {
    var f := Filter(q, tier, mode);
    FilterOthersMultiset(q, tier, mode);
    assert f == f[..n] + f[n..];
  }

  /** The multiset algebra of the previous lemma: the kept entries are the
      later matches and the others; the queue is all matches and the others. */
  lemma Regroup(kept: multiset<QueueEntry>, all: multiset<QueueEntry>, first: multiset<QueueEntry>,
                later: multiset<QueueEntry>, others: multiset<QueueEntry>)
    requires kept == later + others && all == (first + later) + others
    ensures kept + first == all
  {
  }

  /** A prefix without matches is kept in front. */
  lemma {:induction false} RemoveMatchesSkips(a: seq<QueueEntry>, b: seq<QueueEntry>, tier: string, mode: string, n: nat)
    requires forall e :: e in a ==> !Matches(e, tier, mode)
    ensures RemoveMatches(a + b, tier, mode, n) == a + RemoveMatches(b, tier, mode, n)
  {
    if a == [] {
      assert a + b == b;
    } else if n == 0 {
    } else {
      assert (a + b)[0] == a[0] && (a + b)[1..] == a[1..] + b;
      RemoveMatchesSkips(a[1..], b, tier, mode, n);
    }
  }

  /** Past a prefix without matches, the first match is the next one taken out. */
  lemma RemoveFirstMatch(a: seq<QueueEntry>, x: QueueEntry, c: seq<QueueEntry>, tier: string, mode: string, n: nat)
    requires n >= 1 && Matches(x, tier, mode)
    requires forall e :: e in a ==> !Matches(e, tier, mode)
    ensures RemoveMatches(a + ([x] + c), tier, mode, n) == a + RemoveMatches(c, tier, mode, n - 1)
  {
    RemoveMatchesSkips(a, [x] + c, tier, mode, n);
    assert ([x] + c)[0] == x && ([x] + c)[1..] == c;
  }

  /** The two splices tryMatchmaking performs, at the first two matching
      positions i and j, remove exactly the first two matches. */
  lemma RemovePairBySplices(q: seq<QueueEntry>, tier: string, mode: string, i: int, j: int)
    requires 0 <= i < j < |q| && Matches(q[i], tier, mode) && Matches(q[j], tier, mode)
    requires forall m :: 0 <= m < j && m != i ==> !Matches(q[m], tier, mode)
    ensures Splice(Splice(q, i), j - 1) == RemoveMatches(q, tier, mode, 2)
  {
    NoMatchesBetween(q, tier, mode, 0, i);
    NoMatchesBetween(q, tier, mode, i + 1, j);
    SpliceTwice(q, i, j);
    RemoveFirstMatch(q[..i], q[i], q[i + 1..j] + ([q[j]] + q[j + 1..]), tier, mode, 2);
    RemoveFirstMatch(q[i + 1..j], q[j], q[j + 1..], tier, mode, 1);
  }

  /** A slice whose positions hold no match holds no matching entry. */
  lemma NoMatchesBetween(q: seq<QueueEntry>, tier: string, mode: string, from: int, to: int)
    requires 0 <= from <= to <= |q|
    requires forall m :: from <= m < to ==> !Matches(q[m], tier, mode)
    ensures forall e :: e in q[from..to] ==> !Matches(e, tier, mode)
  {
    forall e | e in q[from..to]
      ensures !Matches(e, tier, mode)
    {
      var m :| 0 <= m < to - from && q[from..to][m] == e;
      assert q[from + m] == e;
    }
  }

  /** The queue around its two spliced positions, before and after both splices. */
  lemma SpliceTwice(q: seq<QueueEntry>, i: int, j: int)
    requires 0 <= i < j < |q|
    ensures q == q[..i] + ([q[i]] + (q[i + 1..j] + ([q[j]] + q[j + 1..])))
    ensures Splice(Splice(q, i), j - 1) == q[..i] + (q[i + 1..j] + q[j + 1..])
  {
    var before, between, after := q[..i], q[i + 1..j], q[j + 1..];
    assert q == before + ([q[i]] + (between + ([q[j]] + after)));
    var once := Splice(q, i);
    assert once == before + (between + ([q[j]] + after));
    assert once[..j - 1] == before + between && once[j..] == after;
  }

  lemma FilterOfOne(e: QueueEntry, tier: string, mode: string)
    ensures Filter([e], tier, mode) == (if Matches(e, tier, mode) then [e] else [])
  {
    assert [e][1..] == [];
  }

  /** Filtering a longer prefix adds the next entry exactly when it matches. */
  lemma FilterStep(q: seq<QueueEntry>, n: int, tier: string, mode: string)
    requires 0 <= n < |q|
    ensures Filter(q[..n + 1], tier, mode) == Filter(q[..n], tier, mode) + (if Matches(q[n], tier, mode) then [q[n]] else [])
  {
    assert q[..n + 1] == q[..n] + [q[n]];
    FilterAppend(q[..n], [q[n]], tier, mode);
    FilterOfOne(q[n], tier, mode);
  }

  /** The positions of the first two entries for (tier, mode), found by
      scanning the queue; j is -1 when there are fewer than two. These are
      the positions `filter` and the two `indexOf` calls of tryMatchmaking
      arrive at. */
  method FindPair(q: seq<QueueEntry>, tier: string, mode: string) returns (i: int, j: int)
    ensures j == -1 <==> |Filter(q, tier, mode)| < 2
    ensures j != -1 ==>
      0 <= i < j < |q| && Matches(q[i], tier, mode) && Matches(q[j], tier, mode) &&
      (forall m :: 0 <= m < j && m != i ==> !Matches(q[m], tier, mode)) &&
      Filter(q, tier, mode)[0] == q[i] && Filter(q, tier, mode)[1] == q[j]
  {
    i, j := -1, -1;
    var n := 0;
    while n < |q| && j == -1
      invariant 0 <= n <= |q|
      invariant i == -1 ==> j == -1
      invariant i != -1 ==> 0 <= i < n && Matches(q[i], tier, mode)
      invariant j != -1 ==> i < j && j == n - 1 && Matches(q[j], tier, mode)
      invariant forall m :: 0 <= m < n && m != i && m != j ==> !Matches(q[m], tier, mode)
      invariant Filter(q[..n], tier, mode) ==
        (if i == -1 then [] else [q[i]] + (if j == -1 then [] else [q[j]]))
    {
      FilterStep(q, n, tier, mode);
      if Matches(q[n], tier, mode) {
        if i == -1 { i := n; } else { j := n; }
      }
      n := n + 1;
    }
    assert q == q[..n] + q[n..];
    FilterAppend(q[..n], q[n..], tier, mode);
    if j == -1 {
      assert n == |q| && q[..n] == q;
    }
  }

  lemma SocketOfOne(e: QueueEntry, sid: string)
    ensures WithSocket([e], sid) == (if e.socketId == sid then [e] else [])
    ensures WithoutSocket([e], sid) == (if e.socketId == sid then [] else [e])
  {
    assert [e][1..] == [];
  }

  /** Taking out the entry at position i of connection sid: one entry of that
      connection fewer, every other connection's entries as before. */
  lemma SpliceSocket(q: seq<QueueEntry>, i: int, sid: string)
    requires 0 <= i < |q| && q[i].socketId == sid
    ensures WithoutSocket(Splice(q, i), sid) == WithoutSocket(q, sid)
    ensures |WithSocket(Splice(q, i), sid)| == |WithSocket(q, sid)| - 1
    ensures multiset(Splice(q, i)) + multiset{q[i]} == multiset(q)
  {
    var a, x, c := q[..i], q[i], q[i + 1..];
    assert q == a + ([x] + c);
    SocketAppend(a, [x] + c, sid);
    SocketAppend([x], c, sid);
    SocketAppend(a, c, sid);
    SocketOfOne(x, sid);
    SpliceMultiset(q, i);
  }

  /** A splice takes out one copy of the spliced entry and nothing else. */
  lemma SpliceMultiset(q: seq<QueueEntry>, i: int)
    requires 0 <= i < |q|
    ensures multiset(Splice(q, i)) + multiset{q[i]} == multiset(q)
  {
    var a, x, c := q[..i], q[i], q[i + 1..];
    assert q == a + ([x] + c);
    MultisetCons(x, c);
    assert multiset(q) == multiset(a) + (multiset{x} + multiset(c));
  }

  /** leave_queue and disconnect take out exactly one entry of the connection
      when there is one, keep every other connection's entries in order, and
      change nothing otherwise. */
  lemma RemoveSocketEffect(q: seq<QueueEntry>, sid: string)
    ensures FindSocket(q, sid) == -1 ==> RemoveSocket(q, sid) == q
    ensures WithoutSocket(RemoveSocket(q, sid), sid) == WithoutSocket(q, sid)
    ensures FindSocket(q, sid) >= 0 ==>
      |RemoveSocket(q, sid)| == |q| - 1 &&
      |WithSocket(RemoveSocket(q, sid), sid)| == |WithSocket(q, sid)| - 1 &&
      multiset(RemoveSocket(q, sid)) + multiset{q[FindSocket(q, sid)]} == multiset(q)
  {
    var i := FindSocket(q, sid);
    if i >= 0 {
      SpliceSocket(q, i, sid);
    }
  }
}
