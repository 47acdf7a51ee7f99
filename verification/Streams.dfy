/** Consumer-group streams: offset, pending entries, delivery counts and the cursor scan.

    Entry n of a stream has the id "n-0" and is written n here; the cursor "0-0" is 0. */
module Streams {

  datatype Pending = Pending(consumer: string, deliveredMs: int, attempts: nat)

  datatype Group = Group(offset: nat, pending: map<nat, Pending>)

  /** Entries 1..offset have been delivered, and only delivered entries are pending. */
  predicate GroupOver(g: Group, n: nat) {
    && g.offset <= n
    && forall id | id in g.pending :: 1 <= id <= g.offset && g.pending[id].attempts >= 1
  }

  function Min(a: nat, b: nat): nat { if a < b then a else b }

  // ---------- delivery and acknowledgement ----------

  /** The ids a read of at most count new entries delivers. */
  function NewIds(g: Group, n: nat, count: nat): seq<nat>
    requires g.offset <= n
  {
    seq(Min(count, n - g.offset), i => g.offset + 1 + i)
  }

  function Deliver(g: Group, n: nat, consumer: string, now: int, count: nat): Group
    requires g.offset <= n
  {
    var ids := NewIds(g, n, count);
    Group(g.offset + |ids|, g.pending + map id | id in ids :: Pending(consumer, now, 1))
  }

  function Acknowledge(g: Group, id: nat): Group {
    g.(pending := g.pending - {id})
  }

  function Attempts(g: Group, id: nat): nat {
    if id in g.pending then g.pending[id].attempts else 0
  }

  // ---------- the pending scan ----------

  predicate Ascending(ids: seq<nat>) {
    forall i, j | 0 <= i < j < |ids| :: ids[i] < ids[j]
  }

  /** Pending ids from start to n, ascending. */
  function PendingFrom(pending: map<nat, Pending>, start: nat, n: nat): (ids: seq<nat>)
    ensures forall id :: id in ids <==> id in pending && 1 <= id <= n && start <= id
    ensures Ascending(ids)
  {
    if n == 0 then []
    else
      var before := PendingFrom(pending, start, n - 1);
      assert forall i | 0 <= i < |before| :: before[i] in before;
      before + if n in pending && start <= n then [n] else []
  }

  predicate Idle(pending: map<nat, Pending>, id: nat, now: int, minIdle: int) {
    id in pending && now - pending[id].deliveredMs >= minIdle
  }

  /** The idle ones among ids, in order. */
  function IdleOf(pending: map<nat, Pending>, ids: seq<nat>, now: int, minIdle: int): (r: seq<nat>)
    ensures forall id :: id in r <==> id in ids && Idle(pending, id, now, minIdle)
    ensures |r| <= |ids|
  {
    if ids == [] then []
    else
      var n := |ids| - 1;
      IdleOf(pending, ids[..n], now, minIdle) + if Idle(pending, ids[n], now, minIdle) then [ids[n]] else []
  }

  /** Where the scan stops, having passed k ids: at count claims, at ten times count ids, or
      at the end. */
  function ScanEnd(pending: map<nat, Pending>, ids: seq<nat>, now: int, minIdle: int, count: nat, k: nat): (end: nat)
    requires k <= |ids|
    ensures k <= end <= |ids|
    ensures k < |ids| ==> k < end
    decreases |ids| - k
  {
    if k == |ids| then k
    else if |IdleOf(pending, ids[..k + 1], now, minIdle)| == count || k + 1 == count * 10 then k + 1
    else ScanEnd(pending, ids, now, minIdle, count, k + 1)
  }

  function Reassign(pending: map<nat, Pending>, ids: seq<nat>, consumer: string, now: int): map<nat, Pending> {
    map id | id in pending ::
      if id in ids then Pending(consumer, now, pending[id].attempts + 1) else pending[id]
  }

  datatype Claim = Claim(cursor: nat, ids: seq<nat>, group: Group)

  /** XAUTOCLAIM as the consumer sees it. */
  function AutoClaim(g: Group, n: nat, consumer: string, now: int, minIdle: int, start: nat, count: nat): Claim {
    var ids := PendingFrom(g.pending, start, n);
    var end := ScanEnd(g.pending, ids, now, minIdle, count, 0);
    var claimed := IdleOf(g.pending, ids[..end], now, minIdle);
    Claim(if end < |ids| then ids[end] else 0, claimed,
          g.(pending := Reassign(g.pending, claimed, consumer, now)))
  }

  /** The id lies in the range one call of the scan went over. */
  predicate Passed(start: nat, cursor: nat, id: nat) {
    start <= id && (cursor == 0 || id < cursor)
  }

  /** What one call does: it claims exactly the idle entries of the range it passed, leaves
      every other entry as it was, and moves the cursor strictly forward or back to 0. */
  lemma AutoClaimSpec(g: Group, n: nat, consumer: string, now: int, minIdle: int, start: nat, count: nat)
    ensures var r := AutoClaim(g, n, consumer, now, minIdle, start, count);
            && (r.cursor == 0 || (start < r.cursor <= n && 1 < r.cursor && r.cursor in g.pending))
            && (forall id | 1 <= id <= n ::
                  id in r.ids <==> Passed(start, r.cursor, id) && Idle(g.pending, id, now, minIdle))
            && (forall id | id in r.ids :: 1 <= id <= n)
            && r.group.offset == g.offset && r.group.pending.Keys == g.pending.Keys
            && (forall id | id in g.pending :: r.group.pending[id] ==
                  if id in r.ids then Pending(consumer, now, g.pending[id].attempts + 1) else g.pending[id])
  {
    hide PendingFrom, ScanEnd, IdleOf;
    var ids := PendingFrom(g.pending, start, n);
    var end := ScanEnd(g.pending, ids, now, minIdle, count, 0);
    var r := AutoClaim(g, n, consumer, now, minIdle, start, count);
    if end < |ids| {
      assert ids[0] < ids[end] && ids[0] in ids && ids[end] in ids;
    }
    forall id | 1 <= id <= n
      ensures id in ids[..end] <==> id in g.pending && Passed(start, r.cursor, id)
    {
      if id in ids {
        var k :| 0 <= k < |ids| && ids[k] == id;
        assert end < |ids| ==> (k < end <==> ids[k] < ids[end]);
        assert k < end ==> ids[..end][k] == id;
      }
    }
  }

  lemma AutoClaimKeepsGroup(g: Group, n: nat, consumer: string, now: int, minIdle: int, start: nat, count: nat)
    requires GroupOver(g, n)
    ensures var r := AutoClaim(g, n, consumer, now, minIdle, start, count);
            GroupOver(r.group, n) && forall id | id in r.ids :: 1 <= id <= n
  {
    AutoClaimSpec(g, n, consumer, now, minIdle, start, count);
  }

  /** A call claims at most count entries. */
  lemma {:induction false} ClaimsAreBounded(pending: map<nat, Pending>, ids: seq<nat>, now: int, minIdle: int,
                                            count: nat, k: nat)
    requires k <= |ids| && 0 < count && |IdleOf(pending, ids[..k], now, minIdle)| < count
    ensures |IdleOf(pending, ids[..ScanEnd(pending, ids, now, minIdle, count, k)], now, minIdle)| <= count
    decreases |ids| - k
  {
    if k < |ids| {
      assert ids[..k + 1][..k] == ids[..k];
      if !(|IdleOf(pending, ids[..k + 1], now, minIdle)| == count || k + 1 == count * 10) {
        ClaimsAreBounded(pending, ids, now, minIdle, count, k + 1);
      }
    }
  }

  /** No entry is claimed twice by one call. */
  lemma {:induction false} IdleAscend(pending: map<nat, Pending>, ids: seq<nat>, now: int, minIdle: int)
    requires Ascending(ids)
    ensures Ascending(IdleOf(pending, ids, now, minIdle))
  {
    if ids != [] {
      var n := |ids| - 1;
      IdleAscend(pending, ids[..n], now, minIdle);
      var before := IdleOf(pending, ids[..n], now, minIdle);
      forall id | id in before ensures id < ids[n] {
        var k :| 0 <= k < n && ids[..n][k] == id;
        assert ids[k] < ids[n];
      }
      assert forall i | 0 <= i < |before| :: before[i] in before;
    }
  }

  // ---------- how far one call goes ----------

  /** The pending ids that the scan meets before x. */
  function PendingBefore(g: Group, n: nat, start: nat, x: nat): set<nat> {
    set id | id in g.pending && 1 <= id <= n && start <= id < x
  }

  /** The idle ones among them. */
  function IdleBefore(g: Group, n: nat, now: int, minIdle: int, start: nat, x: nat): set<nat> {
    set id | id in g.pending && 1 <= id <= n && start <= id < x && now - g.pending[id].deliveredMs >= minIdle
  }

  lemma {:induction false} AscendingSize(ids: seq<nat>, elements: set<nat>)
    requires Ascending(ids) && forall id :: id in ids <==> id in elements
    ensures |elements| == |ids|
  {
    if ids == [] {
      assert elements == {};
    } else {
      var n := |ids| - 1;
      assert forall i | 0 <= i < n :: ids[i] < ids[n];
      assert ids == ids[..n] + [ids[n]];
      forall id ensures id in ids[..n] <==> id in elements - {ids[n]} {
        if id in ids[..n] {
          var i :| 0 <= i < n && ids[i] == id;
        }
      }
      AscendingSize(ids[..n], elements - {ids[n]});
    }
  }

  /** The first k ids of the scan are those before the k-th. */
  lemma CountsBefore(g: Group, n: nat, now: int, minIdle: int, start: nat, k: nat)
    requires k < |PendingFrom(g.pending, start, n)|
    ensures var ids := PendingFrom(g.pending, start, n);
            && |PendingBefore(g, n, start, ids[k])| == k
            && |IdleBefore(g, n, now, minIdle, start, ids[k])| == |IdleOf(g.pending, ids[..k], now, minIdle)|
  {
    hide PendingFrom, IdleOf;
    var ids := PendingFrom(g.pending, start, n);
    assert ids[k] in ids;
    forall id ensures id in ids[..k] <==> id in ids && id < ids[k] {
      if id in ids {
        var i :| 0 <= i < |ids| && ids[i] == id;
        assert i < k ==> ids[..k][i] == id;
        assert i > k ==> ids[k] < ids[i];
      }
    }
    assert Ascending(ids[..k]);
    AscendingSize(ids[..k], PendingBefore(g, n, start, ids[k]));
    IdleAscend(g.pending, ids[..k], now, minIdle);
    AscendingSize(IdleOf(g.pending, ids[..k], now, minIdle), IdleBefore(g, n, now, minIdle, start, ids[k]));
  }

  lemma {:induction false} IdleGrows(pending: map<nat, Pending>, ids: seq<nat>, now: int, minIdle: int, j: nat, k: nat)
    requires j <= k <= |ids|
    ensures |IdleOf(pending, ids[..j], now, minIdle)| <= |IdleOf(pending, ids[..k], now, minIdle)|
  {
    if j < k {
      assert ids[..k][..k - 1] == ids[..k - 1];
      IdleGrows(pending, ids, now, minIdle, j, k - 1);
    }
  }

  lemma {:induction false} StopsExactlyWhen(pending: map<nat, Pending>, ids: seq<nat>, now: int, minIdle: int,
                                            count: nat, k: nat, j: nat)
    requires k <= j < |ids| && |IdleOf(pending, ids[..k], now, minIdle)| < count && k < count * 10
    ensures j < ScanEnd(pending, ids, now, minIdle, count, k)
       <==> |IdleOf(pending, ids[..j], now, minIdle)| < count && j < count * 10
    decreases |ids| - k
  {
    assert ids[..k + 1][..k] == ids[..k];
    if k < j {
      if |IdleOf(pending, ids[..k + 1], now, minIdle)| == count || k + 1 == count * 10 {
        IdleGrows(pending, ids, now, minIdle, k + 1, j);
      } else {
        StopsExactlyWhen(pending, ids, now, minIdle, count, k + 1, j);
      }
    }
  }

  /** How far one call goes, for every entry: a pending entry from start on is passed if and only
      if fewer than count idle ones and fewer than ten times count pending ones come before it. */
  lemma PassedExactlyWhen(g: Group, n: nat, consumer: string, now: int, minIdle: int, start: nat, count: nat, x: nat)
    requires 0 < count && x in g.pending && 1 <= x <= n && start <= x
    ensures Passed(start, AutoClaim(g, n, consumer, now, minIdle, start, count).cursor, x)
       <==> |IdleBefore(g, n, now, minIdle, start, x)| < count && |PendingBefore(g, n, start, x)| < 10 * count
  {
    hide PendingFrom, ScanEnd, IdleOf;
    var ids := PendingFrom(g.pending, start, n);
    var end := ScanEnd(g.pending, ids, now, minIdle, count, 0);
    var j :| 0 <= j < |ids| && ids[j] == x;
    CountsBefore(g, n, now, minIdle, start, j);
    NoneIdle(g.pending, ids, now, minIdle);
    StopsExactlyWhen(g.pending, ids, now, minIdle, count, 0, j);
    if end < |ids| {
      assert ids[0] < ids[end] && ids[0] in ids && ids[end] in ids;
      assert j < end <==> ids[j] < ids[end];
    }
  }

  lemma NoneIdle(pending: map<nat, Pending>, ids: seq<nat>, now: int, minIdle: int)
    ensures IdleOf(pending, ids[..0], now, minIdle) == []
  {
  }

  /** A call that does not come back to 0 was stopped: it claimed count entries, or it passed ten
      times count pending ones; it never does more than either. */
  lemma StopsForAReason(g: Group, n: nat, consumer: string, now: int, minIdle: int, start: nat, count: nat)
    requires 0 < count
    ensures var r := AutoClaim(g, n, consumer, now, minIdle, start, count);
            && |r.ids| <= count
            && (r.cursor != 0 ==> |r.ids| == count || |PendingBefore(g, n, start, r.cursor)| == 10 * count)
            && (r.cursor != 0 ==> |PendingBefore(g, n, start, r.cursor)| <= 10 * count)
  {
    hide PendingFrom, ScanEnd, IdleOf;
    var ids := PendingFrom(g.pending, start, n);
    var end := ScanEnd(g.pending, ids, now, minIdle, count, 0);
    NoneIdle(g.pending, ids, now, minIdle);
    ClaimsAreBounded(g.pending, ids, now, minIdle, count, 0);
    if end < |ids| {
      assert ids[0] in ids && ids[end] in ids && ids[0] < ids[end];
      CountsBefore(g, n, now, minIdle, start, end);
      StopsExactlyWhen(g.pending, ids, now, minIdle, count, 0, end);
      StopsExactlyWhen(g.pending, ids, now, minIdle, count, 0, end - 1);
    }
  }

  /** With at most ten times count pending entries from start on and at most count of them idle,
      one call claims every idle one; and it is back at 0 if and only if none follows the count-th
      idle one. */
  lemma OneCallSuffices(g: Group, n: nat, consumer: string, now: int, minIdle: int, start: nat, count: nat)
    requires 0 < count && |PendingBefore(g, n, start, n + 1)| <= 10 * count
    requires |IdleBefore(g, n, now, minIdle, start, n + 1)| <= count
    ensures var r := AutoClaim(g, n, consumer, now, minIdle, start, count);
            && (forall id :: id in r.ids <==> id in IdleBefore(g, n, now, minIdle, start, n + 1))
            && (r.cursor == 0 <==> forall x | x in PendingBefore(g, n, start, n + 1) ::
                                     |IdleBefore(g, n, now, minIdle, start, x)| < count)
            && (|IdleBefore(g, n, now, minIdle, start, n + 1)| < count ==> r.cursor == 0)
  {
    hide AutoClaim;
    var r := AutoClaim(g, n, consumer, now, minIdle, start, count);
    AutoClaimSpec(g, n, consumer, now, minIdle, start, count);
    forall x | x in PendingBefore(g, n, start, n + 1)
      ensures Passed(start, r.cursor, x) <==> |IdleBefore(g, n, now, minIdle, start, x)| < count
      ensures Idle(g.pending, x, now, minIdle) ==> Passed(start, r.cursor, x)
      ensures |IdleBefore(g, n, now, minIdle, start, x)| <= |IdleBefore(g, n, now, minIdle, start, n + 1)|
    {
      PassedExactlyWhen(g, n, consumer, now, minIdle, start, count, x);
      Fewer(PendingBefore(g, n, start, x), PendingBefore(g, n, start, n + 1), x);
      var earlier, all := IdleBefore(g, n, now, minIdle, start, x), IdleBefore(g, n, now, minIdle, start, n + 1);
      assert earlier <= all;
      AtMost(earlier, all);
      if Idle(g.pending, x, now, minIdle) {
        Fewer(earlier, all, x);
      }
    }
    if r.cursor != 0 {
      assert r.cursor in PendingBefore(g, n, start, n + 1) && !Passed(start, r.cursor, r.cursor);
    }
  }

  lemma AtMost(a: set<nat>, b: set<nat>)
    requires a <= b
    ensures |a| <= |b|
  {
    assert b == a + (b - a);
  }

  lemma Fewer(a: set<nat>, b: set<nat>, x: nat)
    requires a <= b && x in b && x !in a
    ensures |a| < |b|
  {
    AtMost(a, b - {x});
  }

  /** Back at 0 is not certain: two pending entries, the first of them idle, and count 1. */
  lemma ClaimedAllButNotBack()
    ensures var g := Group(2, map[1 := Pending("a", 0, 1), 2 := Pending("a", 9, 1)]);
            var r := AutoClaim(g, 2, "b", 10, 10, 0, 1);
            r.ids == [1] && r.cursor == 2
  {
    var g := Group(2, map[1 := Pending("a", 0, 1), 2 := Pending("a", 9, 1)]);
    assert PendingFrom(g.pending, 0, 1) == [1] && PendingFrom(g.pending, 0, 2) == [1, 2];
    assert [1, 2][..1] == [1] && IdleOf(g.pending, [1], 10, 10) == [1];
    assert ScanEnd(g.pending, [1, 2], 10, 10, 1, 0) == 1;
  }

  /** What a read delivers: the next entries up to count of them, each pending for the reader with
      one attempt; nothing else changes. */
  lemma DeliverSpec(g: Group, n: nat, consumer: string, now: int, count: nat)
    requires GroupOver(g, n)
    ensures var ids, t := NewIds(g, n, count), Deliver(g, n, consumer, now, count);
            && t.offset == (if g.offset + count <= n then g.offset + count else n)
            && |ids| == t.offset - g.offset && (forall i | 0 <= i < |ids| :: ids[i] == g.offset + 1 + i)
            && (forall id :: id in t.pending <==> id in g.pending || g.offset < id <= t.offset)
            && (forall id | g.offset < id <= t.offset :: t.pending[id] == Pending(consumer, now, 1))
            && (forall id | id in g.pending :: t.pending[id] == g.pending[id])
  {
    var ids := NewIds(g, n, count);
    forall id | g.offset < id <= g.offset + |ids| ensures id in ids {
      assert ids[id - g.offset - 1] == id;
    }
  }

  /** An acknowledgement removes the entry from the pending list, and nothing else. */
  lemma AcknowledgeSpec(g: Group, id: nat)
    ensures var t := Acknowledge(g, id);
            && t.offset == g.offset && (forall x :: x in t.pending <==> x in g.pending && x != id)
            && (forall x | x in t.pending :: t.pending[x] == g.pending[x])
            && Attempts(t, id) == 0 && (forall x | x in g.pending :: Attempts(g, x) == g.pending[x].attempts)
  {
  }

  // ---------- a whole scan, with other work in between ----------

  /** The state one call of the scan finds: the group, the stream length and the clock. */
  datatype Moment = Moment(group: Group, length: nat, now: int)

  datatype Scanner = Scanner(consumer: string, minIdle: int, count: nat)

  function CallAt(sc: Scanner, m: Moment, cursor: nat): Claim {
    AutoClaim(m.group, m.length, sc.consumer, m.now, sc.minIdle, cursor, sc.count)
  }

  /** The cursor with which call i starts. */
  function CursorAt(sc: Scanner, ms: seq<Moment>, i: nat): nat
    requires i <= |ms|
  {
    if i == 0 then 0 else CallAt(sc, ms[i - 1], CursorAt(sc, ms, i - 1)).cursor
  }

  function CallOf(sc: Scanner, ms: seq<Moment>, i: nat): Claim
    requires i < |ms|
  {
    CallAt(sc, ms[i], CursorAt(sc, ms, i))
  }

  /** The calls have not come back to 0 before the last of them. */
  predicate Continues(sc: Scanner, ms: seq<Moment>) {
    forall i | 0 < i < |ms| :: CursorAt(sc, ms, i) != 0
  }

  /** One scan: from cursor 0 back to 0. */
  predicate FullScan(sc: Scanner, ms: seq<Moment>) {
    0 < |ms| && Continues(sc, ms) && CursorAt(sc, ms, |ms|) == 0
  }

  /** The entry stays pending, nobody else delivers it, and time does not run backwards;
      anything may happen to other entries and to the stream between the calls. */
  predicate LeftAlone(sc: Scanner, ms: seq<Moment>, id: nat) {
    && (forall i | 0 <= i < |ms| :: 1 <= id <= ms[i].length && id in ms[i].group.pending)
    && forall i | 0 <= i && i + 1 < |ms| ::
         && ms[i].now <= ms[i + 1].now
         && id in CallOf(sc, ms, i).group.pending
         && ms[i + 1].group.pending[id].deliveredMs == CallOf(sc, ms, i).group.pending[id].deliveredMs
  }

  /** In how many of the first i calls the entry was claimed. */
  function TimesClaimed(sc: Scanner, ms: seq<Moment>, id: nat, i: nat): nat
    requires i <= |ms|
  {
    if i == 0 then 0
    else TimesClaimed(sc, ms, id, i - 1) + if id in CallOf(sc, ms, i - 1).ids then 1 else 0
  }

  lemma {:induction false} ClaimedOncePassed(sc: Scanner, ms: seq<Moment>, id: nat, i: nat)
    requires i <= |ms| && Continues(sc, ms) && LeftAlone(sc, ms, id)
    requires 0 < |ms| && Idle(ms[0].group.pending, id, ms[0].now, sc.minIdle)
    ensures i < |ms| && CursorAt(sc, ms, i) <= id ==>
              TimesClaimed(sc, ms, id, i) == 0 && Idle(ms[i].group.pending, id, ms[i].now, sc.minIdle)
    ensures 0 < i && (CursorAt(sc, ms, i) == 0 || id < CursorAt(sc, ms, i)) ==> TimesClaimed(sc, ms, id, i) == 1
  {
    if i > 0 {
      ClaimedOncePassed(sc, ms, id, i - 1);
      var m, cursor := ms[i - 1], CursorAt(sc, ms, i - 1);
      AutoClaimSpec(m.group, m.length, sc.consumer, m.now, sc.minIdle, cursor, sc.count);
      if i < |ms| {
        assert CursorAt(sc, ms, i) != 0;
        assert ms[i - 1 + 1].now >= ms[i - 1].now;
      }
    }
  }

  /** A full scan claims exactly once every entry that stays pending, is delivered to nobody
      else, and was idle long enough when the scan began. */
  lemma {:induction false} FullScanClaimsOnce(sc: Scanner, ms: seq<Moment>, id: nat)
    requires FullScan(sc, ms) && LeftAlone(sc, ms, id)
    requires Idle(ms[0].group.pending, id, ms[0].now, sc.minIdle)
    ensures TimesClaimed(sc, ms, id, |ms|) == 1
  {
    ClaimedOncePassed(sc, ms, id, |ms|);
  }

  lemma {:induction false} CursorsAdvance(sc: Scanner, ms: seq<Moment>, n: nat, i: nat)
    requires Continues(sc, ms) && (forall k | 0 <= k < |ms| :: ms[k].length <= n) && 0 < i < |ms|
    ensures i < CursorAt(sc, ms, i) <= n
  {
    var m, cursor := ms[i - 1], CursorAt(sc, ms, i - 1);
    AutoClaimSpec(m.group, m.length, sc.consumer, m.now, sc.minIdle, cursor, sc.count);
    assert CursorAt(sc, ms, i) != 0;
    if i > 1 {
      CursorsAdvance(sc, ms, n, i - 1);
    }
  }

  /** Over a stream that does not grow past n entries, a scan is back at 0 within n calls. */
  lemma ScanEnds(sc: Scanner, ms: seq<Moment>, n: nat)
    requires Continues(sc, ms) && forall k | 0 <= k < |ms| :: ms[k].length <= n
    ensures |ms| <= n || |ms| <= 1
  {
    if |ms| > 1 {
      CursorsAdvance(sc, ms, n, |ms| - 1);
    }
  }

  // ---------- the program ----------

  datatype Message<F> = Message(id: nat, fields: F)

  /** The entries with the given ids. */
  function MessagesOf<F>(entries: seq<F>, ids: seq<nat>): (r: seq<Message<F>>)
    requires forall id | id in ids :: 1 <= id <= |entries|
    ensures |r| == |ids|
  {
    seq(|ids|, i requires 0 <= i < |ids| => assert ids[i] in ids; Message(ids[i], entries[ids[i] - 1]))
  }

  lemma DeliverOneMore<F>(entries: seq<F>, g: Group, consumer: string, now: int, i: nat)
    requires g.offset + i < |entries|
    ensures var id := g.offset + 1 + i;
            && MessagesOf(entries, NewIds(g, |entries|, i + 1))
               == MessagesOf(entries, NewIds(g, |entries|, i)) + [Message(id, entries[id - 1])]
            && Deliver(g, |entries|, consumer, now, i + 1).pending
               == Deliver(g, |entries|, consumer, now, i).pending[id := Pending(consumer, now, 1)]
  {
    assert NewIds(g, |entries|, i + 1) == NewIds(g, |entries|, i) + [g.offset + 1 + i];
  }

  lemma ClaimNone<F>(entries: seq<F>, pending: map<nat, Pending>, ids: seq<nat>, consumer: string, now: int,
                     minIdle: int)
    ensures IdleOf(pending, ids[..0], now, minIdle) == [] && MessagesOf(entries, []) == []
    ensures Reassign(pending, [], consumer, now) == pending
  {
  }

  /** One more scanned id: claimed if idle, passed over if not. */
  lemma ClaimOneMore(pending: map<nat, Pending>, ids: seq<nat>, consumer: string, now: int, minIdle: int, k: nat)
    requires k < |ids| && ids[k] in pending && Ascending(ids)
    ensures var before, after := IdleOf(pending, ids[..k], now, minIdle), IdleOf(pending, ids[..k + 1], now, minIdle);
            var earlier := Reassign(pending, before, consumer, now);
            && ids[k] in earlier && earlier[ids[k]] == pending[ids[k]]
            && (Idle(pending, ids[k], now, minIdle) ==>
                 && after == before + [ids[k]]
                 && Reassign(pending, after, consumer, now)
                    == earlier[ids[k] := Pending(consumer, now, pending[ids[k]].attempts + 1)])
            && (!Idle(pending, ids[k], now, minIdle) ==> after == before)
  {
    assert ids[..k + 1][..k] == ids[..k];
    assert ids[k] !in ids[..k] by {
      assert forall i | 0 <= i < k :: ids[..k][i] < ids[k];
    }
    var before, after := IdleOf(pending, ids[..k], now, minIdle), IdleOf(pending, ids[..k + 1], now, minIdle);
    if Idle(pending, ids[k], now, minIdle) {
      assert after == before + [ids[k]];
      assert forall id :: id in after <==> id in before || id == ids[k];
    }
  }

  lemma MessagesAppend<F>(entries: seq<F>, ids: seq<nat>, id: nat)
    requires (forall i | i in ids :: 1 <= i <= |entries|) && 1 <= id <= |entries|
    ensures MessagesOf(entries, ids + [id]) == MessagesOf(entries, ids) + [Message(id, entries[id - 1])]
  {
  }

  lemma DeliverKeepsGroup(g: Group, n: nat, consumer: string, now: int, count: nat)
    requires GroupOver(g, n)
    ensures GroupOver(Deliver(g, n, consumer, now, count), n)
  {
  }

  /** The loop of a read. */
  method ReadLoop<F>(entries: seq<F>, g: Group, consumer: string, now: int, count: nat)
    returns (g': Group, messages: seq<Message<F>>)
    requires GroupOver(g, |entries|)
    ensures g' == Deliver(g, |entries|, consumer, now, count) && GroupOver(g', |entries|)
    ensures messages == MessagesOf(entries, NewIds(g, |entries|, count))
  {
    hide MessagesOf;
    DeliverKeepsGroup(g, |entries|, consumer, now, count);
    var fetched := Min(count, |entries| - g.offset);
    var pending := g.pending;
    messages := [];
    DeliverNone(entries, g, consumer, now);
    for i := 0 to fetched
      invariant messages == MessagesOf(entries, NewIds(g, |entries|, i))
      invariant pending == Deliver(g, |entries|, consumer, now, i).pending
    {
      var id := g.offset + 1 + i;
      DeliverOneMore(entries, g, consumer, now, i);
      pending := pending[id := Pending(consumer, now, 1)];
      messages := messages + [Message(id, entries[id - 1])];
    }
    assert NewIds(g, |entries|, fetched) == NewIds(g, |entries|, count);
    g' := Group(g.offset + fetched, pending);
  }

  lemma DeliverNone<F>(entries: seq<F>, g: Group, consumer: string, now: int)
    requires g.offset <= |entries|
    ensures MessagesOf(entries, NewIds(g, |entries|, 0)) == []
    ensures Deliver(g, |entries|, consumer, now, 0).pending == g.pending
  {
  }

  /** The loop of a claim, with its two stop conditions. */
  method ClaimLoop<F>(entries: seq<F>, g: Group, consumer: string, now: int, minIdle: int, start: nat, count: nat)
    returns (cursor: nat, claimed: seq<Message<F>>, g': Group)
    requires GroupOver(g, |entries|)
    ensures var r := AutoClaim(g, |entries|, consumer, now, minIdle, start, count);
            && cursor == r.cursor && (forall id | id in r.ids :: 1 <= id <= |entries|)
            && claimed == MessagesOf(entries, r.ids) && g' == r.group && GroupOver(g', |entries|)
  {
    hide Reassign, MessagesOf, IdleOf, PendingFrom, Ascending, GroupOver;
    var ids := PendingFrom(g.pending, start, |entries|);
    ghost var end := ScanEnd(g.pending, ids, now, minIdle, count, 0);
    var pending := g.pending;
    var scanned := 0;
    claimed := [];
    ClaimNone(entries, pending, ids, consumer, now, minIdle);
    while scanned < |ids|
      invariant 0 <= scanned <= |ids|
      invariant ScanEnd(g.pending, ids, now, minIdle, count, scanned) == end
      invariant claimed == MessagesOf(entries, IdleOf(g.pending, ids[..scanned], now, minIdle))
      invariant pending == Reassign(g.pending, IdleOf(g.pending, ids[..scanned], now, minIdle), consumer, now)
    {
      var id := ids[scanned];
      ClaimOneMore(g.pending, ids, consumer, now, minIdle, scanned);
      MessagesAppend(entries, IdleOf(g.pending, ids[..scanned], now, minIdle), id);
      scanned := scanned + 1;
      if now - pending[id].deliveredMs >= minIdle {
        pending := pending[id := Pending(consumer, now, pending[id].attempts + 1)];
        claimed := claimed + [Message(id, entries[id - 1])];
      }
      if |claimed| == count || scanned == count * 10 {
        break;
      }
    }
    assert scanned == end;
    cursor := if scanned < |ids| then ids[scanned] else 0;
    AutoClaimKeepsGroup(g, |entries|, consumer, now, minIdle, start, count);
    g' := g.(pending := pending);
  }

  /** The in-memory consumer of one consumer group per (stream, group) pair. A missing stream
      or group is a KeyError in the program and excluded here. */
  class InMemoryStreamConsumer<F> {
    var nowMs: int
    var streams: map<string, seq<F>>
    var groups: map<(string, string), Group>

    ghost predicate Valid()
      reads this
    {
      forall key | key in groups :: key.0 in streams && GroupOver(groups[key], |streams[key.0]|)
    }

    constructor ()
      ensures Valid() && nowMs == 0 && streams == map[] && groups == map[]
    {
      nowMs, streams, groups := 0, map[], map[];
    }

    method XGroupCreate(stream: string, group: string)
      requires Valid()
      modifies this
      ensures Valid() && nowMs == old(nowMs)
      ensures streams == if stream in old(streams) then old(streams) else old(streams)[stream := []]
      ensures groups == if (stream, group) in old(groups) then old(groups)
                        else old(groups)[(stream, group) := Group(0, map[])]
    {
      if stream !in streams {
        streams := streams[stream := []];
      }
      if (stream, group) !in groups {
        groups := groups[(stream, group) := Group(0, map[])];
      }
    }

    method XAdd(stream: string, fields: F) returns (id: nat)
      requires Valid()
      modifies this
      ensures Valid() && nowMs == old(nowMs) && groups == old(groups)
      ensures var entries := if stream in old(streams) then old(streams)[stream] else [];
              id == |entries| + 1 && streams == old(streams)[stream := entries + [fields]]
    {
      var entries := if stream in streams then streams[stream] else [];
      id := |entries| + 1;
      streams := streams[stream := entries + [fields]];
    }

    method XReadGroup(stream: string, group: string, consumer: string, count: nat)
      returns (messages: seq<Message<F>>)
      requires Valid() && (stream, group) in groups
      modifies this
      ensures Valid() && nowMs == old(nowMs) && streams == old(streams)
      ensures var g, entries := old(groups)[(stream, group)], streams[stream];
              && groups == old(groups)[(stream, group) := Deliver(g, |entries|, consumer, nowMs, count)]
              && messages == MessagesOf(entries, NewIds(g, |entries|, count))
    {
      hide MessagesOf, Deliver, NewIds, GroupOver;
      var g, read := ReadLoop(streams[stream], groups[(stream, group)], consumer, nowMs, count);
      groups := groups[(stream, group) := g];
      return read;
    }

    method XAck(stream: string, group: string, id: nat)
      requires Valid() && (stream, group) in groups
      modifies this
      ensures Valid() && nowMs == old(nowMs) && streams == old(streams)
      ensures groups == old(groups)[(stream, group) := Acknowledge(old(groups)[(stream, group)], id)]
    {
      groups := groups[(stream, group) := Acknowledge(groups[(stream, group)], id)];
    }

    method XPending(stream: string, group: string, id: nat) returns (attempts: nat)
      requires Valid() && (stream, group) in groups
      ensures attempts == Attempts(groups[(stream, group)], id)
      ensures attempts == 0 <==> id !in groups[(stream, group)].pending
    {
      var pending := groups[(stream, group)].pending;
      attempts := if id in pending then pending[id].attempts else 0;
    }

    method XAutoClaim(stream: string, group: string, consumer: string, minIdle: int, start: nat, count: nat)
      returns (cursor: nat, claimed: seq<Message<F>>)
      requires Valid() && (stream, group) in groups
      modifies this
      ensures Valid() && nowMs == old(nowMs) && streams == old(streams)
      ensures var entries := streams[stream];
              var r := AutoClaim(old(groups)[(stream, group)], |entries|, consumer, nowMs, minIdle, start, count);
              && cursor == r.cursor && (forall id | id in r.ids :: 1 <= id <= |entries|)
              && claimed == MessagesOf(entries, r.ids)
              && groups == old(groups)[(stream, group) := r.group]
    {
      hide MessagesOf, AutoClaim, GroupOver;
      var g;
      cursor, claimed, g := ClaimLoop(streams[stream], groups[(stream, group)], consumer, nowMs, minIdle, start, count);
      groups := groups[(stream, group) := g];
    }
  }
}
