/** The login throttle: an ordered dict from client to a failure count and the time at which the
    client is let through again, with exponential delays, a decay and a bounded number of
    clients. Times are reals; `2.0 ** n` is the real power. */
module LoginBackoff {
  import opened Common

  type Client = nat

  const FREE_ATTEMPTS: nat := 5
  const BACKOFF_MAX: real := 900.0
  const FAIL_DECAY: real := 900.0
  const BUCKET_LIMIT: nat := 1024

  datatype Record = Record(fails: nat, unblockAt: real)

  const CLEAN := Record(0, 0.0)

  function Pow2(n: nat): real {
    if n == 0 then 1.0 else 2.0 * Pow2(n - 1)
  }

  function Delay(fails: nat): real {
    if fails <= FREE_ATTEMPTS then 0.0
    else if Pow2(fails - FREE_ATTEMPTS) <= BACKOFF_MAX then Pow2(fails - FREE_ATTEMPTS)
    else BACKOFF_MAX
  }

  /** One failed verification, recorded at `now`. */
  function Failed(r: Record, now: real): Record {
    var fails := (if now - r.unblockAt > FAIL_DECAY then 0 else r.fails) + 1;
    Record(fails, now + Delay(fails))
  }

  function Remaining(r: Record, now: real): real {
    if r.unblockAt > now then r.unblockAt - now else 0.0
  }

  // ---- One client ------------------------------------------------------------------------------

  /** Attempts in turn, each let through no later than its failure was recorded, at `times[i]`. */
  predicate Admissible(r: Record, times: seq<real>)
    decreases |times|
  {
    times == [] || (Remaining(r, times[0]) == 0.0 && Admissible(Failed(r, times[0]), times[1..]))
  }

  function After(r: Record, times: seq<real>): Record
    decreases |times|
  {
    if times == [] then r else After(Failed(r, times[0]), times[1..])
  }

  lemma {:induction false} Pow2Grows(m: nat, n: nat)
    requires m <= n
    ensures 1.0 <= Pow2(m) <= Pow2(n)
    decreases n
  {
    if n > 0 {
      if m < n {
        Pow2Grows(m, n - 1);
      } else {
        Pow2Grows(m - 1, n - 1);
      }
    }
  }

  lemma Delays()
    ensures Delay(6) == 2.0 && Delay(7) == 4.0 && Delay(8) == 8.0 && Delay(9) == 16.0
    ensures Delay(10) == 32.0 && Delay(11) == 64.0
    ensures forall f :: f <= 5 ==> Delay(f) == 0.0
    ensures forall f :: f >= 12 ==> Delay(f) >= 128.0
  {
    assert Pow2(1) == 2.0 && Pow2(2) == 4.0 && Pow2(3) == 8.0 && Pow2(4) == 16.0;
    assert Pow2(5) == 32.0 && Pow2(6) == 64.0 && Pow2(7) == 128.0;
    forall f: nat | f >= 12 ensures Delay(f) >= 128.0 {
      Pow2Grows(7, f - 5);
    }
  }

  /** How many attempts a client with so many failures is ahead of one every 93 seconds. */
  function Credit(fails: nat): real {
    if fails <= 6 then 11.0 - fails as real
    else if fails == 7 then 4.0 + 2.0 / 93.0
    else if fails == 8 then 3.0 + 6.0 / 93.0
    else if fails == 9 then 2.0 + 14.0 / 93.0
    else if fails == 10 then 1.0 + 30.0 / 93.0
    else if fails == 11 then 62.0 / 93.0
    else 0.0
  }

  /** Between two failures the client pays for one attempt, in time or in credit; a decay costs
      at least the credit it gives back. */
  lemma GapCosts(r: Record, at: real, now: real)
    requires r.fails >= 1 && r.unblockAt == at + Delay(r.fails) && Remaining(r, now) == 0.0
    ensures 1.0 <= (now - at) / 93.0 + Credit(r.fails) - Credit(Failed(r, now).fails)
  {
    Delays();
  }

  lemma {:induction false} FailuresCost(r: Record, at: real, times: seq<real>)
    requires r.fails >= 1 && r.unblockAt == at + Delay(r.fails) && Admissible(r, times) && times != []
    ensures After(r, times).fails >= 1
    ensures |times| as real <= (times[|times| - 1] - at) / 93.0 + Credit(r.fails) - Credit(After(r, times).fails)
    decreases |times|
  {
    GapCosts(r, at, times[0]);
    var next := Failed(r, times[0]);
    if |times| > 1 {
      FailuresCost(next, times[0], times[1..]);
      assert times[1..][|times| - 2] == times[|times| - 1];
    } else {
      assert After(next, times[1..]) == next;
    }
  }

  lemma {:induction false} AdmissibleSplits(r: Record, times: seq<real>, i: nat)
    requires Admissible(r, times) && i <= |times|
    ensures Admissible(r, times[..i]) && Admissible(After(r, times[..i]), times[i..])
    ensures After(r, times) == After(After(r, times[..i]), times[i..])
    decreases |times|
  {
    if i == 0 {
      assert times[0..] == times && times[..0] == [];
    } else {
      AdmissibleSplits(Failed(r, times[0]), times[1..], i - 1);
      assert times[..i][1..] == times[1..][..i - 1] && times[1..][i - 1..] == times[i..];
    }
  }

  lemma AdmissiblePrefix(r: Record, times: seq<real>, i: nat, j: nat)
    requires Admissible(r, times) && i <= j <= |times|
    ensures Admissible(After(r, times[..i]), times[i..j])
  {
    AdmissibleSplits(r, times, i);
    AdmissibleSplits(After(r, times[..i]), times[i..], j - i);
    assert times[i..][..j - i] == times[i..j];
  }

  /** Whatever the client's past, any window of T seconds holds at most 11 + T/93 of its failed
      verifications, decay included. */
  lemma WindowBound(r: Record, times: seq<real>, i: nat, j: nat, seconds: real)
    requires Admissible(r, times) && i < j <= |times| && times[j - 1] - times[i] <= seconds
    ensures (j - i) as real <= 11.0 + seconds / 93.0
  {
    AdmissiblePrefix(r, times, i, j);
    var first := Failed(After(r, times[..i]), times[i]);
    assert times[i..j][1..] == times[i + 1..j];
    if j - i > 1 {
      FailuresCost(first, times[i], times[i + 1..j]);
      assert times[i + 1..j][j - i - 2] == times[j - 1];
      assert Credit(first.fails) <= 10.0;
      assert Credit(After(first, times[i + 1..j]).fails) >= 0.0;
    }
  }

  /** The time at which a client is let through never moves back, nor does time itself. */
  lemma UnblockNeverDecreases(r: Record, now: real)
    requires Remaining(r, now) == 0.0
    ensures r.unblockAt <= now <= Failed(r, now).unblockAt
  {
    Pow2Grows(0, if r.fails + 1 > FREE_ATTEMPTS then r.fails + 1 - FREE_ATTEMPTS else 0);
    Pow2Grows(0, 0);
  }

  /** The bound is met: eleven failures within 62 seconds. */
  lemma ElevenInAMinute() returns (times: seq<real>)
    ensures Admissible(CLEAN, times) && |times| == 11 && times[10] - times[0] == 62.0
  {
    Delays();
    var r5, r6, r7 := Record(5, 1.0), Record(6, 3.0), Record(7, 7.0);
    var r8, r9, r10 := Record(8, 15.0), Record(9, 31.0), Record(10, 63.0);
    var late := [63.0];
    assert Admissible(r10, late) by { assert late[1..] == []; }
    late := Prepend(r9, 31.0, late);
    late := Prepend(r8, 15.0, late);
    late := Prepend(r7, 7.0, late);
    late := Prepend(r6, 3.0, late);
    late := Prepend(r5, 1.0, late);
    times := late;
    times := Prepend(Record(4, 1.0), 1.0, times);
    times := Prepend(Record(3, 1.0), 1.0, times);
    times := Prepend(Record(2, 1.0), 1.0, times);
    times := Prepend(Record(1, 1.0), 1.0, times);
    times := Prepend(CLEAN, 1.0, times);
  }

  lemma Prepend(r: Record, now: real, times: seq<real>) returns (longer: seq<real>)
    requires Remaining(r, now) == 0.0 && Admissible(Failed(r, now), times)
    ensures longer == [now] + times && Admissible(r, longer)
  {
    longer := [now] + times;
    assert longer[1..] == times;
  }

  // ---- All clients -----------------------------------------------------------------------------

  datatype Bucket = Bucket(client: Client, record: Record)

  function Lookup(buckets: seq<Bucket>, client: Client): Record {
    if buckets == [] then CLEAN
    else if buckets[|buckets| - 1].client == client then buckets[|buckets| - 1].record
    else Lookup(buckets[..|buckets| - 1], client)
  }

  function Popped(buckets: seq<Bucket>, client: Client): seq<Bucket> {
    if buckets == [] then []
    else
      var last := buckets[|buckets| - 1];
      Popped(buckets[..|buckets| - 1], client) + if last.client == client then [] else [last]
  }

  predicate Knows(buckets: seq<Bucket>, client: Client) {
    exists i :: 0 <= i < |buckets| && buckets[i].client == client
  }

  /** `_record_login_failure`: the client moves to the end; the oldest goes if there are too many. */
  function AfterFailure(buckets: seq<Bucket>, client: Client, now: real): seq<Bucket> {
    Last(Popped(buckets, client) + [Bucket(client, Failed(Lookup(buckets, client), now))], BUCKET_LIMIT)
  }

  datatype Event =
    | Failure(client: Client, now: real)
    | Success(client: Client)

  function AfterEvent(buckets: seq<Bucket>, e: Event): seq<Bucket> {
    match e
    case Failure(client, now) => AfterFailure(buckets, client, now)
    case Success(client) => Popped(buckets, client)
  }

  lemma {:induction false} PoppedSparesOthers(buckets: seq<Bucket>, client: Client, other: Client)
    requires client != other
    ensures Lookup(Popped(buckets, client), other) == Lookup(buckets, other)
  {
    if buckets != [] {
      var init, last := buckets[..|buckets| - 1], buckets[|buckets| - 1];
      PoppedSparesOthers(init, client, other);
      if last.client != client {
        assert (Popped(init, client) + [last])[..|Popped(init, client)|] == Popped(init, client);
      } else {
        assert Popped(buckets, client) == Popped(init, client);
      }
    }
  }

  /** Dropping old buckets does not change what is known of a client that is still there. */
  lemma {:induction false} LookupOfSuffix(buckets: seq<Bucket>, n: nat, client: Client)
    requires n <= |buckets| && Knows(buckets[n..], client)
    ensures Lookup(buckets[n..], client) == Lookup(buckets, client)
    decreases |buckets|
  {
    var last := |buckets| - 1;
    assert n < |buckets| && buckets[n..][last - n] == buckets[last];
    if buckets[last].client != client {
      var init := buckets[..last];
      assert init[n..] == buckets[n..][..last - n];
      var i :| 0 <= i < |buckets[n..]| && buckets[n..][i].client == client;
      assert init[n..][i].client == client;
      LookupOfSuffix(init, n, client);
    }
  }

  /** A failure is recorded on top of what was known of its client, and changes no other client
      that stays in the table. */
  lemma FailureMeaning(buckets: seq<Bucket>, client: Client, now: real, other: Client)
    ensures var r := AfterFailure(buckets, client, now);
            && |r| <= BUCKET_LIMIT
            && Lookup(r, client) == Failed(Lookup(buckets, client), now)
            && (other != client && Knows(r, other) ==> Lookup(r, other) == Lookup(buckets, other))
  {
    var all := Popped(buckets, client) + [Bucket(client, Failed(Lookup(buckets, client), now))];
    var r := AfterFailure(buckets, client, now);
    assert r == all[|all| - |r|..];
    assert r[|r| - 1] == all[|all| - 1];
    if other != client && Knows(r, other) {
      LookupOfSuffix(all, |all| - |r|, other);
      assert all[..|all| - 1] == Popped(buckets, client);
      PoppedSparesOthers(buckets, client, other);
    }
  }

  /** A run of the whole table in which the client never succeeds, is let through each time it
      fails, and is never evicted. */
  predicate Watched(buckets: seq<Bucket>, events: seq<Event>, client: Client)
    decreases |events|
  {
    events == [] ||
    (var e := events[0];
     var after := AfterEvent(buckets, e);
     && (e.client == client ==> e.Failure? && Remaining(Lookup(buckets, client), e.now) == 0.0)
     && (e.client != client && Lookup(buckets, client) != CLEAN ==> Knows(after, client))
     && Watched(after, events[1..], client))
  }

  function TimesOf(events: seq<Event>, client: Client): seq<real> {
    if events == [] then []
    else (if events[0].client == client && events[0].Failure? then [events[0].now] else [])
         + TimesOf(events[1..], client)
  }

  lemma {:induction false} UnknownIsClean(buckets: seq<Bucket>, client: Client)
    requires !Knows(buckets, client)
    ensures Lookup(buckets, client) == CLEAN
  {
    if buckets != [] {
      var init := buckets[..|buckets| - 1];
      assert forall i :: 0 <= i < |init| ==> init[i] == buckets[i];
      assert buckets[|buckets| - 1].client != client;
      assert !Knows(init, client);
      UnknownIsClean(init, client);
    }
  }

  lemma OtherEventSpares(buckets: seq<Bucket>, e: Event, client: Client)
    requires e.client != client
    requires Lookup(buckets, client) != CLEAN ==> Knows(AfterEvent(buckets, e), client)
    ensures Lookup(AfterEvent(buckets, e), client) == Lookup(buckets, client)
  {
    if e.Failure? {
      FailureMeaning(buckets, e.client, e.now, client);
      if !Knows(AfterEvent(buckets, e), client) {
        UnknownIsClean(AfterEvent(buckets, e), client);
      }
    } else {
      PoppedSparesOthers(buckets, e.client, client);
    }
  }

  /** Among all clients, each one's failures follow its own record. */
  lemma {:induction false} OthersDoNotMatter(buckets: seq<Bucket>, events: seq<Event>, client: Client)
    requires Watched(buckets, events, client)
    ensures Admissible(Lookup(buckets, client), TimesOf(events, client))
    decreases |events|
  {
    if events != [] {
      var e := events[0];
      OthersDoNotMatter(AfterEvent(buckets, e), events[1..], client);
      if e.client == client {
        FailureMeaning(buckets, client, e.now, client);
        assert TimesOf(events, client)[1..] == TimesOf(events[1..], client);
      } else {
        OtherEventSpares(buckets, e, client);
        assert TimesOf(events, client) == TimesOf(events[1..], client);
      }
    }
  }

  /** The bound for one client of many. */
  lemma ClientWindowBound(buckets: seq<Bucket>, events: seq<Event>, client: Client, i: nat, j: nat, seconds: real)
    requires Watched(buckets, events, client)
    requires i < j <= |TimesOf(events, client)|
    requires TimesOf(events, client)[j - 1] - TimesOf(events, client)[i] <= seconds
    ensures (j - i) as real <= 11.0 + seconds / 93.0
  {
    OthersDoNotMatter(buckets, events, client);
    WindowBound(Lookup(buckets, client), TimesOf(events, client), i, j, seconds);
  }

  // ---- What each event does ----------------------------------------------------------------------

  /** The delays after the sixth to the fourteenth failure, in seconds. */
  lemma DelaysDouble()
    ensures Delay(6) == 2.0 && Delay(7) == 4.0 && Delay(8) == 8.0 && Delay(9) == 16.0 && Delay(10) == 32.0
    ensures Delay(11) == 64.0 && Delay(12) == 128.0 && Delay(13) == 256.0 && Delay(14) == 512.0
    ensures forall f :: f >= 15 ==> Delay(f) == 900.0
  {
    Delays();
    assert Pow2(7) == 128.0 && Pow2(8) == 256.0 && Pow2(9) == 512.0 && Pow2(10) == 1024.0;
    forall f: nat | f >= 15 ensures Delay(f) == 900.0 {
      Pow2Grows(10, f - 5);
    }
  }

  /** What a failure makes of its client's entry: one more failure, or the first again when the
      client has been free to try for more than 900 s; no delay up to five failures, then 2 s,
      doubling, and never more than 900 s. */
  lemma FailureDecides(buckets: seq<Bucket>, client: Client, now: real)
    ensures var before := Lookup(buckets, client);
            var after := Lookup(AfterFailure(buckets, client, now), client);
            && (if now - before.unblockAt > 900.0 then after == Record(1, now) else after.fails == before.fails + 1)
            && now <= after.unblockAt <= now + 900.0
            && (after.fails <= 5 ==> after.unblockAt == now)
            && (after.fails == 6 ==> after.unblockAt == now + 2.0)
            && (6 < after.fails <= 14 ==> after.unblockAt - now == 2.0 * Delay(after.fails - 1))
            && (after.fails >= 15 ==> after.unblockAt == now + 900.0)
  {
    FailureMeaning(buckets, client, now, client);
    Delays();
    DelaysDouble();
  }

  ghost predicate Distinct(buckets: seq<Bucket>) {
    forall i, j :: 0 <= i < j < |buckets| ==> buckets[i].client != buckets[j].client
  }

  lemma KnowsSnoc(buckets: seq<Bucket>, b: Bucket, client: Client)
    ensures Knows(buckets + [b], client) <==> Knows(buckets, client) || b.client == client
  {
    if Knows(buckets, client) {
      var i :| 0 <= i < |buckets| && buckets[i].client == client;
      assert (buckets + [b])[i].client == client;
    }
    assert (buckets + [b])[|buckets|] == b;
  }

  /** Taking a client out leaves the others, in order. */
  lemma {:induction false} PoppedMeaning(buckets: seq<Bucket>, client: Client, other: Client)
    requires Distinct(buckets)
    ensures var r := Popped(buckets, client);
            && (Knows(r, other) <==> Knows(buckets, other) && other != client)
            && |r| == |buckets| - (if Knows(buckets, client) then 1 else 0)
            && Lookup(r, client) == CLEAN
            && (!Knows(buckets, client) ==> r == buckets)
  {
    if buckets != [] {
      var init, last := buckets[..|buckets| - 1], buckets[|buckets| - 1];
      assert buckets == init + [last];
      PoppedMeaning(init, client, other);
      KnowsSnoc(init, last, other);
      KnowsSnoc(init, last, client);
      if last.client != client {
        KnowsSnoc(Popped(init, client), last, other);
        LookupSnoc(Popped(init, client), last, client);
      } else {
        assert Popped(buckets, client) == Popped(init, client);
        NotBefore(init, last);
      }
    }
  }

  lemma NotBefore(init: seq<Bucket>, last: Bucket)
    requires Distinct(init + [last])
    ensures !Knows(init, last.client)
  {
    forall i | 0 <= i < |init| ensures init[i].client != last.client {
      assert (init + [last])[i] == init[i] && (init + [last])[|init|] == last;
    }
  }

  lemma LookupSnoc(buckets: seq<Bucket>, b: Bucket, client: Client)
    ensures Lookup(buckets + [b], client) == if b.client == client then b.record else Lookup(buckets, client)
  {
    assert (buckets + [b])[..|buckets|] == buckets;
  }

  /** A failure forgets nobody, except the client at the front when the table is full and the
      failing client is not in it. */
  lemma FailureEvicts(buckets: seq<Bucket>, client: Client, now: real, other: Client)
    requires Distinct(buckets) && |buckets| <= BUCKET_LIMIT && Knows(buckets, other) && other != client
    ensures Knows(AfterFailure(buckets, client, now), other) <==>
            !(|buckets| == 1024 && !Knows(buckets, client) && buckets[0].client == other)
  {
    var b := Bucket(client, Failed(Lookup(buckets, client), now));
    var popped := Popped(buckets, client);
    PoppedMeaning(buckets, client, other);
    KnowsSnoc(popped, b, other);
    var all := popped + [b];
    if |all| > BUCKET_LIMIT {
      assert Last(all, BUCKET_LIMIT) == all[1..];
      FrontGoes(all, other);
    } else {
      assert Last(all, BUCKET_LIMIT) == all;
    }
  }

  lemma FrontGoes(all: seq<Bucket>, other: Client)
    requires all != [] && forall i :: 1 <= i < |all| - 1 ==> all[i].client != all[0].client
    requires |all| >= 2 && all[|all| - 1].client != other && Knows(all, other)
    ensures Knows(all[1..], other) <==> all[0].client != other
  {
    if all[0].client != other {
      var i :| 0 <= i < |all| && all[i].client == other;
      assert all[1..][i - 1].client == other;
    }
  }

  /** A success forgets its client's failures and nobody else's. */
  lemma SuccessDecides(buckets: seq<Bucket>, client: Client, other: Client)
    requires Distinct(buckets)
    ensures var r := AfterEvent(buckets, Success(client));
            && Lookup(r, client) == CLEAN
            && (other != client ==> Lookup(r, other) == Lookup(buckets, other) && (Knows(r, other) <==> Knows(buckets, other)))
  {
    PoppedMeaning(buckets, client, other);
    if other != client {
      PoppedSparesOthers(buckets, client, other);
    }
  }

  lemma {:induction false} PoppedIsDistinct(buckets: seq<Bucket>, client: Client)
    requires Distinct(buckets)
    ensures Distinct(Popped(buckets, client))
  {
    if buckets != [] {
      var init, last := buckets[..|buckets| - 1], buckets[|buckets| - 1];
      assert buckets == init + [last];
      PoppedIsDistinct(init, client);
      if last.client != client {
        NotBefore(init, last);
        PoppedMeaning(init, client, last.client);
        SnocIsDistinct(Popped(init, client), last);
      } else {
        assert Popped(buckets, client) == Popped(init, client);
      }
    }
  }

  lemma SnocIsDistinct(buckets: seq<Bucket>, b: Bucket)
    requires Distinct(buckets) && !Knows(buckets, b.client)
    ensures Distinct(buckets + [b])
  {
  }

  /** The table keeps one entry a client, and its bound, in every run. */
  lemma EventKeepsTable(buckets: seq<Bucket>, e: Event)
    requires Distinct(buckets) && |buckets| <= BUCKET_LIMIT
    ensures Distinct(AfterEvent(buckets, e)) && |AfterEvent(buckets, e)| <= BUCKET_LIMIT
  {
    PoppedIsDistinct(buckets, e.client);
    PoppedMeaning(buckets, e.client, e.client);
    if e.Failure? {
      SnocIsDistinct(Popped(buckets, e.client), Bucket(e.client, Failed(Lookup(buckets, e.client), e.now)));
    }
  }

  /** The table after these events, from an empty one; and which of them was the client's last
      failure, counted from one, or zero. */
  function Table(events: seq<Event>): seq<Bucket> {
    if events == [] then [] else AfterEvent(Table(events[..|events| - 1]), events[|events| - 1])
  }

  function LastFailure(events: seq<Event>, client: Client): nat {
    if events == [] then 0
    else if events[|events| - 1].Failure? && events[|events| - 1].client == client then |events|
    else LastFailure(events[..|events| - 1], client)
  }

  ghost predicate InOrder(buckets: seq<Bucket>, events: seq<Event>) {
    forall i, j :: 0 <= i < j < |buckets| ==>
      LastFailure(events, buckets[i].client) < LastFailure(events, buckets[j].client)
  }

  lemma InOrderSnoc(buckets: seq<Bucket>, b: Bucket, events: seq<Event>)
    requires InOrder(buckets, events)
    requires forall c :: Knows(buckets, c) ==> LastFailure(events, c) < LastFailure(events, b.client)
    ensures InOrder(buckets + [b], events)
  {
    forall i | 0 <= i < |buckets| ensures LastFailure(events, buckets[i].client) < LastFailure(events, b.client) {
      assert Knows(buckets, buckets[i].client);
    }
  }

  lemma {:induction false} PoppedInOrder(buckets: seq<Bucket>, client: Client, events: seq<Event>)
    requires InOrder(buckets, events)
    ensures InOrder(Popped(buckets, client), events)
  {
    if buckets != [] {
      var init, last := buckets[..|buckets| - 1], buckets[|buckets| - 1];
      PoppedInOrder(init, client, events);
      if last.client != client {
        forall c | Knows(Popped(init, client), c) ensures LastFailure(events, c) < LastFailure(events, last.client) {
          PoppedMeaning(init, client, c);
          var i :| 0 <= i < |init| && init[i].client == c;
          assert buckets[i] == init[i];
        }
        InOrderSnoc(Popped(init, client), last, events);
      } else {
        assert Popped(buckets, client) == Popped(init, client);
      }
    }
  }

  lemma {:induction false} LastFailureBound(events: seq<Event>, client: Client)
    ensures LastFailure(events, client) <= |events|
  {
    if events != [] {
      LastFailureBound(events[..|events| - 1], client);
    }
  }

  /** One event: only its own client's last failure may be a later one. */
  lemma EventKeepsOrder(buckets: seq<Bucket>, before: seq<Event>, e: Event)
    requires InOrder(buckets, before)
    ensures InOrder(AfterEvent(buckets, e), before + [e])
  {
    var events := before + [e];
    assert events[..|before|] == before;
    var popped := Popped(buckets, e.client);
    PoppedInOrder(buckets, e.client, before);
    forall c | Knows(popped, c) ensures LastFailure(events, c) == LastFailure(before, c) <= |before| {
      PoppedMeaning(buckets, e.client, c);
      LastFailureBound(before, c);
    }
    assert forall i :: 0 <= i < |popped| ==> Knows(popped, popped[i].client);
    assert InOrder(popped, events);
    if e.Failure? {
      InOrderSnoc(popped, Bucket(e.client, Failed(Lookup(buckets, e.client), e.now)), events);
    }
  }

  /** In every run the entries stand in the order of their clients' last failures, one a client and
      at most 1024: so the one at the front, which goes when there are too many, is the one whose
      client has not failed for longest. */
  lemma {:induction false} TableInOrder(events: seq<Event>)
    ensures InOrder(Table(events), events) && Distinct(Table(events)) && |Table(events)| <= 1024
  {
    if events != [] {
      var before, e := events[..|events| - 1], events[|events| - 1];
      TableInOrder(before);
      assert events == before + [e];
      EventKeepsOrder(Table(before), before, e);
      EventKeepsTable(Table(before), e);
    }
  }

  // ---- The object --------------------------------------------------------------------------------

  class LoginThrottle {
    var loginFails: seq<Bucket>

    constructor ()
      ensures loginFails == []
    {
      loginFails := [];
    }

    method BlockRemaining(client: Client, now: real) returns (wait: real)
      ensures wait == Remaining(Lookup(loginFails, client), now)
      ensures wait >= 0.0 && (wait == 0.0 <==> Lookup(loginFails, client).unblockAt <= now)
      ensures wait > 0.0 ==> now + wait == Lookup(loginFails, client).unblockAt
    {
      var r := Find(client);
      wait := if r.unblockAt > now then r.unblockAt - now else 0.0;
    }

    method Find(client: Client) returns (r: Record)
      ensures r == Lookup(loginFails, client)
    {
      var i := |loginFails|;
      assert loginFails[..i] == loginFails;
      while i > 0 && loginFails[i - 1].client != client
        invariant 0 <= i <= |loginFails|
        invariant Lookup(loginFails, client) == Lookup(loginFails[..i], client)
      {
        assert loginFails[..i][..i - 1] == loginFails[..i - 1];
        i := i - 1;
      }
      r := if i > 0 then loginFails[i - 1].record else CLEAN;
    }

    method Pop(client: Client)
      modifies this
      ensures loginFails == Popped(old(loginFails), client)
    {
      var buckets, kept := loginFails, [];
      for i := 0 to |buckets|
        invariant kept == Popped(buckets[..i], client)
      {
        assert buckets[..i + 1][..i] == buckets[..i];
        if buckets[i].client != client {
          kept := kept + [buckets[i]];
        }
      }
      assert buckets[..|buckets|] == buckets;
      loginFails := kept;
    }

    method RecordFailure(client: Client, now: real)
      modifies this
      ensures loginFails == AfterFailure(old(loginFails), client, now)
      ensures if now - Lookup(old(loginFails), client).unblockAt > 900.0
              then Lookup(loginFails, client) == Record(1, now)
              else Lookup(loginFails, client).fails == Lookup(old(loginFails), client).fails + 1
      ensures now <= Lookup(loginFails, client).unblockAt <= now + 900.0
    {
      FailureDecides(loginFails, client, now);
      var r := Find(client);
      Pop(client);
      ghost var all := loginFails + [Bucket(client, Failed(r, now))];
      var buckets := loginFails + [Bucket(client, Failed(r, now))];
      while |buckets| > BUCKET_LIMIT
        invariant |buckets| <= |all| && buckets == all[|all| - |buckets|..]
        invariant |buckets| >= Min(|all|, BUCKET_LIMIT)
      {
        buckets := buckets[1..];
      }
      loginFails := buckets;
    }
  }
}
