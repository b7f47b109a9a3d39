/** Sums and byte streams over queues and writers: the arithmetic of `_out_pending_bytes`. */
module OutboundSums {
  import opened Common
  import opened OutboundModel

  lemma SizeOfAppend(q: seq<Item>, item: Item)
    ensures SizeOf(q + [item]) == SizeOf(q) + Size(item)
    ensures BytesOf(q + [item]) ==
            BytesOf(q) + if item.frame.Data? then item.frame.bytes else []
  {
    assert (q + [item])[..|q|] == q;
  }

  lemma {:induction false} SizeOfFirst(q: seq<Item>)
    requires |q| > 0
    ensures SizeOf(q) == Size(q[0]) + SizeOf(q[1..])
    decreases |q|
  {
    if |q| == 1 {
      assert q[..0] == [] && q[1..] == [];
    } else {
      SizeOfFirst(q[..|q| - 1]);
      assert q[..|q| - 1][1..] == q[1..][..|q| - 2];
    }
  }

  /** Sending frames in order delivers a prefix of their bytes. */
  lemma {:induction false} BytesOfPrefix(log: seq<Item>, k: nat)
    requires k <= |log|
    ensures BytesOf(log[..k]) <= BytesOf(log)
    decreases |log|
  {
    if k == |log| {
      assert log[..k] == log;
    } else {
      BytesOfPrefix(log[..|log| - 1], k);
      assert log[..|log| - 1][..k] == log[..k];
    }
  }

  lemma {:induction false} BytesOfConcat(a: seq<Item>, b: seq<Item>)
    ensures BytesOf(a + b) == BytesOf(a) + BytesOf(b)
    decreases |b|
  {
    if b == [] {
      assert a + b == a;
    } else {
      BytesOfConcat(a, b[..|b| - 1]);
      assert (a + b)[..|a + b| - 1] == a + b[..|b| - 1];
    }
  }

  lemma {:induction false} TotalHeldUpdate(ws: seq<Writer>, i: nat, w: Writer)
    requires i < |ws|
    ensures TotalHeld(ws[i := w]) == TotalHeld(ws) - Held(ws[i]) + Held(w)
    decreases |ws|
  {
    var n := |ws| - 1;
    if i == n {
      assert ws[i := w][..n] == ws[..n];
    } else {
      TotalHeldUpdate(ws[..n], i, w);
      assert ws[i := w][..n] == ws[..n][i := w];
    }
  }

  lemma TotalHeldAppend(ws: seq<Writer>, w: Writer)
    ensures TotalHeld(ws + [w]) == TotalHeld(ws) + Held(w)
  {
    assert (ws + [w])[..|ws|] == ws;
  }

  lemma {:induction false} TotalHeldSame(ws: seq<Writer>, vs: seq<Writer>)
    requires |ws| == |vs| && forall i :: 0 <= i < |ws| ==> Held(ws[i]) == Held(vs[i])
    ensures TotalHeld(ws) == TotalHeld(vs)
    decreases |ws|
  {
    if ws != [] {
      TotalHeldSame(ws[..|ws| - 1], vs[..|vs| - 1]);
    }
  }

  /** If some bytes are pending, some writer that has not finished holds them. */
  lemma {:induction false} SomeoneHolds(ws: seq<Writer>) returns (i: nat)
    requires TotalHeld(ws) > 0
    ensures i < |ws| && Held(ws[i]) > 0
    decreases |ws|
  {
    i := |ws| - 1;
    if Held(ws[i]) == 0 {
      i := SomeoneHolds(ws[..i]);
    }
  }

  // ---- Writers created before and after the last read ---------------------------------

  predicate Stale(w: Writer, n: nat) {
    w.start < n
  }

  /** Bytes held by writers attached before the output was `n` bytes long. */
  function StaleHeld(ws: seq<Writer>, n: nat): nat {
    if ws == [] then 0
    else StaleHeld(ws[..|ws| - 1], n) + if Stale(ws[|ws| - 1], n) then Held(ws[|ws| - 1]) else 0
  }

  function Unfinished(ws: seq<Writer>): nat {
    if ws == [] then 0
    else Unfinished(ws[..|ws| - 1]) + if ws[|ws| - 1].phase.Finished? then 0 else 1
  }

  function UnfinishedStale(ws: seq<Writer>, n: nat): nat {
    if ws == [] then 0
    else
      var w := ws[|ws| - 1];
      UnfinishedStale(ws[..|ws| - 1], n) + if Stale(w, n) && !w.phase.Finished? then 1 else 0
  }

  lemma {:induction false} StaleHeldAtMostTotal(ws: seq<Writer>, n: nat)
    ensures StaleHeld(ws, n) <= TotalHeld(ws)
    decreases |ws|
  {
    if ws != [] {
      StaleHeldAtMostTotal(ws[..|ws| - 1], n);
    }
  }

  lemma {:induction false} StaleHeldShrinks(ws: seq<Writer>, vs: seq<Writer>, n: nat)
    requires |ws| == |vs|
    requires forall i :: 0 <= i < |ws| && Stale(vs[i], n) ==> Stale(ws[i], n) && Held(vs[i]) <= Held(ws[i])
    ensures StaleHeld(vs, n) <= StaleHeld(ws, n)
    decreases |ws|
  {
    if ws != [] {
      StaleHeldShrinks(ws[..|ws| - 1], vs[..|vs| - 1], n);
    }
  }

  lemma StaleHeldAppend(ws: seq<Writer>, w: Writer, n: nat)
    ensures StaleHeld(ws + [w], n) == StaleHeld(ws, n) + if Stale(w, n) then Held(w) else 0
  {
    assert (ws + [w])[..|ws|] == ws;
  }

  /** Every unfinished writer attached since the last read accounts for one replay at most. */
  lemma {:induction false} TotalSplit(ws: seq<Writer>, n: nat)
    requires forall i :: 0 <= i < |ws| && !Stale(ws[i], n) ==> Held(ws[i]) <= BUFFER_LIMIT
    requires forall i :: 0 <= i < |ws| && ws[i].phase.Finished? ==> Held(ws[i]) == 0
    ensures UnfinishedStale(ws, n) <= Unfinished(ws)
    ensures TotalHeld(ws) <= StaleHeld(ws, n) + (Unfinished(ws) - UnfinishedStale(ws, n)) * BUFFER_LIMIT
    ensures UnfinishedStale(ws, n) == 0 ==> StaleHeld(ws, n) == 0
    decreases |ws|
  {
    if ws != [] {
      TotalSplit(ws[..|ws| - 1], n);
    }
  }
}
