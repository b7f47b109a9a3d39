/** The login tokens: an ordered dict from token hash to issue time, bounded in number and in
    age. Hashes stand for the random tokens themselves, so a new one is a fresh number. */
module TokenStore {
  import opened Common

  type Key = nat

  const TTL: real := 2592000.0   // 30 * 24 * 3600 seconds
  const MAX_TOKENS: nat := 512

  datatype Entry = Entry(key: Key, issuedAt: real)

  predicate Expired(e: Entry, now: real) {
    now - e.issuedAt >= TTL
  }

  /** The entries not expired yet, in order. */
  function Unexpired(tokens: seq<Entry>, now: real): seq<Entry> {
    if tokens == [] then []
    else
      var head := tokens[|tokens| - 1];
      Unexpired(tokens[..|tokens| - 1], now) + if Expired(head, now) then [] else [head]
  }

  function Without(tokens: seq<Entry>, key: Key): seq<Entry> {
    if tokens == [] then []
    else
      var head := tokens[|tokens| - 1];
      Without(tokens[..|tokens| - 1], key) + if head.key == key then [] else [head]
  }

  predicate Has(tokens: seq<Entry>, key: Key) {
    exists i :: 0 <= i < |tokens| && tokens[i].key == key
  }

  /** In issue order, none from the future, one entry per key. */
  ghost predicate Tidy(tokens: seq<Entry>, now: real) {
    && (forall i, j :: 0 <= i < j < |tokens| ==> tokens[i].issuedAt <= tokens[j].issuedAt)
    && (forall i, j :: 0 <= i < j < |tokens| ==> tokens[i].key != tokens[j].key)
    && (forall i :: 0 <= i < |tokens| ==> tokens[i].issuedAt <= now)
  }

  /** The store after a token was issued: the newest of the unexpired ones and the new one. */
  function Issued(tokens: seq<Entry>, key: Key, now: real): seq<Entry> {
    Last(Unexpired(tokens, now) + [Entry(key, now)], MAX_TOKENS)
  }

  predicate IsValid(tokens: seq<Entry>, key: Key, now: real) {
    exists i :: 0 <= i < |tokens| && tokens[i].key == key && !Expired(tokens[i], now)
  }

  /** The store after a key was looked up: an expired entry is dropped. */
  function Checked(tokens: seq<Entry>, key: Key, now: real): seq<Entry> {
    if IsValid(tokens, key, now) then tokens else Without(tokens, key)
  }

  // ---- Meaning -----------------------------------------------------------------------------

  lemma SliceIsTidy(tokens: seq<Entry>, lo: nat, hi: nat, now: real)
    requires Tidy(tokens, now) && lo <= hi <= |tokens|
    ensures Tidy(tokens[lo..hi], now)
  {
  }

  lemma SnocIsTidy(tokens: seq<Entry>, e: Entry, now: real)
    requires Tidy(tokens, now) && e.issuedAt <= now
    requires forall f :: f in tokens ==> f.issuedAt <= e.issuedAt && f.key != e.key
    ensures Tidy(tokens + [e], now)
  {
    forall i | 0 <= i < |tokens| ensures tokens[i].issuedAt <= e.issuedAt && tokens[i].key != e.key {
      assert tokens[i] in tokens;
    }
  }

  /** In a tidy store the last entry is the newest and no other has its key. */
  lemma LastIsNewest(tokens: seq<Entry>, now: real)
    requires Tidy(tokens, now) && tokens != []
    ensures forall f :: f in tokens[..|tokens| - 1] ==>
              f.issuedAt <= tokens[|tokens| - 1].issuedAt && f.key != tokens[|tokens| - 1].key
  {
  }

  lemma OlderExpireFirst(tokens: seq<Entry>, now: real)
    requires Tidy(tokens, now) && tokens != [] && Expired(tokens[|tokens| - 1], now)
    ensures forall i :: 0 <= i < |tokens| ==> Expired(tokens[i], now)
  {
  }

  lemma {:induction false} AllExpired(tokens: seq<Entry>, now: real)
    requires forall i :: 0 <= i < |tokens| ==> Expired(tokens[i], now)
    ensures Unexpired(tokens, now) == []
  {
    if tokens != [] {
      AllExpired(tokens[..|tokens| - 1], now);
    }
  }

  predicate SplitAt(tokens: seq<Entry>, n: nat, now: real) {
    && n <= |tokens| && Unexpired(tokens, now) == tokens[n..]
    && forall i :: 0 <= i < |tokens| ==> (i < n <==> Expired(tokens[i], now))
  }

  lemma SplitGrows(tokens: seq<Entry>, n: nat, now: real)
    requires tokens != [] && SplitAt(tokens[..|tokens| - 1], n, now) && !Expired(tokens[|tokens| - 1], now)
    ensures SplitAt(tokens, n, now)
  {
    var init := tokens[..|tokens| - 1];
    assert tokens[n..] == init[n..] + [tokens[|tokens| - 1]];
    forall i | 0 <= i < |tokens| ensures i < n <==> Expired(tokens[i], now) {
      if i < |init| {
        assert init[i] == tokens[i];
      }
    }
  }

  /** In issue order the expired entries come first, so expiry drops a prefix. */
  lemma {:induction false} UnexpiredIsSuffix(tokens: seq<Entry>, now: real) returns (n: nat)
    requires Tidy(tokens, now)
    ensures SplitAt(tokens, n, now)
  {
    if tokens == [] {
      n := 0;
    } else if Expired(tokens[|tokens| - 1], now) {
      OlderExpireFirst(tokens, now);
      AllExpired(tokens, now);
      n := |tokens|;
    } else {
      SliceIsTidy(tokens, 0, |tokens| - 1, now);
      n := UnexpiredIsSuffix(tokens[..|tokens| - 1], now);
      SplitGrows(tokens, n, now);
    }
  }

  lemma {:induction false} WithoutMembers(tokens: seq<Entry>, key: Key)
    ensures forall e :: e in Without(tokens, key) <==> e in tokens && e.key != key
    ensures |Without(tokens, key)| <= |tokens|
  {
    if tokens != [] {
      var init, head := tokens[..|tokens| - 1], tokens[|tokens| - 1];
      WithoutMembers(init, key);
      assert tokens == init + [head];
    }
  }

  lemma {:induction false} WithoutIsTidy(tokens: seq<Entry>, key: Key, now: real)
    requires Tidy(tokens, now)
    ensures Tidy(Without(tokens, key), now)
  {
    if tokens != [] {
      var init, head := tokens[..|tokens| - 1], tokens[|tokens| - 1];
      SliceIsTidy(tokens, 0, |tokens| - 1, now);
      WithoutIsTidy(init, key, now);
      WithoutMembers(init, key);
      LastIsNewest(tokens, now);
      if head.key != key {
        SnocIsTidy(Without(init, key), head, now);
      } else {
        assert Without(tokens, key) == Without(init, key);
      }
    }
  }

  lemma WithoutKeepsRest(tokens: seq<Entry>, key: Key, now: real)
    requires Tidy(tokens, now)
    ensures Tidy(Without(tokens, key), now)
    ensures forall e :: e in Without(tokens, key) <==> e in tokens && e.key != key
    ensures |Without(tokens, key)| <= |tokens|
  {
    WithoutIsTidy(tokens, key, now);
    WithoutMembers(tokens, key);
  }

  lemma {:induction false} WithoutHas(tokens: seq<Entry>, key: Key, k: Key)
    ensures Has(Without(tokens, key), k) <==> Has(tokens, k) && k != key
  {
    if tokens != [] {
      var init, head := tokens[..|tokens| - 1], tokens[|tokens| - 1];
      WithoutHas(init, key, k);
      HasSnoc(init, head, k);
      assert tokens == init + [head];
      if head.key != key {
        HasSnoc(Without(init, key), head, k);
      } else {
        assert Without(tokens, key) == Without(init, key);
      }
    }
  }

  lemma HasSnoc(tokens: seq<Entry>, e: Entry, k: Key)
    ensures Has(tokens + [e], k) <==> Has(tokens, k) || e.key == k
  {
    if Has(tokens, k) {
      var i :| 0 <= i < |tokens| && tokens[i].key == k;
      assert (tokens + [e])[i].key == k;
    }
    assert (tokens + [e])[|tokens|] == e;
  }

  lemma MembersHave(tokens: seq<Entry>)
    ensures forall e :: e in tokens ==> Has(tokens, e.key)
  {
    forall e | e in tokens ensures Has(tokens, e.key) {
      var i :| 0 <= i < |tokens| && tokens[i] == e;
    }
  }

  lemma {:induction false} WithoutAbsent(tokens: seq<Entry>, key: Key)
    requires !Has(tokens, key)
    ensures Without(tokens, key) == tokens
  {
    if tokens != [] {
      var init, head := tokens[..|tokens| - 1], tokens[|tokens| - 1];
      assert tokens == init + [head];
      HasSnoc(init, head, key);
      WithoutAbsent(init, key);
    }
  }

  lemma LaterIsTidy(tokens: seq<Entry>, now: real, later: real)
    requires Tidy(tokens, now) && now <= later
    ensures Tidy(tokens, later)
  {
  }

  lemma UnexpiredMeaning(tokens: seq<Entry>, now: real)
    requires Tidy(tokens, now)
    ensures Tidy(Unexpired(tokens, now), now)
    ensures forall e :: e in Unexpired(tokens, now) <==> e in tokens && !Expired(e, now)
  {
    var n := UnexpiredIsSuffix(tokens, now);
    SliceIsTidy(tokens, n, |tokens|, now);
    forall e | e in tokens && !Expired(e, now) ensures e in Unexpired(tokens, now) {
      var i :| 0 <= i < |tokens| && tokens[i] == e;
      assert tokens[n..][i - n] == e;
    }
  }

  lemma PrefixIsOlder(live: seq<Entry>, m: nat, now: real)
    requires Tidy(live, now) && m <= |live|
    ensures forall e, f :: e in live[..m] && f in live[m..] ==> e.issuedAt <= f.issuedAt
  {
    forall e, f | e in live[..m] && f in live[m..] ensures e.issuedAt <= f.issuedAt {
      var i :| 0 <= i < m && live[..m][i] == e;
      var j :| 0 <= j < |live| - m && live[m..][j] == f;
      assert live[i] == e && live[m + j] == f;
    }
  }

  /** Keeping the newest MAX_TOKENS loses only entries that so many others follow. */
  lemma NewestMeaning(live: seq<Entry>, now: real)
    requires Tidy(live, now)
    ensures var r := Last(live, MAX_TOKENS);
            && Tidy(r, now) && (forall e :: e in r ==> e in live)
            && (forall e :: e in live && e !in r ==> |r| == MAX_TOKENS)
            && (forall e, f :: e in live && e !in r && f in r ==> e.issuedAt <= f.issuedAt)
  {
    var r := Last(live, MAX_TOKENS);
    var m := |live| - |r|;
    SliceIsTidy(live, m, |live|, now);
    PrefixIsOlder(live, m, now);
    SplitMembers(live, m);
  }

  lemma SplitMembers(tokens: seq<Entry>, m: nat)
    requires m <= |tokens|
    ensures forall e :: e in tokens <==> e in tokens[..m] || e in tokens[m..]
  {
    assert tokens == tokens[..m] + tokens[m..];
  }

  /** Issuing keeps the order and the bound, keeps the new token, drops what has expired, and
      drops an unexpired token only for MAX_TOKENS unexpired ones issued no earlier. */
  lemma IssuedMeaning(tokens: seq<Entry>, key: Key, now: real)
    requires Tidy(tokens, now) && !Has(tokens, key)
    ensures var r := Issued(tokens, key, now);
            && Tidy(r, now) && 0 < |r| <= MAX_TOKENS && r[|r| - 1] == Entry(key, now)
            && (forall e :: e in r ==> !Expired(e, now) && (e in tokens || e == Entry(key, now)))
            && (forall e :: e in tokens && e !in r && !Expired(e, now) ==> |r| == MAX_TOKENS)
            && (forall e, f :: e in tokens && e !in r && !Expired(e, now) && f in r ==> e.issuedAt <= f.issuedAt)
  {
    var kept := Unexpired(tokens, now);
    UnexpiredMeaning(tokens, now);
    forall f | f in kept ensures f.issuedAt <= now && f.key != key {
      var i :| 0 <= i < |tokens| && tokens[i] == f;
    }
    SnocIsTidy(kept, Entry(key, now), now);
    NewestMeaning(kept + [Entry(key, now)], now);
  }

  lemma NewestIsValid(tokens: seq<Entry>, key: Key, now: real)
    requires Tidy(tokens, now) && !Has(tokens, key)
    ensures IsValid(Issued(tokens, key, now), key, now) && |Issued(tokens, key, now)| <= MAX_TOKENS
  {
    IssuedMeaning(tokens, key, now);
    var r := Issued(tokens, key, now);
    assert r[|r| - 1].key == key && !Expired(r[|r| - 1], now);
  }

  /** Looking a key up changes nothing while it is valid, and forgets it otherwise. */
  lemma CheckedMeaning(tokens: seq<Entry>, key: Key, now: real)
    requires Tidy(tokens, now)
    ensures Tidy(Checked(tokens, key, now), now) && |Checked(tokens, key, now)| <= |tokens|
    ensures forall e :: e in Checked(tokens, key, now) <==> e in tokens && (e.key == key ==> !Expired(e, now))
  {
    WithoutKeepsRest(tokens, key, now);
    forall e | e in tokens && e.key == key && !Expired(e, now) ensures IsValid(tokens, key, now) {
      var i :| 0 <= i < |tokens| && tokens[i] == e;
    }
    if IsValid(tokens, key, now) {
      var i :| 0 <= i < |tokens| && tokens[i].key == key && !Expired(tokens[i], now);
      forall e | e in tokens && e.key == key ensures e == tokens[i] {
        var j :| 0 <= j < |tokens| && tokens[j] == e;
      }
    }
  }

  predicate Lost(before: seq<Entry>, after: seq<Entry>) {
    exists e :: e in before && e !in after
  }

  predicate SomeExpired(tokens: seq<Entry>, now: real) {
    exists i :: 0 <= i < |tokens| && Expired(tokens[i], now)
  }

  /** Issuing loses an entry exactly when one has expired or there are too many. */
  lemma LostWhen(tokens: seq<Entry>, key: Key, now: real)
    requires Tidy(tokens, now) && !Has(tokens, key)
    ensures Lost(tokens, Issued(tokens, key, now)) <==>
            SomeExpired(tokens, now) || |Unexpired(tokens, now) + [Entry(key, now)]| > MAX_TOKENS
  {
    var n := UnexpiredIsSuffix(tokens, now);
    var live := tokens[n..] + [Entry(key, now)];
    var r := Issued(tokens, key, now);
    var m := |live| - |r|;
    assert r == live[m..];
    if n > 0 || m > 0 {
      assert tokens[0] !in r;
    } else {
      assert forall i :: 0 <= i < |tokens| ==> tokens[i] == r[i];
    }
  }

  // ---- The object ----------------------------------------------------------------------------

  class TokenTable {
    var validTokens: seq<Entry>
    var tokensChanged: bool     // the event the watchdogs share

    ghost predicate Valid(now: real)
      reads this
    {
      Tidy(validTokens, now) && |validTokens| <= MAX_TOKENS
    }

    constructor ()
      ensures validTokens == [] && !tokensChanged
    {
      validTokens, tokensChanged := [], false;
    }

    /** The first pass of `_issue_token`. */
    method DropExpired(now: real) returns (removed: bool)
      modifies `validTokens
      ensures validTokens == Unexpired(old(validTokens), now)
      ensures removed <==> SomeExpired(old(validTokens), now)
    {
      var tokens, kept := validTokens, [];
      removed := false;
      for i := 0 to |tokens|
        invariant kept == Unexpired(tokens[..i], now)
        invariant removed <==> exists j :: 0 <= j < i && Expired(tokens[j], now)
      {
        assert tokens[..i + 1][..i] == tokens[..i];
        if Expired(tokens[i], now) {
          removed := true;
        } else {
          kept := kept + [tokens[i]];
        }
      }
      assert tokens[..|tokens|] == tokens;
      validTokens := kept;
    }

    /** The second pass: while there are too many, the oldest goes. */
    method EvictOldest(removedBefore: bool) returns (removed: bool)
      modifies `validTokens
      ensures validTokens == Last(old(validTokens), MAX_TOKENS)
      ensures removed <==> removedBefore || |old(validTokens)| > MAX_TOKENS
    {
      ghost var all := validTokens;
      var tokens := validTokens;
      removed := removedBefore;
      while |tokens| > MAX_TOKENS
        invariant |tokens| <= |all| && tokens == all[|all| - |tokens|..]
        invariant |tokens| >= Min(|all|, MAX_TOKENS)
        invariant removed <==> removedBefore || |tokens| < |all|
      {
        tokens := tokens[1..];
        removed := true;
      }
      validTokens := tokens;
    }

    method IssueToken(key: Key, now: real)
      requires Valid(now) && !Has(validTokens, key)
      modifies this
      ensures validTokens == Issued(old(validTokens), key, now) && Valid(now)
      ensures tokensChanged <==> old(tokensChanged) || Lost(old(validTokens), validTokens)
    {
      IssuedMeaning(validTokens, key, now);
      LostWhen(validTokens, key, now);
      var removed := DropExpired(now);
      validTokens := validTokens + [Entry(key, now)];
      removed := EvictOldest(removed);
      if removed {
        tokensChanged := true;
      }
    }

    method KeyValid(key: Key, now: real) returns (valid: bool)
      requires Valid(now)
      modifies this
      ensures valid <==> IsValid(old(validTokens), key, now)
      ensures validTokens == Checked(old(validTokens), key, now) && Valid(now)
      ensures tokensChanged <==> old(tokensChanged) || (!valid && Has(old(validTokens), key))
    {
      CheckedMeaning(validTokens, key, now);
      if !Has(validTokens, key) {
        WithoutAbsent(validTokens, key);
      }
      var i := 0;
      while i < |validTokens| && validTokens[i].key != key
        invariant i <= |validTokens| && forall j :: 0 <= j < i ==> validTokens[j].key != key
      {
        i := i + 1;
      }
      if i == |validTokens| {
        return false;
      }
      if Expired(validTokens[i], now) {
        Remove(key);
        tokensChanged := true;
        return false;
      }
      return true;
    }

    method Remove(key: Key)
      modifies `validTokens
      ensures validTokens == Without(old(validTokens), key)
    {
      var tokens, kept := validTokens, [];
      for i := 0 to |tokens|
        invariant kept == Without(tokens[..i], key)
      {
        assert tokens[..i + 1][..i] == tokens[..i];
        if tokens[i].key != key {
          kept := kept + [tokens[i]];
        }
      }
      assert tokens[..|tokens|] == tokens;
      validTokens := kept;
    }
  }
}
