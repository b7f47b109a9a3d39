/** Revocation of open sockets: the token store, its clock, one event shared by every socket's
    watchdog, and logout. A step is what runs between two awaits; time passes only while every
    task waits, and a task whose wait is over runs before any more time passes. */
module Revocation {
  import opened Common
  import opened TokenStore

  const RECHECK: real := 30.0   // AUTH_RECHECK_INTERVAL

  type Sock = nat

  /** A socket and its watchdog. `since` and `woken` describe the watchdog's current wait. */
  datatype Dog = Dog(
    key: Key,
    registeredAt: real,
    registered: bool,         // in _ws_tokens
    waiting: bool,            // the watchdog is in its loop
    since: real,
    woken: bool,              // the event was set during the wait
    victim: bool,             // a logout is about to ask for its close
    asked: Option<real>)      // when 4401 was first asked for

  datatype State = State(
    now: real,
    tokens: seq<Entry>,
    changed: bool,            // the event
    dogs: seq<Dog>,
    issuedAt: map<Key, real>, // trace: every token ever issued
    goneAt: map<Key, real>,   // trace: when it left the store
    out: set<Key>)            // trace: those that left by logout

  const START := State(0.0, [], false, [], map[], map[], {})

  // ---- Operations ----------------------------------------------------------------------------

  function Woken(dogs: seq<Dog>): (r: seq<Dog>)
    ensures |r| == |dogs|
    ensures forall w :: 0 <= w < |dogs| ==> r[w] == dogs[w].(woken := true)
  {
    seq(|dogs|, w requires 0 <= w < |dogs| => dogs[w].(woken := true))
  }

  /** Event.set: every waiter will run, even if another clears the event first. */
  function Set(s: State): State {
    s.(changed := true, dogs := Woken(s.dogs))
  }

  /** The trace of departures: each token's first moment outside the store. */
  function Departures(tokens: seq<Entry>, issuedAt: map<Key, real>, goneAt: map<Key, real>, now: real): (r: map<Key, real>)
    ensures forall k :: k in r <==> k in goneAt || (k in issuedAt && !Has(tokens, k))
    ensures forall k :: k in r ==> r[k] == if k in goneAt then goneAt[k] else now
  {
    map k | k in goneAt.Keys + issuedAt.Keys && (k in goneAt || !Has(tokens, k)) ::
      if k in goneAt then goneAt[k] else now
  }

  function Store(s: State, tokens: seq<Entry>): State {
    s.(tokens := tokens, goneAt := Departures(tokens, s.issuedAt, s.goneAt, s.now))
  }

  /** `_issue_token` with a token nobody has seen before. */
  function AfterIssue(s: State, key: Key): State {
    var after := Issued(s.tokens, key, s.now);
    var t := Store(s.(issuedAt := s.issuedAt[key := s.now]), after);
    if Lost(s.tokens, after) then Set(t) else t
  }

  /** `_key_valid`. */
  function AfterCheck(s: State, key: Key): State {
    if Has(s.tokens, key) && !IsValid(s.tokens, key, s.now) then Set(Store(s, Checked(s.tokens, key, s.now)))
    else s
  }

  function MarkedFor(d: Dog, key: Key): Dog {
    if d.registered && d.key == key then d.(victim := true) else d
  }

  function Marked(dogs: seq<Dog>, key: Key): (r: seq<Dog>)
    ensures |r| == |dogs|
    ensures forall w :: 0 <= w < |dogs| ==> r[w] == MarkedFor(dogs[w], key)
  {
    seq(|dogs|, w requires 0 <= w < |dogs| => MarkedFor(dogs[w], key))
  }

  /** `logout`: it does not set the event; it asks for the closes itself. */
  function AfterLogout(s: State, key: Key): State {
    var t := Store(s, Without(s.tokens, key));
    t.(dogs := Marked(s.dogs, key), out := if Has(s.tokens, key) then s.out + {key} else s.out)
  }

  function Asked(d: Dog, now: real): Dog {
    d.(asked := if d.asked.Some? then d.asked else Some(now))
  }

  /** A turn of the watchdog's loop; `byEvent` when its wait did not time out. */
  function AfterLook(s: State, w: Sock, byEvent: bool): State
    requires w < |s.dogs|
  {
    var d := s.dogs[w];
    var t := AfterCheck(if byEvent then s.(changed := false) else s, d.key);
    t.(dogs := t.dogs[w :=
      if IsValid(s.tokens, d.key, s.now) then d.(since := s.now, woken := t.changed)
      else Asked(d, s.now).(waiting := false)])
  }

  function NewDog(s: State, key: Key): Dog {
    Dog(key, s.now, true, true, s.now, s.changed, false, None)
  }

  datatype Step =
    | Issues(key: Key)
    | Uses(key: Key)                        // an authenticated request
    | LogsOut(key: Key)
    | AsksVictim(w: Sock)                   // the logout reaches this socket
    | Registers(key: Key)
    | Unregisters(w: Sock)
    | Looks(w: Sock, byEvent: bool)
    | Passes(seconds: real)

  /** No watchdog has anything to do for that long. */
  ghost predicate Quiet(s: State, seconds: real) {
    forall w :: 0 <= w < |s.dogs| && s.dogs[w].waiting ==>
      !s.dogs[w].woken && s.now + seconds <= s.dogs[w].since + RECHECK
  }

  ghost predicate Unseen(s: State, key: Key) {
    key !in s.issuedAt && forall w :: 0 <= w < |s.dogs| ==> s.dogs[w].key != key
  }

  ghost predicate Enabled(s: State, step: Step) {
    match step
    case Issues(key) => Unseen(s, key)
    case Uses(_) => true
    case LogsOut(_) => true
    case AsksVictim(w) => w < |s.dogs| && s.dogs[w].victim
    case Registers(_) => true
    case Unregisters(w) => w < |s.dogs| && s.dogs[w].registered
    case Looks(w, byEvent) =>
      w < |s.dogs| && s.dogs[w].waiting &&
      if byEvent then s.dogs[w].woken else s.now >= s.dogs[w].since + RECHECK
    case Passes(seconds) => seconds > 0.0 && Quiet(s, seconds)
  }

  function Next(s: State, step: Step): State
    requires Enabled(s, step)
  {
    match step
    case Issues(key) => AfterIssue(s, key)
    case Uses(key) => AfterCheck(s, key)
    case LogsOut(key) => AfterLogout(s, key)
    case AsksVictim(w) => s.(dogs := s.dogs[w := Asked(s.dogs[w], s.now).(victim := false)])
    case Registers(key) => s.(dogs := s.dogs + [NewDog(s, key)])
    case Unregisters(w) => s.(dogs := s.dogs[w := s.dogs[w].(registered := false, waiting := false)])
    case Looks(w, byEvent) => AfterLook(s, w, byEvent)
    case Passes(seconds) => s.(now := s.now + seconds)
  }

  ghost predicate Run(s: State, steps: seq<Step>, t: State)
    decreases |steps|
  {
    if steps == [] then s == t
    else Enabled(s, steps[0]) && Run(Next(s, steps[0]), steps[1..], t)
  }

  // ---- Validity over time ----------------------------------------------------------------------

  /** The trace says the key was valid at that time, or was not. A key that leaves the store at
      some moment may have been seen valid earlier at that same moment. */
  predicate ValidAt(issuedAt: map<Key, real>, goneAt: map<Key, real>, key: Key, time: real) {
    key in issuedAt && time - issuedAt[key] < TTL && (key in goneAt ==> time <= goneAt[key])
  }

  predicate InvalidAt(issuedAt: map<Key, real>, goneAt: map<Key, real>, key: Key, time: real) {
    key in issuedAt ==> time - issuedAt[key] >= TTL || (key in goneAt && goneAt[key] <= time)
  }

  // ---- Invariant ---------------------------------------------------------------------------------

  ghost predicate StoreOk(tokens: seq<Entry>, issuedAt: map<Key, real>, goneAt: map<Key, real>, out: set<Key>, now: real) {
    && Tidy(tokens, now) && |tokens| <= MAX_TOKENS
    && (forall i :: 0 <= i < |tokens| ==>
          tokens[i].key in issuedAt && issuedAt[tokens[i].key] == tokens[i].issuedAt && tokens[i].key !in goneAt)
    && (forall k :: k in issuedAt ==> k in goneAt || Has(tokens, k))
    && (forall k :: k in goneAt ==> k in issuedAt && goneAt[k] <= now)
    && (forall k :: k in out ==> k in goneAt)
  }

  /** The watchdog's current or last wait began when the socket was registered or when the key
      was seen valid, and lasts at most RECHECK. */
  predicate Timely(d: Dog, issuedAt: map<Key, real>, goneAt: map<Key, real>, now: real) {
    && d.registeredAt <= d.since <= now
    && (d.since == d.registeredAt || ValidAt(issuedAt, goneAt, d.key, d.since))
    && (d.waiting ==> now <= d.since + RECHECK)
    && (d.registered ==> d.waiting || d.asked.Some?)
    && (d.waiting ==> d.registered)
    && (d.asked.Some? ==> d.asked.value <= now && (d.registered ==> d.asked.value <= d.since + RECHECK))
  }

  /** Nobody with a valid key is asked to close. */
  predicate Justified(d: Dog, issuedAt: map<Key, real>, goneAt: map<Key, real>) {
    d.asked.Some? ==> InvalidAt(issuedAt, goneAt, d.key, d.asked.value)
  }

  /** A key that left the store while the watchdog waited has woken it, or is a logout's business. */
  predicate Alert(d: Dog, goneAt: map<Key, real>, out: set<Key>) {
    d.waiting && d.key in goneAt ==>
      || goneAt[d.key] <= d.registeredAt
      || (if d.key in out then d.victim || d.asked.Some? else d.woken)
  }

  predicate DogOk(d: Dog, issuedAt: map<Key, real>, goneAt: map<Key, real>, out: set<Key>, now: real) {
    Timely(d, issuedAt, goneAt, now) && Justified(d, issuedAt, goneAt) && Alert(d, goneAt, out)
    && (d.victim ==> InvalidAt(issuedAt, goneAt, d.key, now))
  }

  ghost predicate DogsOk(dogs: seq<Dog>, issuedAt: map<Key, real>, goneAt: map<Key, real>, out: set<Key>, now: real) {
    forall w :: 0 <= w < |dogs| ==> DogOk(dogs[w], issuedAt, goneAt, out, now)
  }

  ghost predicate Inv(s: State) {
    StoreOk(s.tokens, s.issuedAt, s.goneAt, s.out, s.now) && DogsOk(s.dogs, s.issuedAt, s.goneAt, s.out, s.now)
  }

  // ---- Steps keep it -----------------------------------------------------------------------------

  /** The trace and the store agree on which keys are valid now. */
  lemma ValidNow(s: State, key: Key)
    requires Inv(s)
    ensures IsValid(s.tokens, key, s.now) ==> ValidAt(s.issuedAt, s.goneAt, key, s.now) && key !in s.goneAt
    ensures !IsValid(s.tokens, key, s.now) ==> InvalidAt(s.issuedAt, s.goneAt, key, s.now)
  {
    if key in s.issuedAt && key !in s.goneAt {
      var i :| 0 <= i < |s.tokens| && s.tokens[i].key == key;
    }
  }

  /** Shrinking the store keeps its books. */
  lemma ShrinkKeepsStore(s: State, tokens: seq<Entry>, out: set<Key>)
    requires StoreOk(s.tokens, s.issuedAt, s.goneAt, s.out, s.now)
    requires Tidy(tokens, s.now) && |tokens| <= |s.tokens| && forall e :: e in tokens ==> e in s.tokens
    requires forall k :: k in out ==> k in s.out || (Has(s.tokens, k) && !Has(tokens, k))
    ensures StoreOk(tokens, s.issuedAt, Departures(tokens, s.issuedAt, s.goneAt, s.now), out, s.now)
  {
    forall i | 0 <= i < |tokens|
      ensures tokens[i].key in s.issuedAt && s.issuedAt[tokens[i].key] == tokens[i].issuedAt
      ensures tokens[i].key !in Departures(tokens, s.issuedAt, s.goneAt, s.now)
    {
      assert tokens[i] in s.tokens;
    }
    forall k | k in out ensures k in Departures(tokens, s.issuedAt, s.goneAt, s.now) {
      if k !in s.out {
        var i :| 0 <= i < |s.tokens| && s.tokens[i].key == k;
      }
    }
  }

  /** The books after an issue, given where its entries come from. */
  lemma IssueKeepsBooks(s: State, key: Key, after: seq<Entry>)
    requires StoreOk(s.tokens, s.issuedAt, s.goneAt, s.out, s.now) && key !in s.issuedAt
    requires Tidy(after, s.now) && |after| <= MAX_TOKENS && Has(after, key)
    requires forall e :: e in after ==> e in s.tokens || e == Entry(key, s.now)
    ensures var issued := s.issuedAt[key := s.now];
            StoreOk(after, issued, Departures(after, issued, s.goneAt, s.now), s.out, s.now)
  {
    var issued := s.issuedAt[key := s.now];
    forall i | 0 <= i < |after|
      ensures after[i].key in issued && issued[after[i].key] == after[i].issuedAt
      ensures after[i].key !in s.goneAt
    {
      assert after[i] in after;
    }
  }

  lemma IssueKeepsStore(s: State, key: Key)
    requires StoreOk(s.tokens, s.issuedAt, s.goneAt, s.out, s.now) && key !in s.issuedAt
    ensures var t := AfterIssue(s, key); StoreOk(t.tokens, t.issuedAt, t.goneAt, t.out, t.now)
    ensures key !in AfterIssue(s, key).goneAt
  {
    assert !Has(s.tokens, key);
    IssuedMeaning(s.tokens, key, s.now);
    var after := Issued(s.tokens, key, s.now);
    assert after[|after| - 1].key == key;
    IssueKeepsBooks(s, key, after);
  }

  /** A dog through a change of the store: newly gone keys are gone now, and wake it or mark it. */
  lemma DogThroughStore(d: Dog, e: Dog, issuedAt: map<Key, real>, gone: map<Key, real>, gone': map<Key, real>,
                        out: set<Key>, out': set<Key>, now: real)
    requires DogOk(d, issuedAt, gone, out, now)
    requires e == d.(woken := e.woken, victim := e.victim) && (d.woken ==> e.woken) && (d.victim ==> e.victim)
    requires forall k :: k in gone ==> k in gone' && gone'[k] == gone[k] && (k in out' <==> k in out)
    requires forall k :: k in gone' && k !in gone ==> gone'[k] == now
    requires d.key in gone' && d.key !in gone && d.waiting ==> if d.key in out' then e.victim else e.woken
    requires e.victim && !d.victim ==> InvalidAt(issuedAt, gone', d.key, now)
    ensures DogOk(e, issuedAt, gone', out', now)
  {
  }

  lemma DogsThroughStore(s: State, t: State)
    requires DogsOk(s.dogs, s.issuedAt, s.goneAt, s.out, s.now)
    requires t.now == s.now && t.issuedAt == s.issuedAt && |t.dogs| == |s.dogs|
    requires forall w :: 0 <= w < |s.dogs| ==>
               && t.dogs[w] == s.dogs[w].(woken := t.dogs[w].woken, victim := t.dogs[w].victim)
               && (s.dogs[w].woken ==> t.dogs[w].woken) && (s.dogs[w].victim ==> t.dogs[w].victim)
               && (t.dogs[w].victim && !s.dogs[w].victim ==> InvalidAt(s.issuedAt, t.goneAt, s.dogs[w].key, s.now))
               && (s.dogs[w].key in t.goneAt && s.dogs[w].key !in s.goneAt && s.dogs[w].waiting ==>
                     if s.dogs[w].key in t.out then t.dogs[w].victim else t.dogs[w].woken)
    requires forall k :: k in s.goneAt ==> k in t.goneAt && t.goneAt[k] == s.goneAt[k] && (k in t.out <==> k in s.out)
    requires forall k :: k in t.goneAt && k !in s.goneAt ==> t.goneAt[k] == s.now
    ensures DogsOk(t.dogs, t.issuedAt, t.goneAt, t.out, t.now)
  {
    forall w | 0 <= w < |t.dogs| ensures DogOk(t.dogs[w], t.issuedAt, t.goneAt, t.out, t.now) {
      DogThroughStore(s.dogs[w], t.dogs[w], s.issuedAt, s.goneAt, t.goneAt, s.out, t.out, s.now);
    }
  }

  lemma CheckKeepsInv(s: State, key: Key)
    requires Inv(s)
    ensures Inv(AfterCheck(s, key))
  {
    if Has(s.tokens, key) && !IsValid(s.tokens, key, s.now) {
      CheckedMeaning(s.tokens, key, s.now);
      ShrinkKeepsStore(s, Checked(s.tokens, key, s.now), s.out);
      DogsThroughStore(s, AfterCheck(s, key));
    }
  }

  lemma NewKeyChangesNoDog(s: State, key: Key)
    requires DogsOk(s.dogs, s.issuedAt, s.goneAt, s.out, s.now) && Unseen(s, key)
    ensures DogsOk(s.dogs, s.issuedAt[key := s.now], s.goneAt, s.out, s.now)
  {
    forall w | 0 <= w < |s.dogs| ensures DogOk(s.dogs[w], s.issuedAt[key := s.now], s.goneAt, s.out, s.now) {
      assert DogOk(s.dogs[w], s.issuedAt, s.goneAt, s.out, s.now);
    }
  }

  /** Issuing sets the event whenever it makes a key go. */
  lemma IssueWakes(s: State, key: Key, k: Key)
    requires StoreOk(s.tokens, s.issuedAt, s.goneAt, s.out, s.now) && key !in s.issuedAt
    requires k in AfterIssue(s, key).goneAt && k !in s.goneAt
    ensures k in s.issuedAt && Lost(s.tokens, Issued(s.tokens, key, s.now))
  {
    IssueKeepsStore(s, key);
    var after := Issued(s.tokens, key, s.now);
    var i :| 0 <= i < |s.tokens| && s.tokens[i].key == k;
    MembersHave(after);
    assert s.tokens[i] !in after;
  }

  lemma IssueKeepsInv(s: State, key: Key)
    requires Inv(s) && Unseen(s, key)
    ensures Inv(AfterIssue(s, key))
  {
    IssueKeepsStore(s, key);
    NewKeyChangesNoDog(s, key);
    var t := AfterIssue(s, key);
    forall w | 0 <= w < |s.dogs| && s.dogs[w].key in t.goneAt && s.dogs[w].key !in s.goneAt
      ensures t.dogs[w].woken && s.dogs[w].key !in s.out
    {
      IssueWakes(s, key, s.dogs[w].key);
    }
    DogsThroughStore(s.(issuedAt := t.issuedAt), t);
  }

  lemma LogoutKeepsInv(s: State, key: Key)
    requires Inv(s)
    ensures Inv(AfterLogout(s, key))
  {
    var t := AfterLogout(s, key);
    WithoutKeepsRest(s.tokens, key, s.now);
    WithoutHas(s.tokens, key, key);
    ShrinkKeepsStore(s, t.tokens, t.out);
    forall w | 0 <= w < |s.dogs| ensures LogoutSees(s, t, key, s.dogs[w].key) {
      LogoutOnlyTakes(s, key, s.dogs[w].key);
    }
    assert key in s.goneAt ==> !Has(s.tokens, key);
    DogsThroughStore(s, t);
  }

  ghost predicate LogoutSees(s: State, t: State, key: Key, k: Key) {
    && (k in t.goneAt && k !in s.goneAt ==> k == key && key in t.out)
    && (k == key ==> InvalidAt(s.issuedAt, t.goneAt, k, s.now))
  }

  /** A logout makes its own key go and no other. */
  lemma LogoutOnlyTakes(s: State, key: Key, k: Key)
    requires StoreOk(s.tokens, s.issuedAt, s.goneAt, s.out, s.now)
    ensures LogoutSees(s, AfterLogout(s, key), key, k)
  {
    WithoutHas(s.tokens, key, k);
  }

  /** What the turn makes of its own record. */
  lemma LookedDogOk(d: Dog, before: bool, valid: bool, woken: bool,
                    issuedAt: map<Key, real>, goneAt: map<Key, real>, out: set<Key>, now: real)
    requires DogOk(d.(woken := before), issuedAt, goneAt, out, now) && d.waiting
    requires if valid then ValidAt(issuedAt, goneAt, d.key, now) && d.key !in goneAt
             else InvalidAt(issuedAt, goneAt, d.key, now)
    ensures DogOk(if valid then d.(since := now, woken := woken) else Asked(d, now).(waiting := false),
                  issuedAt, goneAt, out, now)
  {
  }

  /** Noticing expiry makes other keys neither valid nor invalid. */
  lemma CheckKeepsValidity(s: State, key: Key)
    requires Inv(s)
    ensures var t := AfterCheck(s, key);
            && |t.dogs| == |s.dogs| && t.now == s.now && t.issuedAt == s.issuedAt && t.out == s.out
            && (if IsValid(s.tokens, key, s.now)
                then ValidAt(t.issuedAt, t.goneAt, key, t.now) && key !in t.goneAt
                else InvalidAt(t.issuedAt, t.goneAt, key, t.now))
            && forall w :: 0 <= w < |s.dogs| ==> t.dogs[w].(woken := s.dogs[w].woken) == s.dogs[w]
  {
    ValidNow(s, key);
  }

  lemma LookKeepsInv(s: State, w: Sock, byEvent: bool)
    requires Inv(s) && Enabled(s, Looks(w, byEvent))
    ensures Inv(AfterLook(s, w, byEvent))
  {
    var d := s.dogs[w];
    var u := if byEvent then s.(changed := false) else s;
    CheckKeepsInv(u, d.key);
    CheckKeepsValidity(u, d.key);
    var c := AfterCheck(u, d.key);
    var valid := IsValid(s.tokens, d.key, s.now);
    assert DogOk(c.dogs[w], c.issuedAt, c.goneAt, c.out, c.now);
    assert c.dogs[w] == d.(woken := c.dogs[w].woken);
    LookedDogOk(d, c.dogs[w].woken, valid, c.changed, c.issuedAt, c.goneAt, c.out, c.now);
  }

  lemma PassKeepsInv(s: State, seconds: real)
    requires Inv(s) && Enabled(s, Passes(seconds))
    ensures Inv(s.(now := s.now + seconds))
  {
    LaterIsTidy(s.tokens, s.now, s.now + seconds);
    forall w | 0 <= w < |s.dogs| ensures DogOk(s.dogs[w], s.issuedAt, s.goneAt, s.out, s.now + seconds) {
      assert DogOk(s.dogs[w], s.issuedAt, s.goneAt, s.out, s.now);
    }
  }

  lemma StepKeepsInv(s: State, step: Step)
    requires Inv(s) && Enabled(s, step)
    ensures Inv(Next(s, step))
  {
    match step
    case Issues(key) => IssueKeepsInv(s, key);
    case Uses(key) => CheckKeepsInv(s, key);
    case LogsOut(key) => LogoutKeepsInv(s, key);
    case AsksVictim(w) => assert DogOk(s.dogs[w], s.issuedAt, s.goneAt, s.out, s.now);
    case Registers(key) => assert DogOk(NewDog(s, key), s.issuedAt, s.goneAt, s.out, s.now);
    case Unregisters(w) => assert DogOk(s.dogs[w], s.issuedAt, s.goneAt, s.out, s.now);
    case Looks(w, byEvent) => LookKeepsInv(s, w, byEvent);
    case Passes(seconds) => PassKeepsInv(s, seconds);
  }

  lemma {:induction false} RunKeepsInv(s: State, steps: seq<Step>, t: State)
    requires Inv(s) && Run(s, steps, t)
    ensures Inv(t)
    decreases |steps|
  {
    if steps != [] {
      StepKeepsInv(s, steps[0]);
      RunKeepsInv(Next(s, steps[0]), steps[1..], t);
    }
  }

  // ---- Theorems ----------------------------------------------------------------------------------

  function Max(a: real, b: real): real {
    if a >= b then a else b
  }

  /** A registered socket whose key is invalid from some time on - never issued, logged out,
      evicted or too old - is asked to close within RECHECK of that time or of its registration,
      whichever is later, whoever else waits on the shared event and clears it. */
  lemma RevokedInTime(steps: seq<Step>, t: State, w: Sock, time: real)
    requires Run(START, steps, t) && w < |t.dogs| && t.dogs[w].registered
    requires InvalidAt(t.issuedAt, t.goneAt, t.dogs[w].key, time)
    ensures var deadline := Max(time, t.dogs[w].registeredAt) + RECHECK;
            t.now <= deadline || (t.dogs[w].asked.Some? && t.dogs[w].asked.value <= deadline)
  {
    RunKeepsInv(START, steps, t);
    assert DogOk(t.dogs[w], t.issuedAt, t.goneAt, t.out, t.now);
  }

  /** Nobody is asked to close while its key is valid: a socket with a valid key has never been
      asked, and if it is registered its watchdog is on duty. */
  lemma ValidSocketsStayOpen(steps: seq<Step>, t: State, w: Sock)
    requires Run(START, steps, t) && w < |t.dogs| && IsValid(t.tokens, t.dogs[w].key, t.now)
    ensures t.dogs[w].asked.None? && !t.dogs[w].victim
    ensures t.dogs[w].registered ==> t.dogs[w].waiting
  {
    RunKeepsInv(START, steps, t);
    assert DogOk(t.dogs[w], t.issuedAt, t.goneAt, t.out, t.now);
    ValidNow(t, t.dogs[w].key);
  }

  /** When a key leaves the store without a logout, every watchdog that waits for it is woken and
      no time passes before it looks; after a logout its sockets have been asked or are next. */
  lemma DepartureIsSeenAtOnce(steps: seq<Step>, t: State, w: Sock, seconds: real)
    requires Run(START, steps, t) && w < |t.dogs| && t.dogs[w].waiting
    requires t.dogs[w].key in t.goneAt && t.dogs[w].registeredAt < t.goneAt[t.dogs[w].key]
    ensures t.dogs[w].key !in t.out ==> Enabled(t, Looks(w, true)) && !Enabled(t, Passes(seconds))
    ensures t.dogs[w].key in t.out ==> t.dogs[w].victim || t.dogs[w].asked.Some?
  {
    RunKeepsInv(START, steps, t);
    assert DogOk(t.dogs[w], t.issuedAt, t.goneAt, t.out, t.now);
  }

  /** In every run an unexpired token leaves the store only by its own logout, or because
      MAX_TOKENS others remain, all unexpired and issued no earlier. */
  lemma TokensLeaveOnly(steps: seq<Step>, s: State, step: Step, e: Entry)
    requires Run(START, steps, s) && Enabled(s, step)
    requires e in s.tokens && e !in Next(s, step).tokens && !Expired(e, s.now)
    ensures step == LogsOut(e.key) ||
            (step.Issues? && |Next(s, step).tokens| == MAX_TOKENS
             && forall f :: f in Next(s, step).tokens ==> !Expired(f, s.now) && e.issuedAt <= f.issuedAt)
  {
    RunKeepsInv(START, steps, s);
    match step
    case Issues(key) =>
      assert !Has(s.tokens, key);
      IssuedMeaning(s.tokens, key, s.now);
    case Uses(key) => CheckedMeaning(s.tokens, key, s.now);
    case LogsOut(key) => WithoutKeepsRest(s.tokens, key, s.now);
    case Looks(w, _) => CheckedMeaning(s.tokens, s.dogs[w].key, s.now);
    case _ =>
  }

  /** The token just issued is valid, and the store never holds more than MAX_TOKENS. */
  lemma NewTokenIsValid(steps: seq<Step>, s: State, key: Key)
    requires Run(START, steps, s) && Enabled(s, Issues(key))
    ensures var t := Next(s, Issues(key)); IsValid(t.tokens, key, t.now) && |t.tokens| <= MAX_TOKENS
  {
    RunKeepsInv(START, steps, s);
    IssuedIsValid(s, key);
  }

  lemma IssuedIsValid(s: State, key: Key)
    requires StoreOk(s.tokens, s.issuedAt, s.goneAt, s.out, s.now) && key !in s.issuedAt
    ensures var t := AfterIssue(s, key); IsValid(t.tokens, key, t.now) && |t.tokens| <= MAX_TOKENS
  {
    assert !Has(s.tokens, key);
    NewestIsValid(s.tokens, key, s.now);
  }

  // ---- What each step does ---------------------------------------------------------------------------

  predicate OthersSame(s: State, t: State, w: Sock) {
    |t.dogs| == |s.dogs| && forall v :: 0 <= v < |s.dogs| && v != w ==> t.dogs[v] == s.dogs[v]
  }

  /** The event is set and every wait is over, or neither has changed. */
  predicate SetsEvent(s: State, t: State, really: bool) {
    && t.changed == (s.changed || really) && |t.dogs| == |s.dogs|
    && forall w :: 0 <= w < |s.dogs| ==> t.dogs[w] == if really then s.dogs[w].(woken := true) else s.dogs[w]
  }

  /** A request or a look with an expired token removes exactly that token and sets the event. */
  ghost predicate Forgets(s: State, t: State, key: Key) {
    forall e :: e in t.tokens <==> e in s.tokens && (e.key == key ==> !Expired(e, s.now))
  }

  predicate HasExpired(s: State, key: Key) {
    exists i :: 0 <= i < |s.tokens| && s.tokens[i].key == key && Expired(s.tokens[i], s.now)
  }

  lemma ExpiredIsInvalid(s: State, key: Key)
    requires Tidy(s.tokens, s.now)
    ensures HasExpired(s, key) <==> Has(s.tokens, key) && !IsValid(s.tokens, key, s.now)
  {
  }

  lemma CheckDecides(steps: seq<Step>, s: State, key: Key)
    requires Run(START, steps, s)
    ensures var t := Next(s, Uses(key));
            && Forgets(s, t, key) && SetsEvent(s, t, HasExpired(s, key))
            && t.now == s.now
  {
    RunKeepsInv(START, steps, s);
    CheckEffect(s, key);
  }

  lemma CheckEffect(s: State, key: Key)
    requires Tidy(s.tokens, s.now)
    ensures var t := AfterCheck(s, key);
            Forgets(s, t, key) && SetsEvent(s, t, HasExpired(s, key)) && t.now == s.now
  {
    ExpiredIsInvalid(s, key);
    CheckedMeaning(s.tokens, key, s.now);
    if !Has(s.tokens, key) {
      WithoutAbsent(s.tokens, key);
    }
  }

  /** A watchdog whose key is still valid begins a new wait of full length; any other asks for the
      close, if nobody has, and ends. It clears the event that woke it, unless it has found its own
      token expired; no other watchdog loses its wake-up. */
  lemma LookDecides(steps: seq<Step>, s: State, w: Sock, byEvent: bool)
    requires Run(START, steps, s) && Enabled(s, Looks(w, byEvent))
    ensures var t := Next(s, Looks(w, byEvent));
            var d := s.dogs[w];
            var expired := HasExpired(s, d.key);
            && Forgets(s, t, d.key) && t.now == s.now && |t.dogs| == |s.dogs|
            && t.changed == (expired || (s.changed && !byEvent))
            && (forall v :: 0 <= v < |s.dogs| && v != w ==>
                  t.dogs[v] == if expired then s.dogs[v].(woken := true) else s.dogs[v])
            && if IsValid(s.tokens, d.key, s.now) then
                 t.dogs[w] == d.(since := s.now, woken := s.changed && !byEvent)
               else
                 && !t.dogs[w].waiting && t.dogs[w].registered == d.registered
                 && t.dogs[w].asked == if d.asked.Some? then d.asked else Some(s.now)
  {
    RunKeepsInv(START, steps, s);
    var u := if byEvent then s.(changed := false) else s;
    CheckEffect(u, s.dogs[w].key);
    ExpiredIsInvalid(s, s.dogs[w].key);
    LookEffect(s, w, byEvent, AfterCheck(u, s.dogs[w].key));
  }

  lemma LookEffect(s: State, w: Sock, byEvent: bool, c: State)
    requires w < |s.dogs| && |c.dogs| == |s.dogs|
    requires c == AfterCheck(if byEvent then s.(changed := false) else s, s.dogs[w].key)
    ensures var t := AfterLook(s, w, byEvent);
            && t.tokens == c.tokens && t.now == c.now && t.changed == c.changed && OthersSame(c, t, w)
            && if IsValid(s.tokens, s.dogs[w].key, s.now)
               then t.dogs[w] == s.dogs[w].(since := s.now, woken := c.changed)
               else t.dogs[w] == Asked(s.dogs[w], s.now).(waiting := false)
  {
  }

  /** A logout takes its key out of the store and nothing else, and collects every socket that is
      registered with the key - whether the key was still valid or not - and no other. */
  lemma LogoutDecides(s: State, key: Key)
    ensures var t := Next(s, LogsOut(key));
            && t.changed == s.changed && t.now == s.now && |t.dogs| == |s.dogs|
            && forall w :: 0 <= w < |s.dogs| ==>
                 t.dogs[w] == if s.dogs[w].registered && s.dogs[w].key == key then s.dogs[w].(victim := true) else s.dogs[w]
    ensures forall e :: e in Next(s, LogsOut(key)).tokens <==> e in s.tokens && e.key != key
  {
    WithoutMembers(s.tokens, key);
  }

  /** Each socket that it has collected it asks to close, in its turn, unless that was done. */
  lemma VictimDecides(s: State, w: Sock)
    requires Enabled(s, AsksVictim(w))
    ensures var t := Next(s, AsksVictim(w));
            && t.tokens == s.tokens && t.changed == s.changed && OthersSame(s, t, w)
            && !t.dogs[w].victim && t.dogs[w].asked == (if s.dogs[w].asked.Some? then s.dogs[w].asked else Some(s.now))
            && t.dogs[w].registered == s.dogs[w].registered && t.dogs[w].waiting == s.dogs[w].waiting
  {
  }

  /** A new socket is under its key and watched; one that is gone is neither, and is not asked. */
  lemma SocketsDecide(s: State, key: Key, w: Sock)
    ensures var t := Next(s, Registers(key));
            && t.tokens == s.tokens && t.changed == s.changed && |t.dogs| == |s.dogs| + 1 && t.dogs[..|s.dogs|] == s.dogs
            && var d := t.dogs[|s.dogs|];
            && d.key == key && d.registered && d.waiting && d.since == s.now && d.woken == s.changed
            && !d.victim && d.asked.None?
    ensures Enabled(s, Unregisters(w)) ==>
              var t := Next(s, Unregisters(w));
              && t.tokens == s.tokens && t.changed == s.changed && OthersSame(s, t, w)
              && !t.dogs[w].registered && !t.dogs[w].waiting && t.dogs[w].asked == s.dogs[w].asked
  {
  }

  /** Issuing sets the event exactly if an entry had to go. */
  lemma IssueDecides(steps: seq<Step>, s: State, key: Key)
    requires Run(START, steps, s) && Enabled(s, Issues(key))
    ensures var t := Next(s, Issues(key));
            && SetsEvent(s, t, exists e :: e in s.tokens && e !in t.tokens)
            && t.now == s.now && Entry(key, s.now) in t.tokens
            && forall e :: e in t.tokens ==> !Expired(e, s.now) && (e in s.tokens || e == Entry(key, s.now))
  {
    RunKeepsInv(START, steps, s);
    IssueEffect(s, key);
  }

  lemma IssueEffect(s: State, key: Key)
    requires Tidy(s.tokens, s.now) && !Has(s.tokens, key)
    ensures var t := AfterIssue(s, key);
            && SetsEvent(s, t, exists e :: e in s.tokens && e !in t.tokens)
            && t.now == s.now && Entry(key, s.now) in t.tokens
            && forall e :: e in t.tokens ==> !Expired(e, s.now) && (e in s.tokens || e == Entry(key, s.now))
  {
    IssuedMeaning(s.tokens, key, s.now);
    var after := Issued(s.tokens, key, s.now);
    assert after[|after| - 1] in after;
  }

  /** The traces are what they say: a key is issued when it is issued, gone from the moment it is in
      the store no longer, and out if a logout found it there. */
  lemma TracesTell(steps: seq<Step>, s: State, step: Step, k: Key)
    requires Run(START, steps, s) && Enabled(s, step)
    ensures var t := Next(s, step);
            && (k in t.issuedAt <==> k in s.issuedAt || step == Issues(k))
            && (k in t.issuedAt ==> t.issuedAt[k] == if step == Issues(k) then s.now else s.issuedAt[k])
            && (k in t.goneAt <==> k in s.goneAt || (Has(s.tokens, k) && !Has(t.tokens, k)))
            && (k in t.goneAt ==> t.goneAt[k] == if k in s.goneAt then s.goneAt[k] else s.now)
            && (k in t.out <==> k in s.out || (step == LogsOut(k) && Has(s.tokens, k)))
  {
    RunKeepsInv(START, steps, s);
    match step
    case Issues(key) =>
      IssueKeepsStore(s, key);
      IssueTells(s, key, k);
    case Uses(key) => CheckTells(s, key, k);
    case LogsOut(key) => WithoutHas(s.tokens, key, k);
    case Looks(w, byEvent) => CheckTells(if byEvent then s.(changed := false) else s, s.dogs[w].key, k);
    case _ =>
  }

  lemma CheckTells(s: State, key: Key, k: Key)
    requires StoreOk(s.tokens, s.issuedAt, s.goneAt, s.out, s.now)
    ensures var t := AfterCheck(s, key);
            && t.issuedAt == s.issuedAt && t.out == s.out
            && (k in t.goneAt <==> k in s.goneAt || (Has(s.tokens, k) && !Has(t.tokens, k)))
            && (k in t.goneAt ==> t.goneAt[k] == if k in s.goneAt then s.goneAt[k] else s.now)
  {
    WithoutHas(s.tokens, key, k);
  }

  lemma IssueTells(s: State, key: Key, k: Key)
    requires StoreOk(s.tokens, s.issuedAt, s.goneAt, s.out, s.now) && key !in s.issuedAt
    ensures var t := AfterIssue(s, key);
            && t.issuedAt == s.issuedAt[key := s.now] && t.out == s.out
            && (k in t.goneAt <==> k in s.goneAt || (Has(s.tokens, k) && !Has(t.tokens, k)))
            && (k in t.goneAt ==> t.goneAt[k] == if k in s.goneAt then s.goneAt[k] else s.now)
  {
    IssueKeepsStore(s, key);
    assert !Has(s.tokens, key);
  }

  // ---- The object --------------------------------------------------------------------------------

  class AuthManager {
    var now: real
    var validTokens: seq<Entry>
    var tokensChanged: bool
    var dogs: seq<Dog>
    ghost var issuedAt: map<Key, real>
    ghost var goneAt: map<Key, real>
    ghost var out: set<Key>

    ghost function Snapshot(): State
      reads this
    {
      State(now, validTokens, tokensChanged, dogs, issuedAt, goneAt, out)
    }

    ghost predicate Valid()
      reads this
    {
      Inv(Snapshot())
    }

    constructor ()
      ensures Snapshot() == START && Valid()
    {
      now, validTokens, tokensChanged, dogs := 0.0, [], false, [];
      issuedAt, goneAt, out := map[], map[], {};
    }

    method SetChanged()
      modifies `tokensChanged, `dogs
      ensures Snapshot() == Set(old(Snapshot()))
    {
      tokensChanged := true;
      var woken := [];
      for w := 0 to |dogs|
        invariant |woken| == w && dogs == old(dogs)
        invariant forall v :: 0 <= v < w ==> woken[v] == dogs[v].(woken := true)
      {
        woken := woken + [dogs[w].(woken := true)];
      }
      assert woken == Woken(dogs);
      dogs := woken;
    }

    method KeepTokens(tokens: seq<Entry>)
      modifies `validTokens, `goneAt
      ensures Snapshot() == Store(old(Snapshot()), tokens)
    {
      validTokens := tokens;
      goneAt := Departures(tokens, issuedAt, goneAt, now);
    }

    /** `_key_valid`. */
    method KeyValid(key: Key) returns (valid: bool)
      modifies `validTokens, `goneAt, `tokensChanged, `dogs
      ensures valid <==> IsValid(old(validTokens), key, now)
      ensures Snapshot() == AfterCheck(old(Snapshot()), key)
    {
      valid := IsValid(validTokens, key, now);
      if !valid && Has(validTokens, key) {
        KeepTokens(Checked(validTokens, key, now));
        SetChanged();
      }
    }

    method RegisterSocket(key: Key)
      requires Valid()
      modifies `dogs
      ensures Snapshot() == Next(old(Snapshot()), Registers(key)) && Valid()
    {
      StepKeepsInv(Snapshot(), Registers(key));
      dogs := dogs + [Dog(key, now, true, true, now, tokensChanged, false, None)];
    }

    method UnregisterSocket(w: Sock)
      requires Valid() && w < |dogs| && dogs[w].registered
      modifies `dogs
      ensures Snapshot() == Next(old(Snapshot()), Unregisters(w)) && Valid()
    {
      StepKeepsInv(Snapshot(), Unregisters(w));
      dogs := dogs[w := dogs[w].(registered := false, waiting := false)];
    }

    /** One turn of `_watchdog`, from the end of its wait to its next wait or its end. */
    method Watch(w: Sock, byEvent: bool)
      requires Valid() && Enabled(Snapshot(), Looks(w, byEvent))
      modifies this
      ensures Snapshot() == Next(old(Snapshot()), Looks(w, byEvent)) && Valid()
    {
      StepKeepsInv(Snapshot(), Looks(w, byEvent));
      var d := dogs[w];
      if byEvent {
        tokensChanged := false;
      }
      var valid := KeyValid(d.key);
      if valid {
        dogs := dogs[w := d.(since := now, woken := tokensChanged)];
      } else {
        dogs := dogs[w := Asked(d, now).(waiting := false)];
      }
    }

    /** `_issue_token`; `TokenStore.TokenTable.IssueToken` has its loops. */
    method IssueToken(key: Key)
      requires Valid() && Unseen(Snapshot(), key)
      modifies this
      ensures Snapshot() == Next(old(Snapshot()), Issues(key)) && Valid()
    {
      StepKeepsInv(Snapshot(), Issues(key));
      var after := Issued(validTokens, key, now);
      var removed := Lost(validTokens, after);
      issuedAt := issuedAt[key := now];
      KeepTokens(after);
      if removed {
        SetChanged();
      }
    }

    method MarkVictims(key: Key)
      modifies `dogs
      ensures dogs == Marked(old(dogs), key)
    {
      var before, marked := dogs, [];
      for w := 0 to |before|
        invariant |marked| == w
        invariant forall v :: 0 <= v < w ==> marked[v] == MarkedFor(before[v], key)
      {
        marked := marked + [MarkedFor(before[w], key)];
      }
      assert marked == Marked(before, key);
      dogs := marked;
    }

    /** `logout` up to its first await: the key goes, and its sockets are collected. */
    method Logout(key: Key)
      requires Valid()
      modifies this
      ensures Snapshot() == Next(old(Snapshot()), LogsOut(key)) && Valid()
    {
      StepKeepsInv(Snapshot(), LogsOut(key));
      out := if Has(validTokens, key) then out + {key} else out;
      KeepTokens(Without(validTokens, key));
      MarkVictims(key);
    }

    /** The logout reaches one of the sockets it collected. */
    method CloseVictim(w: Sock)
      requires Valid() && w < |dogs| && dogs[w].victim
      modifies `dogs
      ensures Snapshot() == Next(old(Snapshot()), AsksVictim(w)) && Valid()
    {
      StepKeepsInv(Snapshot(), AsksVictim(w));
      dogs := dogs[w := Asked(dogs[w], now).(victim := false)];
    }
  }
}
