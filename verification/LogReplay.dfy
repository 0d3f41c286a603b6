/**
  The log hub: a bounded ring of entries, live pushes to subscribers, and replay of the history when
  a subscriber is bound to a case. Every operation runs under the hub's lock, so a run is a sequence
  of operations.
*/
module LogReplay {
  import opened Options

  // `time` is None when the timestamp cannot be parsed.
  datatype Entry = Entry(seqNo: nat, level: int, caseID: string, time: Option<int>, message: string)

  // `handed` is everything ever passed to enqueue for this subscriber, in order; the hub itself keeps
  // only `pending`, what is still to be sent.
  datatype Subscriber = Subscriber(caseID: string, bornSeq: nat, replayedThrough: nat, pending: seq<Entry>, handed: seq<Entry>)

  type Conn = nat

  datatype Hub = Hub(seqNo: nat, cap: nat, minLevel: int, ring: seq<Entry>, subs: map<Conn, Subscriber>)

  const PENDING_MAX := 2000
  const EMPTY_CASE_WINDOW := 300

  // ---------- Operations ----------

  // enqueue: a full queue drops its oldest entry, and the new one is not stored either.
  function Enqueue(sub: Subscriber, e: Entry): Subscriber {
    sub.(handed := sub.handed + [e],
         pending := if |sub.pending| >= PENDING_MAX then sub.pending[1..] else sub.pending + [e])
  }

  predicate LevelEnabled(h: Hub, level: int) { h.minLevel <= 0 || level >= h.minLevel }

  // Whether a live entry goes to a subscriber.
  predicate Eligible(sub: Subscriber, e: Entry) { e.caseID == "" || sub.caseID == "" || sub.caseID == e.caseID }

  function Stamped(h: Hub, e: Entry, now: int): Entry { e.(seqNo := h.seqNo + 1, time := Some(now)) }

  function Pushed(ring: seq<Entry>, cap: nat, e: Entry): seq<Entry> {
    (if |ring| >= cap && ring != [] then ring[1..] else ring) + [e]
  }

  function PushedLive(subs: map<Conn, Subscriber>, e: Entry): map<Conn, Subscriber> {
    map c | c in subs :: if Eligible(subs[c], e) then Enqueue(subs[c], e) else subs[c]
  }

  function AfterPublish(h: Hub, e: Entry, now: int): Hub {
    if !LevelEnabled(h, e.level) then h else
    var stamped := Stamped(h, e, now);
    h.(seqNo := h.seqNo + 1, ring := Pushed(h.ring, h.cap, stamped), subs := PushedLive(h.subs, stamped))
  }

  function AfterSubscribe(h: Hub, c: Conn): Hub {
    h.(subs := h.subs[c := Subscriber("", h.seqNo + 1, 0, [], [])])
  }

  // Which history entries the loop of replayForCaseLocked looks at, and which it selects.
  predicate Scanned(sub: Subscriber, e: Entry) { sub.replayedThrough < e.seqNo < sub.bornSeq }

  predicate Wanted(caseID: string, now: int, e: Entry) {
    e.caseID == caseID || (e.caseID == "" && (e.time.None? || e.time.value >= now - EMPTY_CASE_WINDOW))
  }

  function Replay(ring: seq<Entry>, sub: Subscriber, caseID: string, now: int): seq<Entry> {
    if ring == [] then [] else
    var e := ring[|ring| - 1];
    Replay(ring[..|ring| - 1], sub, caseID, now) + if Scanned(sub, e) && Wanted(caseID, now, e) then [e] else []
  }

  // The highest number looked at, 0 when there is none.
  function ScannedThrough(ring: seq<Entry>, sub: Subscriber): nat {
    if ring == [] then 0 else
    var e := ring[|ring| - 1];
    var before := ScannedThrough(ring[..|ring| - 1], sub);
    if Scanned(sub, e) && e.seqNo > before then e.seqNo else before
  }

  function EnqueueAll(sub: Subscriber, es: seq<Entry>): Subscriber {
    if es == [] then sub else Enqueue(EnqueueAll(sub, es[..|es| - 1]), es[|es| - 1])
  }

  // Binding to a case, the cursor reset included.
  function Bound(sub: Subscriber, caseID: string): Subscriber {
    sub.(caseID := caseID, replayedThrough := if sub.caseID != caseID then 0 else sub.replayedThrough)
  }

  function Rebound(ring: seq<Entry>, sub: Subscriber, caseID: string, now: int): Subscriber {
    var bound := Bound(sub, caseID);
    if caseID == "" then bound else
    var through := ScannedThrough(ring, bound);
    EnqueueAll(bound.(replayedThrough := if through > bound.replayedThrough then through else bound.replayedThrough),
               Replay(ring, bound, caseID, now))
  }

  function AfterSetCase(h: Hub, c: Conn, caseID: string, now: int): Hub {
    if c !in h.subs then h else h.(subs := h.subs[c := Rebound(h.ring, h.subs[c], caseID, now)])
  }

  // flushSubscriber sends from the front of the queue.
  function AfterSend(h: Hub, c: Conn): Hub {
    if c !in h.subs || h.subs[c].pending == [] then h
    else h.(subs := h.subs[c := h.subs[c].(pending := h.subs[c].pending[1..])])
  }

  // ---------- The hub as it runs ----------

  class LogHub {
    var seqNo: nat
    const cap: nat
    const minLevel: int
    var ring: seq<Entry>
    var subs: map<Conn, Subscriber>

    constructor (cap: nat, minLevel: int)
      ensures State() == Hub(0, cap, minLevel, [], map[])
    {
      this.cap, this.minLevel := cap, minLevel;
      seqNo, ring, subs := 0, [], map[];
    }

    function State(): Hub
      reads this
    {
      Hub(seqNo, cap, minLevel, ring, subs)
    }

    method Publish(e: Entry, now: int) returns (published: Entry)
      modifies this
      ensures State() == AfterPublish(old(State()), e, now)
      ensures published == if LevelEnabled(old(State()), e.level) then Stamped(old(State()), e, now) else e
      // an entry below the level leaves no trace; any other gets the next number and goes to the end of the
      // ring and to every subscriber that is bound to no case or to its own, or to all if it has none
      ensures 0 < minLevel && e.level < minLevel ==> State() == old(State())
      ensures minLevel <= 0 || minLevel <= e.level ==>
                && seqNo == old(seqNo) + 1 && published == e.(seqNo := seqNo, time := Some(now))
                && ring == (if |old(ring)| >= cap && old(ring) != [] then old(ring)[1..] else old(ring)) + [published]
                && subs.Keys == old(subs.Keys)
                && forall c <- subs :: subs[c].handed == old(subs)[c].handed +
                     if e.caseID == "" || old(subs)[c].caseID in {"", e.caseID} then [published] else []
    {
      if !(minLevel <= 0 || e.level >= minLevel) {
        return e;
      }
      seqNo := seqNo + 1;
      published := e.(seqNo := seqNo, time := Some(now));
      if |ring| >= cap && ring != [] {
        ring := ring[1..];
      }
      ring := ring + [published];
      PushLive(published);
    }

    // The loop of publish over the subscribers, in any order.
    method PushLive(e: Entry)
      modifies this`subs
      ensures subs == PushedLive(old(subs), e)
    {
      ghost var before := subs;
      var rest := subs.Keys;
      while rest != {}
        invariant rest <= before.Keys && subs.Keys == before.Keys
        invariant forall c <- rest :: subs[c] == before[c]
        invariant forall c <- before.Keys - rest :: subs[c] == PushedLive(before, e)[c]
        decreases |rest|
      {
        var c :| c in rest;
        if e.caseID == "" || subs[c].caseID == "" || subs[c].caseID == e.caseID {
          subs := subs[c := Enqueue(subs[c], e)];
        }
        rest := rest - {c};
      }
    }

    // The watermark: whatever is in the ring is history for the new subscriber, to be replayed when it
    // binds a case, and whatever is published from now on is live for it and never history.
    method AddSubscriber(c: Conn)
      modifies this`subs
      ensures State() == AfterSubscribe(old(State()), c)
      ensures subs.Keys == old(subs.Keys) + {c} && forall d <- old(subs) | d != c :: subs[d] == old(subs)[d]
      ensures subs[c].pending == [] && subs[c].handed == []
      ensures forall e <- ring | 0 < e.seqNo <= seqNo :: Scanned(subs[c], e)
      ensures forall e, now :: !Scanned(subs[c], Stamped(State(), e, now)) && Eligible(subs[c], Stamped(State(), e, now))
    {
      subs := subs[c := Subscriber("", seqNo + 1, 0, [], [])];
    }

    // replayForCaseLocked: the entries to replay and the new cursor.
    method ReplayForCase(sub: Subscriber, caseID: string, now: int) returns (replay: seq<Entry>, through: nat)
      ensures replay == if caseID == "" then [] else Replay(ring, sub, caseID, now)
      ensures through == if caseID != "" && ScannedThrough(ring, sub) > sub.replayedThrough then ScannedThrough(ring, sub) else sub.replayedThrough
    {
      replay, through := [], sub.replayedThrough;
      if caseID == "" {
        return;
      }
      var scannedThrough := 0;
      for i := 0 to |ring|
        invariant replay == Replay(ring[..i], sub, caseID, now) && scannedThrough == ScannedThrough(ring[..i], sub)
      {
        var e := ring[i];
        assert ring[..i + 1][..i] == ring[..i];
        if e.seqNo >= sub.bornSeq || e.seqNo <= sub.replayedThrough {
          continue;
        }
        if e.seqNo > scannedThrough {
          scannedThrough := e.seqNo;
        }
        if Wanted(caseID, now, e) {
          replay := replay + [e];
        }
      }
      assert ring[..|ring|] == ring;
      if scannedThrough > sub.replayedThrough {
        through := scannedThrough;
      }
    }

    method SetCase(c: Conn, caseID: string, now: int)
      requires c in subs
      modifies this
      ensures State() == AfterSetCase(old(State()), c, caseID, now)
      ensures ring == old(ring) && seqNo == old(seqNo) && subs.Keys == old(subs.Keys) && forall d <- subs | d != c :: subs[d] == old(subs)[d]
      ensures subs[c].caseID == caseID && subs[c].bornSeq == old(subs)[c].bornSeq && old(subs)[c].handed <= subs[c].handed
      ensures caseID == "" ==> subs[c].handed == old(subs)[c].handed
    {
      ReboundKeeps(ring, subs[c], caseID, now);
      var sub := subs[c];
      if sub.caseID != caseID {
        sub := sub.(replayedThrough := 0);
      }
      sub := sub.(caseID := caseID);
      var replay, through := ReplayForCase(sub, caseID, now);
      sub := sub.(replayedThrough := through);
      ghost var bound := sub;
      for i := 0 to |replay|
        invariant sub == EnqueueAll(bound, replay[..i])
      {
        assert replay[..i + 1][..i] == replay[..i];
        sub := Enqueue(sub, replay[i]);
      }
      assert replay[..|replay|] == replay;
      subs := subs[c := sub];
    }
  }

  // ---------- Runs ----------

  datatype Op =
    | Publish(entry: Entry, now: int)
    | Subscribe(conn: Conn)
    | Unsubscribe(conn: Conn)
    | SetCase(conn: Conn, caseID: string, now: int)
    | Send(conn: Conn)

  function Apply(h: Hub, op: Op): Hub {
    match op
    case Publish(e, now) => AfterPublish(h, e, now)
    case Subscribe(c) => AfterSubscribe(h, c)
    case Unsubscribe(c) => h.(subs := h.subs - {c})
    case SetCase(c, caseID, now) => AfterSetCase(h, c, caseID, now)
    case Send(c) => AfterSend(h, c)
  }

  function After(h: Hub, ops: seq<Op>): Hub {
    if ops == [] then h else Apply(After(h, ops[..|ops| - 1]), ops[|ops| - 1])
  }

  // The entries a run publishes, as they are stamped; those below the level threshold are not there.
  function Published(h: Hub, ops: seq<Op>): seq<Entry> {
    if ops == [] then [] else
    var last := ops[|ops| - 1];
    var before := After(h, ops[..|ops| - 1]);
    Published(h, ops[..|ops| - 1]) +
    if last.Publish? && LevelEnabled(before, last.entry.level) then [Stamped(before, last.entry, last.now)] else []
  }

  // Entries a subscriber bound to the case gets live.
  function Relevant(es: seq<Entry>, caseID: string): seq<Entry> {
    if es == [] then [] else
    var e := es[|es| - 1];
    Relevant(es[..|es| - 1], caseID) + if e.caseID == "" || e.caseID == caseID then [e] else []
  }

  // Conn c stays subscribed, and every setCase on it names `caseID`.
  predicate Keeps(op: Op, c: Conn, caseID: string) {
    match op
    case Subscribe(d) => d != c
    case Unsubscribe(d) => d != c
    case SetCase(d, other, _) => d == c ==> other == caseID
    case _ => true
  }

  // Not bound to a case yet; a setCase that names none leaves it so.
  predicate Unbound(op: Op, c: Conn) { Keeps(op, c, "") }

  lemma {:induction false} EnqueueAllHands(sub: Subscriber, es: seq<Entry>)
    ensures EnqueueAll(sub, es).handed == sub.handed + es
    ensures EnqueueAll(sub, es) == sub.(handed := EnqueueAll(sub, es).handed, pending := EnqueueAll(sub, es).pending)
  {
    if es != [] {
      EnqueueAllHands(sub, es[..|es| - 1]);
      assert es == es[..|es| - 1] + [es[|es| - 1]];
    }
  }

  lemma ReboundKeeps(ring: seq<Entry>, sub: Subscriber, caseID: string, now: int)
    ensures var sub' := Rebound(ring, sub, caseID, now);
            && sub'.caseID == caseID && sub'.bornSeq == sub.bornSeq && sub.handed <= sub'.handed && (caseID == "" ==> sub'.handed == sub.handed)
  {
    var bound := Bound(sub, caseID);
    var through := ScannedThrough(ring, bound);
    EnqueueAllHands(bound.(replayedThrough := if through > bound.replayedThrough then through else bound.replayedThrough),
                    Replay(ring, bound, caseID, now));
  }

  // ---------- Before the first bind ----------

  // An unbound subscriber is handed everything published since it was born.
  lemma {:induction false} UnboundGetsEverything(h: Hub, c: Conn, ops: seq<Op>)
    requires forall i | 0 <= i < |ops| :: Unbound(ops[i], c)
    ensures var h' := After(AfterSubscribe(h, c), ops);
            && c in h'.subs && h'.seqNo >= h.seqNo
            && h'.subs[c] == Subscriber("", h.seqNo + 1, 0, h'.subs[c].pending, Published(AfterSubscribe(h, c), ops))
  {
    if ops != [] {
      UnboundGetsEverything(h, c, ops[..|ops| - 1]);
      assert Unbound(ops[|ops| - 1], c);
    }
  }

  // ---------- From the first bind on ----------

  // Every entry of the ring that is older than the subscriber has been looked at.
  ghost predicate CaughtUp(ring: seq<Entry>, sub: Subscriber) {
    forall i | 0 <= i < |ring| :: ring[i].seqNo < sub.bornSeq ==> ring[i].seqNo <= sub.replayedThrough
  }

  lemma {:induction false} ScannedThroughIsEnough(ring: seq<Entry>, sub: Subscriber)
    ensures forall i | 0 <= i < |ring| :: Scanned(sub, ring[i]) ==> ring[i].seqNo <= ScannedThrough(ring, sub)
    ensures ScannedThrough(ring, sub) < sub.bornSeq || ScannedThrough(ring, sub) == 0
  {
    if ring != [] {
      ScannedThroughIsEnough(ring[..|ring| - 1], sub);
    }
  }

  lemma {:induction false} NothingLeftToReplay(ring: seq<Entry>, sub: Subscriber, caseID: string, now: int)
    requires CaughtUp(ring, sub)
    ensures Replay(ring, sub, caseID, now) == [] && ScannedThrough(ring, sub) == 0
  {
    if ring != [] {
      NothingLeftToReplay(ring[..|ring| - 1], sub, caseID, now);
    }
  }

  // A bind, the first or a later one, catches up, and hands out exactly the replay.
  lemma BindCatchesUp(ring: seq<Entry>, sub: Subscriber, caseID: string, now: int)
    requires caseID != ""
    ensures var bound := Bound(sub, caseID);
            var sub' := Rebound(ring, sub, caseID, now);
            && CaughtUp(ring, sub') && sub'.caseID == caseID && sub'.bornSeq == sub.bornSeq
            && sub'.handed == sub.handed + Replay(ring, bound, caseID, now)
            && (sub.caseID == caseID && CaughtUp(ring, sub) ==> sub' == sub)
  {
    var bound := Bound(sub, caseID);
    ScannedThroughIsEnough(ring, bound);
    var replay := Replay(ring, bound, caseID, now);
    var through := ScannedThrough(ring, bound);
    EnqueueAllHands(bound.(replayedThrough := if through > bound.replayedThrough then through else bound.replayedThrough), replay);
    if sub.caseID == caseID && CaughtUp(ring, sub) {
      assert bound == sub;
      NothingLeftToReplay(ring, sub, caseID, now);
      assert sub.handed + [] == sub.handed;
    }
  }

  ghost predicate IsBound(h: Hub, c: Conn, caseID: string) {
    c in h.subs && caseID != "" && h.subs[c].caseID == caseID && CaughtUp(h.ring, h.subs[c]) && h.subs[c].bornSeq <= h.seqNo + 1
  }

  // Once bound, a subscriber is handed what is published for its case or for none, and no further
  // setCase of the same case replays anything.
  lemma {:induction false} BoundGetsItsCase(h: Hub, c: Conn, caseID: string, ops: seq<Op>)
    requires IsBound(h, c, caseID)
    requires forall i | 0 <= i < |ops| :: Keeps(ops[i], c, caseID)
    ensures var h' := After(h, ops);
            && IsBound(h', c, caseID) && h'.subs[c].handed == h.subs[c].handed + Relevant(Published(h, ops), caseID)
  {
    if ops == [] {
      assert h.subs[c].handed + [] == h.subs[c].handed;
    } else {
      var before := After(h, ops[..|ops| - 1]);
      BoundGetsItsCase(h, c, caseID, ops[..|ops| - 1]);
      BoundStep(before, c, caseID, ops[|ops| - 1]);
      RelevantGrows(h, caseID, ops);
      Regroup(h.subs[c].handed, Relevant(Published(h, ops[..|ops| - 1]), caseID), Relevant(Published(before, [ops[|ops| - 1]]), caseID));
    }
  }

  lemma Regroup(a: seq<Entry>, b: seq<Entry>, d: seq<Entry>)
    ensures (a + b) + d == a + (b + d)
  {
  }

  lemma BoundStep(h: Hub, c: Conn, caseID: string, op: Op)
    requires IsBound(h, c, caseID)
    requires Keeps(op, c, caseID)
    ensures var h' := Apply(h, op);
            && IsBound(h', c, caseID) && h'.subs[c].handed == h.subs[c].handed + Relevant(Published(h, [op]), caseID)
  {
    assert [op][..0] == [];
    assert After(h, [op][..0]) == h && Published(h, [op][..0]) == [];
    if op.SetCase? && op.conn == c {
      BindCatchesUp(h.ring, h.subs[c], caseID, op.now);
    } else if op.Publish? && LevelEnabled(h, op.entry.level) {
      BoundPublish(h, c, caseID, op.entry, op.now);
    } else {
      assert Published(h, [op]) == [] && Apply(h, op).ring == h.ring;
    }
  }

  lemma BoundPublish(h: Hub, c: Conn, caseID: string, e: Entry, now: int)
    requires IsBound(h, c, caseID) && LevelEnabled(h, e.level)
    ensures var h' := AfterPublish(h, e, now);
            && IsBound(h', c, caseID) && h'.subs[c].handed == h.subs[c].handed + Relevant(Published(h, [Publish(e, now)]), caseID)
  {
    var stamped := Stamped(h, e, now);
    OneIsPublished(h, e, now);
    OneIsRelevant(stamped, caseID);
    hide Published, Relevant, After;
    assert AfterPublish(h, e, now).subs == PushedLive(h.subs, stamped);
    PushKeepsCaughtUp(h.ring, h.cap, stamped, h.subs[c], h.seqNo);
    hide CaughtUp, Pushed;
  }

  lemma OneIsPublished(h: Hub, e: Entry, now: int)
    requires LevelEnabled(h, e.level)
    ensures Published(h, [Publish(e, now)]) == [Stamped(h, e, now)]
  {
    var op := Publish(e, now);
    assert [op][..0] == [];
    assert After(h, [op][..0]) == h && Published(h, [op][..0]) == [];
  }

  lemma OneIsRelevant(e: Entry, caseID: string)
    ensures Relevant([e], caseID) == if e.caseID == "" || e.caseID == caseID then [e] else []
  {
    assert [e][..0] == [];
    assert Relevant([e][..0], caseID) == [];
  }

  lemma PushKeepsCaughtUp(ring: seq<Entry>, cap: nat, e: Entry, sub: Subscriber, seqNo: nat)
    requires CaughtUp(ring, sub) && e.seqNo == seqNo + 1 && sub.bornSeq <= seqNo + 1
    ensures CaughtUp(Pushed(ring, cap, e), sub) && CaughtUp(Pushed(ring, cap, e), Enqueue(sub, e))
  {
  }

  lemma RelevantGrows(h: Hub, caseID: string, ops: seq<Op>)
    requires ops != []
    ensures Relevant(Published(h, ops), caseID) ==
              Relevant(Published(h, ops[..|ops| - 1]), caseID) + Relevant(Published(After(h, ops[..|ops| - 1]), [ops[|ops| - 1]]), caseID)
  {
    var last := ops[|ops| - 1];
    var before := After(h, ops[..|ops| - 1]);
    assert [last][..0] == [];
    assert After(before, [last][..0]) == before && Published(before, [last][..0]) == [];
    var es := Published(h, ops);
    if last.Publish? && LevelEnabled(before, last.entry.level) {
      var e := Stamped(before, last.entry, last.now);
      assert es == Published(h, ops[..|ops| - 1]) + [e];
      assert es[..|es| - 1] == Published(h, ops[..|ops| - 1]);
      assert Published(before, [last]) == [e] && [e][..0] == [];
    } else {
      assert es == Published(h, ops[..|ops| - 1]) && Published(before, [last]) == [];
    }
  }

  // ---------- Exactly once ----------

  // The whole stream handed to a subscriber that is bound to one case: everything live until the
  // bind, then the part of the ring it was too late for, then its case live. Repeated setCase calls
  // anywhere add nothing.
  lemma HandedIsLiveReplayLive(h: Hub, c: Conn, caseID: string, now: int, before: seq<Op>, after: seq<Op>)
    requires caseID != ""
    requires forall i | 0 <= i < |before| :: Unbound(before[i], c)
    requires forall i | 0 <= i < |after| :: Keeps(after[i], c, caseID)
    ensures var born := AfterSubscribe(h, c);
            var atBind := After(born, before);
            var bound := Apply(atBind, SetCase(c, caseID, now));
            var end := After(bound, after);
            && c in end.subs
            && end.subs[c].handed ==
                 Published(born, before)
                 + Replay(atBind.ring, Subscriber(caseID, h.seqNo + 1, 0, [], []), caseID, now)
                 + Relevant(Published(bound, after), caseID)
  {
    hide After, Published, Relevant, Replay, Unbound, Keeps;
    var atBind := After(AfterSubscribe(h, c), before);
    UnboundGetsEverything(h, c, before);
    var sub := atBind.subs[c];
    BindCatchesUp(atBind.ring, sub, caseID, now);
    var bound := Apply(atBind, SetCase(c, caseID, now));
    BoundGetsItsCase(bound, c, caseID, after);
    ReplayLooksAtTheCursorOnly(atBind.ring, Bound(sub, caseID), Subscriber(caseID, h.seqNo + 1, 0, [], []), caseID, now);
  }

  lemma {:induction false} ReplayLooksAtTheCursorOnly(ring: seq<Entry>, a: Subscriber, b: Subscriber, caseID: string, now: int)
    requires a.bornSeq == b.bornSeq && a.replayedThrough == b.replayedThrough
    ensures Replay(ring, a, caseID, now) == Replay(ring, b, caseID, now)
  {
    if ring != [] {
      ReplayLooksAtTheCursorOnly(ring[..|ring| - 1], a, b, caseID, now);
    }
  }

  // Numbers strictly rising within lo < number <= hi.
  ghost predicate Rising(es: seq<Entry>, lo: nat, hi: nat) {
    && (forall i | 0 <= i < |es| :: lo < es[i].seqNo <= hi)
    && (forall i, k | 0 <= i < k < |es| :: es[i].seqNo < es[k].seqNo)
  }

  lemma {:induction false} RunRises(h: Hub, ops: seq<Op>)
    requires Rising(h.ring, 0, h.seqNo)
    ensures var h' := After(h, ops);
            && h'.seqNo >= h.seqNo && Rising(h'.ring, 0, h'.seqNo) && Rising(Published(h, ops), h.seqNo, h'.seqNo)
  {
    if ops != [] {
      RunRises(h, ops[..|ops| - 1]);
    }
  }

  lemma {:induction false} ReplaySelects(ring: seq<Entry>, sub: Subscriber, caseID: string, now: int, hi: nat)
    requires Rising(ring, 0, hi) && sub.bornSeq > 0
    ensures Rising(Replay(ring, sub, caseID, now), 0, sub.bornSeq - 1)
    ensures forall e :: e in Replay(ring, sub, caseID, now) <==> e in ring && Scanned(sub, e) && Wanted(caseID, now, e)
  {
    if ring != [] {
      var rest := ring[..|ring| - 1];
      ReplaySelects(rest, sub, caseID, now, hi);
      var replay := Replay(rest, sub, caseID, now);
      forall i | 0 <= i < |replay| ensures replay[i].seqNo < ring[|ring| - 1].seqNo {
        assert replay[i] in rest;
      }
      assert ring == rest + [ring[|ring| - 1]];
    }
  }

  lemma {:induction false} RelevantSelects(es: seq<Entry>, caseID: string, lo: nat, hi: nat)
    requires Rising(es, lo, hi)
    ensures Rising(Relevant(es, caseID), lo, hi)
    ensures forall e :: e in Relevant(es, caseID) <==> e in es && (e.caseID == "" || e.caseID == caseID)
  {
    if es != [] {
      var rest, last := es[..|es| - 1], es[|es| - 1];
      RelevantSelects(rest, caseID, lo, hi);
      assert es == rest + [last];
      RisingGrows(rest, Relevant(rest, caseID), last, lo, hi);
    }
  }

  lemma RisingGrows(rest: seq<Entry>, kept: seq<Entry>, last: Entry, lo: nat, hi: nat)
    requires Rising(rest + [last], lo, hi) && Rising(kept, lo, hi) && forall e :: e in kept ==> e in rest
    ensures Rising(kept + [last], lo, hi)
  {
    assert (rest + [last])[|rest|] == last;
    forall i | 0 <= i < |kept| ensures kept[i].seqNo < last.seqNo {
      assert kept[i] in rest;
      var k :| 0 <= k < |rest| && rest[k] == kept[i];
      assert (rest + [last])[k] == rest[k];
    }
  }

  ghost predicate NumbersDiffer(es: seq<Entry>) { forall i, k | 0 <= i < k < |es| :: es[i].seqNo != es[k].seqNo }

  function OfCase(es: seq<Entry>, caseID: string): set<Entry> { set e <- es | e.caseID == caseID }

  function OlderOfCase(es: seq<Entry>, caseID: string, hi: nat): set<Entry> { set e <- es | e.caseID == caseID && e.seqNo <= hi }

  // Entries of no case that are not older than five minutes, or whose time cannot be read.
  function RecentOfNone(es: seq<Entry>, hi: nat, now: int): set<Entry> {
    set e <- es | e.caseID == "" && e.seqNo <= hi && (e.time.None? || now - e.time.value <= 300)
  }

  function OfOthers(es: seq<Entry>, caseID: string): set<Entry> { set e <- es | e.caseID != "" && e.caseID != caseID }

  // Exactly once: no two entries handed out have the same number. Those of the case are the ones
  // published live, before or after the bind, and the ones that are older than the subscription and
  // still in the ring at the bind; of the older ones of no case only the recent ones are among them; and
  // those of other cases are the ones published before the bind.
  ghost predicate EachOnce(handed: seq<Entry>, caseID: string, liveBefore: seq<Entry>, ring: seq<Entry>, older: nat, now: int, liveAfter: seq<Entry>) {
    && NumbersDiffer(handed)
    && OfCase(handed, caseID) == OfCase(liveBefore, caseID) + OlderOfCase(ring, caseID, older) + OfCase(liveAfter, caseID)
    && OfCase(handed, "") == OfCase(liveBefore, "") + RecentOfNone(ring, older, now) + OfCase(liveAfter, "")
    && OfOthers(handed, caseID) == OfOthers(liveBefore, caseID)
  }

  lemma EveryEntryIsHandedOnce(h: Hub, c: Conn, caseID: string, now: int, before: seq<Op>, after: seq<Op>)
    requires caseID != "" && Rising(h.ring, 0, h.seqNo)
    requires forall i | 0 <= i < |before| :: Unbound(before[i], c)
    requires forall i | 0 <= i < |after| :: Keeps(after[i], c, caseID)
    ensures var born := AfterSubscribe(h, c);
            var atBind := After(born, before);
            var bound := Apply(atBind, SetCase(c, caseID, now));
            var end := After(bound, after);
            && c in end.subs
            && EachOnce(end.subs[c].handed, caseID, Published(born, before), atBind.ring, h.seqNo, now, Published(bound, after))
  {
    HandedIsLiveReplayLive(h, c, caseID, now, before, after);
    var bound := Apply(After(AfterSubscribe(h, c), before), SetCase(c, caseID, now));
    StreamIsOnce(h, c, caseID, now, before, after, After(bound, after).subs[c].handed);
  }

  lemma StreamIsOnce(h: Hub, c: Conn, caseID: string, now: int, before: seq<Op>, after: seq<Op>, handed: seq<Entry>)
    requires Rising(h.ring, 0, h.seqNo) && caseID != ""
    requires var born := AfterSubscribe(h, c);
             var atBind := After(born, before);
             var bound := Apply(atBind, SetCase(c, caseID, now));
             handed == Published(born, before)
                       + Replay(atBind.ring, Subscriber(caseID, h.seqNo + 1, 0, [], []), caseID, now)
                       + Relevant(Published(bound, after), caseID)
    ensures var born := AfterSubscribe(h, c);
            var atBind := After(born, before);
            var bound := Apply(atBind, SetCase(c, caseID, now));
            EachOnce(handed, caseID, Published(born, before), atBind.ring, h.seqNo, now, Published(bound, after))
  {
    hide *;
    var born := AfterSubscribe(h, c);
    var atBind := After(born, before);
    var bound := Apply(atBind, SetCase(c, caseID, now));
    StreamsRise(h, c, caseID, now, before, after);
    PartsMakeOneStream(handed, Published(born, before), atBind.ring, Published(bound, after), caseID, now,
                       h.seqNo, atBind.seqNo, After(bound, after).seqNo);
  }

  lemma StreamsRise(h: Hub, c: Conn, caseID: string, now: int, before: seq<Op>, after: seq<Op>)
    requires Rising(h.ring, 0, h.seqNo)
    ensures var born := AfterSubscribe(h, c);
            var atBind := After(born, before);
            var bound := Apply(atBind, SetCase(c, caseID, now));
            && h.seqNo <= atBind.seqNo && Rising(Published(born, before), h.seqNo, atBind.seqNo)
            && Rising(atBind.ring, 0, atBind.seqNo) && Rising(Published(bound, after), atBind.seqNo, After(bound, after).seqNo)
  {
    var born := AfterSubscribe(h, c);
    RunRises(born, before);
    RunRises(Apply(After(born, before), SetCase(c, caseID, now)), after);
  }

  // What is published before and after a bind, and what the bind replays from the ring, put together.
  lemma PartsMakeOneStream(handed: seq<Entry>, a: seq<Entry>, ring: seq<Entry>, d: seq<Entry>, caseID: string, now: int,
                           s0: nat, s1: nat, s2: nat)
    requires Rising(a, s0, s1) && Rising(ring, 0, s1) && Rising(d, s1, s2) && s0 <= s1 && caseID != ""
    requires handed == a + Replay(ring, Subscriber(caseID, s0 + 1, 0, [], []), caseID, now) + Relevant(d, caseID)
    ensures EachOnce(handed, caseID, a, ring, s0, now, d)
  {
    var sub := Subscriber(caseID, s0 + 1, 0, [], []);
    ReplaySelects(ring, sub, caseID, now, s1);
    RelevantSelects(d, caseID, s1, s2);
    ThreeParts(a, Replay(ring, sub, caseID, now), Relevant(d, caseID), s0, s1, s2);
    forall e | e in ring ensures e.seqNo > 0 {
      var i :| 0 <= i < |ring| && ring[i] == e;
    }
    hide Replay, Relevant, Wanted, Rising, NumbersDiffer, Published;
    assert HandsOut(handed, a, ring, d, caseID, now, s0);
    hide HandsOut;
    StreamOfTheCase(handed, a, ring, d, caseID, now, s0);
    StreamOfOthers(handed, a, ring, d, caseID, now, s0);
  }

  // What is handed out, entry by entry.
  ghost predicate HandsOut(handed: seq<Entry>, a: seq<Entry>, ring: seq<Entry>, d: seq<Entry>, caseID: string, now: int, older: nat) {
    forall e :: e in handed <==>
      e in a || (e in ring && e.seqNo <= older && Wanted(caseID, now, e)) || (e in d && (e.caseID == "" || e.caseID == caseID))
  }

  lemma StreamOfTheCase(handed: seq<Entry>, a: seq<Entry>, ring: seq<Entry>, d: seq<Entry>, caseID: string, now: int, older: nat)
    requires HandsOut(handed, a, ring, d, caseID, now, older)
    ensures OfCase(handed, caseID) == OfCase(a, caseID) + OlderOfCase(ring, caseID, older) + OfCase(d, caseID)
  {
  }

  lemma StreamOfOthers(handed: seq<Entry>, a: seq<Entry>, ring: seq<Entry>, d: seq<Entry>, caseID: string, now: int, older: nat)
    requires HandsOut(handed, a, ring, d, caseID, now, older) && caseID != ""
    ensures OfCase(handed, "") == OfCase(a, "") + RecentOfNone(ring, older, now) + OfCase(d, "")
    ensures OfOthers(handed, caseID) == OfOthers(a, caseID)
  {
  }

  lemma ThreeParts(a: seq<Entry>, b: seq<Entry>, d: seq<Entry>, s0: nat, s1: nat, s2: nat)
    requires Rising(a, s0, s1) && Rising(b, 0, s0) && Rising(d, s1, s2) && s0 <= s1
    ensures NumbersDiffer(a + b + d)
  {
  }

  // The last n entries.
  function Latest(es: seq<Entry>, n: nat): seq<Entry> { if |es| <= n then es else es[|es| - n..] }

  // "Still in the ring" means among the last `cap` entries published.
  lemma {:induction false} RingHoldsTheLatest(h: Hub, ops: seq<Op>)
    requires 0 < h.cap && |h.ring| <= h.cap
    ensures After(h, ops).cap == h.cap && After(h, ops).ring == Latest(h.ring + Published(h, ops), h.cap)
  {
    if ops == [] {
      assert h.ring + [] == h.ring;
    } else {
      var before, last := After(h, ops[..|ops| - 1]), ops[|ops| - 1];
      var all := h.ring + Published(h, ops[..|ops| - 1]);
      RingHoldsTheLatest(h, ops[..|ops| - 1]);
      if last.Publish? && LevelEnabled(before, last.entry.level) {
        var e := Stamped(before, last.entry, last.now);
        assert h.ring + Published(h, ops) == all + [e];
        PushedKeepsTheLatest(all, h.cap, e);
      } else {
        assert h.ring + Published(h, ops) == all;
      }
    }
  }

  lemma PushedKeepsTheLatest(all: seq<Entry>, cap: nat, e: Entry)
    requires cap > 0
    ensures Pushed(Latest(all, cap), cap, e) == Latest(all + [e], cap)
  {
  }

  // ---------- Connections come and go ----------

  // An unsubscribed connection is gone until it subscribes again, and then starts anew; nobody else notices.
  lemma {:induction false} UnsubscribedIsGone(h: Hub, c: Conn, ops: seq<Op>)
    requires forall i | 0 <= i < |ops| :: ops[i] != Subscribe(c)
    ensures c !in After(Apply(h, Unsubscribe(c)), ops).subs
    ensures forall d <- h.subs | d != c :: d in Apply(h, Unsubscribe(c)).subs && Apply(h, Unsubscribe(c)).subs[d] == h.subs[d]
    ensures Apply(h, Unsubscribe(c)).ring == h.ring && Apply(h, Unsubscribe(c)).seqNo == h.seqNo
  {
    if ops != [] {
      UnsubscribedIsGone(h, c, ops[..|ops| - 1]);
    }
  }

  // ---------- What is sent ----------

  // What the connection gets from its queue in a run.
  function SentTo(h: Hub, c: Conn, ops: seq<Op>): seq<Entry> {
    if ops == [] then [] else
    var (before, last) := (After(h, ops[..|ops| - 1]), ops[|ops| - 1]);
    SentTo(h, c, ops[..|ops| - 1]) +
    if last == Send(c) && c in before.subs && before.subs[c].pending != [] then [before.subs[c].pending[0]] else []
  }

  // The queue of the connection has room for whatever one operation may add.
  ghost predicate HasRoom(h: Hub, c: Conn) { c in h.subs && |h.subs[c].pending| + |h.ring| < 2000 }

  lemma {:induction false} EnqueueAllFits(sub: Subscriber, es: seq<Entry>)
    requires |sub.pending| + |es| < 2000
    ensures EnqueueAll(sub, es).pending == sub.pending + es
  {
    if es == [] {
      assert sub.pending + es == sub.pending;
    } else {
      EnqueueAllFits(sub, es[..|es| - 1]);
      assert es == es[..|es| - 1] + [es[|es| - 1]];
    }
  }

  lemma {:induction false} ReplayIsNotLonger(ring: seq<Entry>, sub: Subscriber, caseID: string, now: int)
    ensures |Replay(ring, sub, caseID, now)| <= |ring|
  {
    if ring != [] {
      ReplayIsNotLonger(ring[..|ring| - 1], sub, caseID, now);
    }
  }

  lemma ReboundFits(ring: seq<Entry>, sub: Subscriber, caseID: string, now: int)
    requires |sub.pending| + |ring| < 2000
    ensures var sub' := Rebound(ring, sub, caseID, now);
            exists more :: sub'.handed == sub.handed + more && sub'.pending == sub.pending + more
  {
    var bound := Bound(sub, caseID);
    var replay := if caseID == "" then [] else Replay(ring, bound, caseID, now);
    var through := ScannedThrough(ring, bound);
    ReplayIsNotLonger(ring, bound, caseID, now);
    var moved := bound.(replayedThrough := if through > bound.replayedThrough then through else bound.replayedThrough);
    EnqueueAllHands(moved, replay);
    EnqueueAllFits(moved, replay);
    assert Rebound(ring, sub, caseID, now).handed == sub.handed + replay;
    assert Rebound(ring, sub, caseID, now).pending == sub.pending + replay;
  }

  // As long as the queue has room, everything a connection is handed is sent to it, once and in order, but
  // for what is still in the queue.
  lemma {:induction false} SentInOrder(h: Hub, c: Conn, ops: seq<Op>)
    requires c in h.subs && h.subs[c].pending == [] && h.subs[c].handed == []
    requires forall n | 0 <= n <= |ops| :: HasRoom(After(h, ops[..n]), c)
    requires forall i | 0 <= i < |ops| :: ops[i] != Subscribe(c)
    ensures c in After(h, ops).subs && After(h, ops).subs[c].handed == SentTo(h, c, ops) + After(h, ops).subs[c].pending
  {
    assert ops[..|ops|] == ops;
    assert HasRoom(After(h, ops[..|ops|]), c);
    if ops != [] {
      var (rest, last) := (ops[..|ops| - 1], ops[|ops| - 1]);
      forall n | 0 <= n <= |rest| ensures HasRoom(After(h, rest[..n]), c) {
        assert rest[..n] == ops[..n];
      }
      SentInOrder(h, c, rest);
      SentStep(After(h, rest), c, last, SentTo(h, c, rest));
    }
  }

  lemma SentStep(h: Hub, c: Conn, op: Op, sent: seq<Entry>)
    requires HasRoom(h, c) && c in Apply(h, op).subs && op != Subscribe(c)
    requires h.subs[c].handed == sent + h.subs[c].pending
    ensures Apply(h, op).subs[c].handed ==
              (if op == Send(c) && h.subs[c].pending != [] then sent + [h.subs[c].pending[0]] else sent) + Apply(h, op).subs[c].pending
  {
    if op.SetCase? && op.conn == c {
      ReboundFits(h.ring, h.subs[c], op.caseID, op.now);
    }
  }

  // ---------- Where it is more or less than once ----------

  // Going to another case and back replays the same history again.
  lemma SwitchingBackReplaysAgain(e: Entry, caseA: string, caseB: string)
    requires e.seqNo == 1 && e.caseID == caseA != caseB && caseA != "" && caseB != ""
    ensures var sub := AfterSubscribe(Hub(1, 10, 0, [e], map[]), 0).subs[0];
            var there := Rebound([e], sub, caseA, 0);
            var back := Rebound([e], Rebound([e], there, caseB, 0), caseA, 0);
            there.handed == [e] && back.handed == [e, e]
  {
    var sub := Subscriber("", 2, 0, [], []);
    var there := Rebound([e], sub, caseA, 0);
    ReboundOnOne(e, sub, caseA, 0);
    ReboundOnOne(e, there, caseB, 0);
    ReboundOnOne(e, Rebound([e], there, caseB, 0), caseA, 0);
  }

  lemma ReboundOnOne(e: Entry, sub: Subscriber, caseID: string, now: int)
    requires e.seqNo == 1 && e.caseID != "" && sub.bornSeq == 2 && sub.caseID != caseID && caseID != ""
    ensures var sub' := Rebound([e], sub, caseID, now);
            sub'.handed == sub.handed + (if e.caseID == caseID then [e] else []) && sub'.caseID == caseID && sub'.bornSeq == 2
  {
    var bound := Bound(sub, caseID);
    assert [e][..0] == [];
    assert Replay([e][..0], bound, caseID, now) == [] && ScannedThrough([e][..0], bound) == 0;
    assert Replay([e], bound, caseID, now) == if e.caseID == caseID then [e] else [];
    assert ScannedThrough([e], bound) == 1;
    EnqueueAllHands(bound.(replayedThrough := 1), Replay([e], bound, caseID, now));
  }

  // A subscriber that cannot send keeps the first 2000 entries it is handed; from then on every
  // second one is dropped together with the oldest.
  lemma {:induction false} OverflowDropsInPairs(sub: Subscriber, es: seq<Entry>)
    requires sub.pending == []
    ensures var kept := EnqueueAll(sub, es).pending;
            |kept| == if |es| <= PENDING_MAX then |es| else PENDING_MAX - (|es| - PENDING_MAX) % 2
    ensures |es| <= PENDING_MAX ==> EnqueueAll(sub, es).pending == es
    ensures |es| > PENDING_MAX && (|es| - PENDING_MAX) % 2 == 1 ==> EnqueueAll(sub, es).pending == EnqueueAll(sub, es[..|es| - 1]).pending[1..]
  {
    if es != [] {
      OverflowDropsInPairs(sub, es[..|es| - 1]);
      assert es == es[..|es| - 1] + [es[|es| - 1]];
    }
  }
}
