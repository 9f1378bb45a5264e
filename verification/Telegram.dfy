// At-most-once delivery of Telegram commands, across crashes and restarts
// (src/mission_orchestrator/adapters/telegram/listener.py, lock.py).
module Telegram {
  import opened Workplan

  // The id as the reply carries it; `None` when it is not an integer.
  datatype Update = Update(id: Option<int>, text: string)

  // ----- one listener working through a reply -----

  function Ids(updates: seq<Update>): seq<int> {
    if updates == [] then []
    else Ids(updates[..|updates| - 1])
         + (match updates[|updates| - 1].id case Some(i) => [i] case None => [])
  }

  // The offset after a reply, and the updates handed on.
  function OffsetAfter(offset: nat, updates: seq<Update>): nat {
    if updates == [] then offset
    else
      var before := OffsetAfter(offset, updates[..|updates| - 1]);
      var u := updates[|updates| - 1];
      if u.id.Some? && u.id.value >= before then u.id.value + 1 else before
  }

  function Handed(offset: nat, updates: seq<Update>): seq<nat> {
    if updates == [] then []
    else
      var front := updates[..|updates| - 1];
      var u := updates[|updates| - 1];
      Handed(offset, front) + if u.id.Some? && u.id.value >= OffsetAfter(offset, front) then [u.id.value] else []
  }

  // What is asked of ids in the order they are handed on: that they rise, or
  // only that none comes twice.
  datatype Order = Rising | Distinct

  predicate Past(order: Order, d: nat, u: nat) {
    if order.Rising? then d < u else d != u
  }

  ghost predicate Ordered(order: Order, ids: seq<nat>) {
    forall i, j :: 0 <= i < j < |ids| ==> Past(order, ids[i], ids[j])
  }

  lemma OrderedGrows(order: Order, ids: seq<nat>, id: nat)
    requires Ordered(order, ids) && forall d :: d in ids ==> Past(order, d, id)
    ensures Ordered(order, ids + [id])
  {
    var more := ids + [id];
    forall i, j | 0 <= i < j < |more| ensures Past(order, more[i], more[j]) {
      assert more[i] == ids[i] && ids[i] in ids;
    }
  }

  // Whatever a reply holds, in whatever order and however often: what is
  // handed on lies at or above the old offset, below the new one, and rises;
  // an update is left out only when it is not above all that came before it.
  lemma {:induction false} HandedRises(offset: nat, updates: seq<Update>)
    ensures Ordered(Rising, Handed(offset, updates)) && offset <= OffsetAfter(offset, updates)
    ensures forall u :: u in Handed(offset, updates) ==> offset <= u < OffsetAfter(offset, updates)
    ensures forall i :: i in Ids(updates) ==> i < OffsetAfter(offset, updates)
    ensures Handed(offset, updates) == [] ==> OffsetAfter(offset, updates) == offset
  {
    if updates != [] {
      var front, u := updates[..|updates| - 1], updates[|updates| - 1];
      HandedRises(offset, front);
      if u.id.Some? && u.id.value >= OffsetAfter(offset, front) {
        OrderedGrows(Rising, Handed(offset, front), u.id.value);
      }
    }
  }

  // The id of the k-th update is a new high, at or above the offset.
  predicate NewHigh(offset: nat, updates: seq<Update>, k: nat, u: nat) {
    && k < |updates| && updates[k].id == Some(u) && u >= offset
    && forall j :: 0 <= j < k && updates[j].id.Some? ==> updates[j].id.value < u
  }

  // Handed on are exactly the new highs; as they rise, that says in which order.
  lemma {:induction false} HandedMeaning(offset: nat, updates: seq<Update>, u: nat)
    ensures u in Handed(offset, updates) <==> exists k: nat :: NewHigh(offset, updates, k, u)
  {
    if updates != [] {
      var n := |updates| - 1;
      HandedMeaning(offset, updates[..n], u);
      HighestYet(offset, updates[..n], u);
      if k: nat :| NewHigh(offset, updates, k, u) {
        if k < n { assert NewHigh(offset, updates[..n], k, u); }
      }
      if k: nat :| NewHigh(offset, updates[..n], k, u) {
        assert NewHigh(offset, updates, k, u);
      }
      if updates[n].id == Some(u) && u >= OffsetAfter(offset, updates[..n]) {
        assert NewHigh(offset, updates, n, u);
      }
    }
  }

  lemma {:induction false} HighestYet(offset: nat, updates: seq<Update>, u: nat)
    ensures u >= OffsetAfter(offset, updates) <==> u >= offset && forall j :: 0 <= j < |updates| && updates[j].id.Some? ==> updates[j].id.value < u
  {
    if updates != [] {
      var n := |updates| - 1;
      HighestYet(offset, updates[..n], u);
      if forall j :: 0 <= j < n && updates[j].id.Some? ==> updates[..n][j].id.value < u {
      }
    }
  }

  class TelegramOffsetStore {
    var stored: Option<nat>

    constructor (stored: Option<nat>)
      ensures this.stored == stored
    {
      this.stored := stored;
    }

    // A negative value is refused and nothing is written.
    method Write(value: int) returns (ok: bool)
      modifies this
      ensures ok <==> value >= 0
      ensures stored == if value >= 0 then Some(value) else old(stored)
    {
      ok := value >= 0;
      if ok {
        stored := Some(value);
      }
    }

    // The offset just above everything in the reply; 0 when it holds no id.
    method SynchronizeBacklog(reply: seq<Update>) returns (offset: Option<nat>)
      modifies this
      ensures offset.Some? ==> stored == offset && forall i :: i in Ids(reply) ==> i < offset.value
      ensures offset.Some? ==> if Ids(reply) == [] then offset.value == 0 else offset.value - 1 in Ids(reply)
      ensures offset.None? <==> exists i :: i in Ids(reply) && forall j :: j in Ids(reply) ==> j <= i && i < -1
      ensures offset.None? ==> stored == old(stored)
    {
      var next, any := 0, false;
      for k := 0 to |reply|
        invariant any <==> Ids(reply[..k]) != []
        invariant !any ==> next == 0
        invariant any ==> next - 1 in Ids(reply[..k])
        invariant forall i :: i in Ids(reply[..k]) ==> i < next
      {
        assert reply[..k + 1][..k] == reply[..k];
        match reply[k].id
        case None =>
        case Some(i) =>
          assert Ids(reply[..k + 1]) == Ids(reply[..k]) + [i];
          assert Ids(reply[..k + 1])[|Ids(reply[..k])|] == i;
          if !any || next <= i {
            next, any := i + 1, true;
          }
      }
      assert reply[..|reply|] == reply;
      var ok := Write(next);
      offset := if ok then Some(next) else None;
      if !ok { assert next - 1 in Ids(reply); }
    }
  }

  class TelegramListener {
    const offsetStore: TelegramOffsetStore
    var offset: nat
    // The ids handed to `_handle_update`, oldest first.
    var handled: seq<nat>

    constructor (offsetStore: TelegramOffsetStore, offset: nat)
      ensures this.offsetStore == offsetStore && this.offset == offset && handled == []
    {
      this.offsetStore, this.offset, handled := offsetStore, offset, [];
    }

    // The body of the loop for one reply; the stop event is seen before the
    // update at position `stopAt`, if at all.
    method Deliver(updates: seq<Update>, stopAt: nat)
      modifies this, offsetStore
      ensures var read := if stopAt < |updates| then updates[..stopAt] else updates;
              && offset == OffsetAfter(old(offset), read)
              && handled == old(handled) + Handed(old(offset), read)
              && (Handed(old(offset), read) != [] ==> offsetStore.stored == Some(offset))
              && (Handed(old(offset), read) == [] ==> offsetStore.stored == old(offsetStore.stored))
    {
      for k := 0 to |updates|
        invariant k <= stopAt
        invariant offset == OffsetAfter(old(offset), updates[..k])
        invariant handled == old(handled) + Handed(old(offset), updates[..k])
        invariant Handed(old(offset), updates[..k]) != [] ==> offsetStore.stored == Some(offset)
        invariant Handed(old(offset), updates[..k]) == [] ==> offsetStore.stored == old(offsetStore.stored)
      {
        assert updates[..k + 1][..k] == updates[..k];
        if k == stopAt {
          break;
        }
        var u := updates[k];
        if u.id.None? || u.id.value < offset {
          continue;
        }
        offset := u.id.value + 1;
        var _ := offsetStore.Write(offset);
        handled := handled + [u.id.value];
      }
      assert updates[..|updates|] == updates;
    }
  }

  // ----- listeners, crashes, restarts and the server -----

  // Where a process stands: it holds the lock, has synchronized, works
  // through a reply, or has persisted the offset of an update that it has
  // not handed on yet.
  datatype Phase =
    | Idle
    | Locked
    | Polling(offset: nat)
    | Working(offset: nat, batch: seq<nat>)
    | Persisted(offset: nat, batch: seq<nat>, current: nat)

  datatype State = State(
    nextId: nat,
    pending: set<nat>,
    owner: Option<nat>,
    phases: map<nat, Phase>,
    dispatched: seq<nat>)

  function PhaseOf(s: State, p: nat): Phase {
    if p in s.phases then s.phases[p] else Idle
  }

  function Moved(s: State, p: nat, phase: Phase): State {
    s.(phases := s.phases[p := phase])
  }

  // The reply to getUpdates(-1): the newest pending update alone.
  predicate NewestOf(pending: set<nat>, offset: nat) {
    if pending == {} then offset == 0 else offset > 0 && offset - 1 in pending && forall u | u in pending :: u < offset
  }

  // When the call that synchronizes may be answered by a reply that is not
  // "ok", which the code reads as an empty backlog: never, whenever every
  // pending update may still be handed on, or at any time.
  datatype Refusals = Never | Harmless(order: Order) | Anytime

  ghost predicate MayRefuse(refusals: Refusals, s: State) {
    match refusals
    case Never => false
    case Harmless(order) => forall u :: u in s.pending ==> Newer(order, s, u)
    case Anytime => true
  }

  // A server that numbers updates upwards and forgets those below the offset
  // asked for; processes that may stop or crash anywhere.
  ghost predicate Step(refusals: Refusals, s: State, t: State) {
    || Arrives(s, t)
    || exists p :: StepOf(refusals, s, t, p)
  }

  ghost predicate StepOf(refusals: Refusals, s: State, t: State, p: nat) {
    || Acquires(s, t, p) || Synchronizes(s, t, p) || (MayRefuse(refusals, s) && Refused(s, t, p))
    || Polls(s, t, p) || Skips(s, t, p) || Persists(s, t, p) || Dispatches(s, t, p) || Ends(s, t, p)
  }

  ghost predicate Arrives(s: State, t: State) {
    exists id :: ArrivesAs(s, t, id)
  }

  predicate ArrivesAs(s: State, t: State, id: nat) {
    id >= s.nextId && t == s.(nextId := id + 1, pending := s.pending + {id})
  }

  predicate Acquires(s: State, t: State, p: nat) {
    s.owner == None && PhaseOf(s, p) == Idle && t == Moved(s, p, Locked).(owner := Some(p))
  }

  ghost predicate Synchronizes(s: State, t: State, p: nat) {
    PhaseOf(s, p) == Locked && exists offset :: SynchronizesAt(s, t, p, offset)
  }

  predicate SynchronizesAt(s: State, t: State, p: nat, offset: nat) {
    && NewestOf(s.pending, offset)
    && t == Moved(s, p, Polling(offset)).(pending := if s.pending == {} then {} else {offset - 1})
  }

  predicate Refused(s: State, t: State, p: nat) {
    PhaseOf(s, p) == Locked && t == Moved(s, p, Polling(0))
  }

  // The reply is any list of pending updates, empty when the call failed; the
  // server forgets nothing but updates below the offset.
  ghost predicate Polls(s: State, t: State, p: nat) {
    PhaseOf(s, p).Polling? && exists batch :: PollsFor(s, t, p, PhaseOf(s, p).offset, batch)
  }

  ghost predicate PollsFor(s: State, t: State, p: nat, offset: nat, batch: seq<nat>) {
    && (forall u :: u in batch ==> u in s.pending)
    && t == Moved(s, p, Working(offset, batch)).(pending := t.pending)
    && t.pending <= s.pending && forall u | u in s.pending && u >= offset :: u in t.pending
  }

  // An update below the offset, or the end of the reply.
  predicate Skips(s: State, t: State, p: nat) {
    var ph := PhaseOf(s, p);
    && ph.Working?
    && if ph.batch == [] then t == Moved(s, p, Polling(ph.offset))
       else ph.batch[0] < ph.offset && t == Moved(s, p, Working(ph.offset, ph.batch[1..]))
  }

  predicate Persists(s: State, t: State, p: nat) {
    var ph := PhaseOf(s, p);
    && ph.Working? && ph.batch != [] && ph.batch[0] >= ph.offset
    && t == Moved(s, p, Persisted(ph.batch[0] + 1, ph.batch[1..], ph.batch[0]))
  }

  predicate Dispatches(s: State, t: State, p: nat) {
    var ph := PhaseOf(s, p);
    ph.Persisted? && t == Moved(s, p, Working(ph.offset, ph.batch)).(dispatched := s.dispatched + [ph.current])
  }

  // Stopping releases the lock; so does the operating system after a crash.
  predicate Ends(s: State, t: State, p: nat) {
    PhaseOf(s, p) != Idle && t == Moved(s, p, Idle).(owner := None)
  }

  predicate Initial(s: State) {
    (forall u | u in s.pending :: u < s.nextId) && s.owner == None && s.phases == map[] && s.dispatched == []
  }

  ghost predicate Goes(refusals: Refusals, run: seq<State>) {
    forall i, next :: 0 <= i && next == i + 1 && next < |run| ==> Step(refusals, run[i], run[next])
  }

  ghost predicate IsRun(refusals: Refusals, run: seq<State>) {
    run != [] && Initial(run[0]) && Goes(refusals, run)
  }

  // ----- what every run keeps -----

  // Past everything dispatched.
  ghost predicate Newer(order: Order, s: State, u: nat) {
    forall d :: d in s.dispatched ==> Past(order, d, u)
  }

  // What a process may still hand on has not been handed on.
  ghost predicate Clear(order: Order, s: State, ph: Phase) {
    match ph
    case Idle => true
    case Locked => true
    case Polling(offset) => Fresh(order, s, s.pending, offset)
    case Working(offset, batch) => Fresh(order, s, s.pending, offset) && Fresh(order, s, Members(batch), offset)
    case Persisted(offset, batch, current) =>
      Newer(order, s, current) && current < s.nextId && offset == current + 1
      && Fresh(order, s, s.pending, offset) && Fresh(order, s, Members(batch), offset)
  }

  function Members(batch: seq<nat>): set<nat> {
    set u | u in batch
  }

  ghost predicate Fresh(order: Order, s: State, updates: set<nat>, offset: nat) {
    forall u | u in updates :: u < s.nextId && (u >= offset ==> Newer(order, s, u))
  }

  ghost predicate Invariant(order: Order, s: State) {
    && Ordered(order, s.dispatched)
    && (forall d :: d in s.dispatched ==> d < s.nextId)
    && (forall u :: u in s.pending ==> u < s.nextId)
    && (forall p: nat :: PhaseOf(s, p) != Idle ==> s.owner == Some(p) && Clear(order, s, PhaseOf(s, p)))
  }

  lemma InitialInvariant(order: Order, s: State)
    requires Initial(s)
    ensures Invariant(order, s)
  {
  }

  lemma ArrivesKeeps(order: Order, s: State, t: State, id: nat)
    requires Invariant(order, s) && ArrivesAs(s, t, id)
    ensures Invariant(order, t)
  {
    forall p: nat | PhaseOf(t, p) != Idle ensures t.owner == Some(p) && Clear(order, t, PhaseOf(t, p)) {
      assert PhaseOf(s, p) == PhaseOf(t, p);
    }
  }

  // A process that moves leaves no other behind that is not idle.
  lemma OnlyOwnerMoves(order: Order, s: State, t: State, p: nat, phase: Phase)
    requires Invariant(order, s) && (s.owner == None || s.owner == Some(p)) && t.phases == s.phases[p := phase]
    requires phase != Idle ==> t.owner == Some(p) && Clear(order, t, phase)
    ensures forall q: nat :: PhaseOf(t, q) != Idle ==> t.owner == Some(q) && Clear(order, t, PhaseOf(t, q))
  {
    forall q: nat | PhaseOf(t, q) != Idle ensures q == p {
      assert q == p || PhaseOf(t, q) == PhaseOf(s, q);
    }
  }

  lemma SynchronizesKeeps(order: Order, s: State, t: State, p: nat, offset: nat)
    requires Invariant(order, s) && PhaseOf(s, p) == Locked && SynchronizesAt(s, t, p, offset)
    ensures Invariant(order, t)
  {
    OnlyOwnerMoves(order, s, t, p, Polling(offset));
  }

  lemma RefusedKeeps(order: Order, s: State, t: State, p: nat)
    requires Invariant(order, s) && Refused(s, t, p) && MayRefuse(Harmless(order), s)
    ensures Invariant(order, t)
  {
    OnlyOwnerMoves(order, s, t, p, Polling(0));
  }

  lemma PollsKeeps(order: Order, s: State, t: State, p: nat, batch: seq<nat>)
    requires Invariant(order, s) && PhaseOf(s, p).Polling? && PollsFor(s, t, p, PhaseOf(s, p).offset, batch)
    ensures Invariant(order, t)
  {
    OnlyOwnerMoves(order, s, t, p, Working(PhaseOf(s, p).offset, batch));
  }

  lemma RestFresh(order: Order, s: State, batch: seq<nat>, offset: nat, later: nat)
    requires Fresh(order, s, Members(batch), offset) && batch != [] && later >= offset
    ensures Fresh(order, s, Members(batch[1..]), later)
  {
    assert Members(batch[1..]) <= Members(batch);
  }

  lemma SkipsKeeps(order: Order, s: State, t: State, p: nat)
    requires Invariant(order, s) && Skips(s, t, p)
    ensures Invariant(order, t)
  {
    var ph := PhaseOf(s, p);
    if ph.batch != [] { RestFresh(order, s, ph.batch, ph.offset, ph.offset); }
    OnlyOwnerMoves(order, s, t, p, PhaseOf(t, p));
  }

  lemma PersistsKeeps(order: Order, s: State, t: State, p: nat)
    requires Invariant(order, s) && Persists(s, t, p)
    ensures Invariant(order, t)
  {
    var ph := PhaseOf(s, p);
    assert ph.batch[0] in Members(ph.batch);
    RestFresh(order, s, ph.batch, ph.offset, ph.batch[0] + 1);
    OnlyOwnerMoves(order, s, t, p, PhaseOf(t, p));
  }

  lemma DispatchesKeeps(order: Order, s: State, t: State, p: nat)
    requires Invariant(order, s) && Dispatches(s, t, p)
    ensures Invariant(order, t)
  {
    OrderedGrows(order, s.dispatched, PhaseOf(s, p).current);
    OnlyOwnerMoves(order, s, t, p, PhaseOf(t, p));
  }

  lemma EndsKeeps(order: Order, s: State, t: State, p: nat)
    requires Invariant(order, s) && (Ends(s, t, p) || Acquires(s, t, p))
    ensures Invariant(order, t)
  {
    OnlyOwnerMoves(order, s, t, p, PhaseOf(t, p));
  }

  lemma StepKeeps(order: Order, s: State, t: State)
    requires Invariant(order, s) && Step(Harmless(order), s, t)
    ensures Invariant(order, t)
  {
    if Arrives(s, t) {
      var id :| ArrivesAs(s, t, id);
      ArrivesKeeps(order, s, t, id);
    } else {
      var p :| StepOf(Harmless(order), s, t, p);
      if Synchronizes(s, t, p) {
        var offset :| SynchronizesAt(s, t, p, offset);
        SynchronizesKeeps(order, s, t, p, offset);
      } else if Polls(s, t, p) {
        var batch :| PollsFor(s, t, p, PhaseOf(s, p).offset, batch);
        PollsKeeps(order, s, t, p, batch);
      } else if Skips(s, t, p) {
        SkipsKeeps(order, s, t, p);
      } else if Persists(s, t, p) {
        PersistsKeeps(order, s, t, p);
      } else if Dispatches(s, t, p) {
        DispatchesKeeps(order, s, t, p);
      } else if Refused(s, t, p) && MayRefuse(Harmless(order), s) {
        RefusedKeeps(order, s, t, p);
      } else {
        EndsKeeps(order, s, t, p);
      }
    }
  }

  lemma {:induction false} RunKeeps(order: Order, run: seq<State>, k: nat)
    requires IsRun(Harmless(order), run) && k < |run|
    ensures Invariant(order, run[k])
  {
    if k == 0 {
      InitialInvariant(order, run[0]);
    } else {
      RunKeeps(order, run, k - 1);
      StepKeeps(order, run[k - 1], run[k]);
    }
  }

  // Every run hands updates on in that order.
  ghost predicate Delivers(order: Order, refusals: Refusals) {
    forall run: seq<State> :: IsRun(refusals, run) ==> Ordered(order, run[|run| - 1].dispatched)
  }

  lemma {:induction false} NeverIsHarmless(order: Order, run: seq<State>)
    requires Goes(Never, run)
    ensures Goes(Harmless(order), run)
  {
    forall i, next | 0 <= i && next == i + 1 && next < |run| ensures Step(Harmless(order), run[i], run[next]) {
      if !Arrives(run[i], run[next]) {
        var p :| StepOf(Never, run[i], run[next], p);
        assert StepOf(Harmless(order), run[i], run[next], p);
      }
    }
  }

  // A run in which an update is handed on, the process crashes before the
  // server hears of it, and the next one is refused its backlog.
  const BEFORE := State(1, {0}, None, map[], [])

  function ReplayedRun(): seq<State> {
    [ BEFORE,
      State(1, {0}, Some(1), map[1 := Locked], []),
      State(1, {0}, Some(1), map[1 := Polling(0)], []),
      State(1, {0}, Some(1), map[1 := Working(0, [0])], []),
      State(1, {0}, Some(1), map[1 := Persisted(1, [], 0)], []),
      State(1, {0}, Some(1), map[1 := Working(1, [])], [0]),
      State(1, {0}, None, map[1 := Idle], [0]),
      State(1, {0}, Some(1), map[1 := Locked], [0]),
      State(1, {0}, Some(1), map[1 := Polling(0)], [0]),
      State(1, {0}, Some(1), map[1 := Working(0, [0])], [0]),
      State(1, {0}, Some(1), map[1 := Persisted(1, [], 0)], [0]),
      State(1, {0}, Some(1), map[1 := Working(1, [])], [0, 0]) ]
  }

  lemma ReplayedRunIsRun()
    ensures IsRun(Anytime, ReplayedRun())
  {
    var run := ReplayedRun();
    forall i, next | 0 <= i && next == i + 1 && next < |run| ensures Step(Anytime, run[i], run[next]) {
      assert [0][1..] == [];
      if i < 6 { FirstLife(i); } else { SecondLife(i); }
    }
  }

  lemma FirstLife(i: nat)
    requires i < 6
    ensures Step(Anytime, ReplayedRun()[i], ReplayedRun()[i + 1])
  {
    var s, t := ReplayedRun()[i], ReplayedRun()[i + 1];
    assert [0][1..] == [];
    if i == 2 { assert PollsFor(s, t, 1, 0, [0]); }
    assert StepOf(Anytime, s, t, 1);
  }

  lemma SecondLife(i: nat)
    requires 6 <= i < 11
    ensures Step(Anytime, ReplayedRun()[i], ReplayedRun()[i + 1])
  {
    var s, t := ReplayedRun()[i], ReplayedRun()[i + 1];
    assert [0][1..] == [];
    if i == 8 { assert PollsFor(s, t, 1, 0, [0]); }
    assert StepOf(Anytime, s, t, 1);
  }

  // Ids rise, and so none is handed on twice, in every run with any number of
  // crashes and restarts, if the server never refuses the backlog call, and
  // also if it refuses it only in harmless states; not if it may at any time.
  lemma DeliveryOverAllRuns(order: Order)
    ensures Delivers(order, Never) && Delivers(order, Harmless(order)) && !Delivers(order, Anytime)
  {
    forall run: seq<State> | IsRun(Harmless(order), run) ensures Ordered(order, run[|run| - 1].dispatched) {
      RunKeeps(order, run, |run| - 1);
    }
    forall run: seq<State> | IsRun(Never, run) ensures Ordered(order, run[|run| - 1].dispatched) {
      NeverIsHarmless(order, run);
      RunKeeps(order, run, |run| - 1);
    }
    ReplayedRunIsRun();
    var last := ReplayedRun()[|ReplayedRun()| - 1];
    assert !Past(order, last.dispatched[0], last.dispatched[1]);
  }

  // From a refusal on, with no harmful refusal after it, the order is kept
  // whatever happens: exactly when no pending update was handed on before
  // (or, for rising ids, lies below one that was).
  lemma RefusalIsHarmlessIff(order: Order, run: seq<State>, p: nat, refused: State)
    requires IsRun(Harmless(order), run) && Refused(run[|run| - 1], refused, p)
    ensures MayRefuse(Harmless(order), run[|run| - 1]) <==>
            forall more: seq<State> :: Goes(Harmless(order), [refused] + more) ==>
              Ordered(order, ([refused] + more)[|more|].dispatched)
  {
    var s := run[|run| - 1];
    if MayRefuse(Harmless(order), s) {
      forall more: seq<State> | Goes(Harmless(order), [refused] + more) ensures Ordered(order, ([refused] + more)[|more|].dispatched) {
        assert StepOf(Harmless(order), s, refused, p);
        RunsJoin(order, run, [refused] + more);
        RunKeeps(order, run + ([refused] + more), |run| + |more|);
      }
    } else {
      var u :| u in s.pending && !Newer(order, s, u);
      var more := HandsOn(Harmless(order), refused, p, u);
      var d :| d in s.dispatched && !Past(order, d, u);
      var i :| 0 <= i < |s.dispatched| && s.dispatched[i] == d;
      var last := more[2].dispatched;
      assert ([refused] + more)[|more|] == more[2];
      assert last[i] == d && last[|s.dispatched|] == u;
    }
  }

  lemma RunsJoin(order: Order, a: seq<State>, b: seq<State>)
    requires IsRun(Harmless(order), a) && Goes(Harmless(order), b) && b != []
    requires Step(Harmless(order), a[|a| - 1], b[0])
    ensures IsRun(Harmless(order), a + b)
  {
    var all := a + b;
    forall i, next | 0 <= i && next == i + 1 && next < |all| ensures Step(Harmless(order), all[i], all[next]) {
      if next < |a| {
        assert Step(Harmless(order), a[i], a[next]);
      } else if i >= |a| {
        assert Step(Harmless(order), b[i - |a|], b[next - |a|]);
      }
    }
  }

  // A process that polls from 0 may hand on any pending update next.
  lemma HandsOn(refusals: Refusals, s: State, p: nat, u: nat) returns (more: seq<State>)
    requires PhaseOf(s, p) == Polling(0) && u in s.pending
    ensures |more| == 3 && Goes(refusals, [s] + more) && more[2].dispatched == s.dispatched + [u]
  {
    var polled := Moved(s, p, Working(0, [u]));
    var held := Moved(polled, p, Persisted(u + 1, [], u));
    var handed := Moved(held, p, Working(u + 1, [])).(dispatched := s.dispatched + [u]);
    more := [polled, held, handed];
    assert PollsFor(s, polled, p, 0, [u]);
    assert [u][1..] == [];
    assert StepOf(refusals, s, polled, p) && StepOf(refusals, polled, held, p) && StepOf(refusals, held, handed, p);
  }

  // ----- the lock -----

  ghost predicate Exclusive(s: State) {
    forall p: nat :: PhaseOf(s, p) != Idle ==> s.owner == Some(p)
  }

  lemma StepKeepsExclusive(refusals: Refusals, s: State, t: State)
    requires Exclusive(s) && Step(refusals, s, t)
    ensures Exclusive(t)
  {
    if Arrives(s, t) {
      forall p: nat | PhaseOf(t, p) != Idle ensures t.owner == Some(p) { assert PhaseOf(s, p) == PhaseOf(t, p); }
    } else {
      var q :| StepOf(refusals, s, t, q);
      assert t.phases == s.phases[q := PhaseOf(t, q)];
      forall p: nat | PhaseOf(t, p) != Idle ensures t.owner == Some(p) {
        assert p == q || PhaseOf(s, p) == PhaseOf(t, p);
      }
    }
  }

  lemma {:induction false} RunIsExclusive(refusals: Refusals, run: seq<State>, k: nat)
    requires IsRun(refusals, run) && k < |run|
    ensures Exclusive(run[k])
  {
    if k > 0 {
      RunIsExclusive(refusals, run, k - 1);
      StepKeepsExclusive(refusals, run[k - 1], run[k]);
    }
  }

  // At most one process is at work, and it holds the lock, in any run at all.
  lemma OneListener(refusals: Refusals, run: seq<State>, p: nat, q: nat)
    requires IsRun(refusals, run)
    requires PhaseOf(run[|run| - 1], p) != Idle && PhaseOf(run[|run| - 1], q) != Idle
    ensures p == q && run[|run| - 1].owner == Some(p)
  {
    RunIsExclusive(refusals, run, |run| - 1);
  }

  // ----- the listener's loop is a run of these steps -----

  ghost predicate Leads(s: State, t: State, steps: nat)
    decreases steps
  {
    if steps == 0 then s == t else exists m: State :: Step(Never, s, m) && Leads(m, t, steps - 1)
  }

  lemma Onward(s: State, m: State, t: State, p: nat, steps: nat)
    requires (Skips(s, m, p) || Persists(s, m, p) || Dispatches(s, m, p)) && Leads(m, t, steps)
    ensures Leads(s, t, steps + 1)
  {
    assert StepOf(Never, s, m, p);
    assert Step(Never, s, m);
  }

  function AsUpdates(batch: seq<nat>): seq<Update> {
    seq(|batch|, i requires 0 <= i < |batch| => Update(Some(batch[i]), ""))
  }

  lemma {:induction false} FirstUpdate(offset: nat, updates: seq<Update>)
    requires updates != []
    ensures var now := OffsetAfter(offset, updates[..1]);
            && OffsetAfter(offset, updates) == OffsetAfter(now, updates[1..])
            && Handed(offset, updates) == Handed(offset, updates[..1]) + Handed(now, updates[1..])
  {
    var n := |updates| - 1;
    if n == 0 {
      assert updates[..1] == updates;
    } else {
      FirstUpdate(offset, updates[..n]);
      assert updates[..n][..1] == updates[..1];
      assert updates[..n][1..] == updates[1..][..n - 1];
      assert updates[1..][n - 1] == updates[n];
    }
  }

  // Part of a reply worked through, as `Deliver` leaves it; the rest is open.
  function Delivered(s: State, p: nat, offset: nat, updates: seq<Update>, rest: seq<nat>): State {
    Moved(s, p, Working(OffsetAfter(offset, updates), rest)).(dispatched := s.dispatched + Handed(offset, updates))
  }

  lemma FirstOfBatch(offset: nat, batch: seq<nat>)
    requires batch != []
    ensures var updates := AsUpdates(batch);
            var now := if batch[0] < offset then offset else batch[0] + 1;
            && updates[1..] == AsUpdates(batch[1..])
            && OffsetAfter(offset, updates) == OffsetAfter(now, updates[1..])
            && Handed(offset, updates) == (if batch[0] < offset then [] else [batch[0]]) + Handed(now, updates[1..])
  {
    var updates := AsUpdates(batch);
    FirstUpdate(offset, updates);
    assert updates[..1][..0] == [] && updates[..1][0] == Update(Some(batch[0]), "");
  }

  lemma FirstSkipped(s: State, p: nat, offset: nat, batch: seq<nat>, rest: seq<nat>)
    requires PhaseOf(s, p) == Working(offset, batch + rest) && batch != [] && batch[0] < offset
    ensures var m := Moved(s, p, Working(offset, batch[1..] + rest));
            Skips(s, m, p) && Delivered(m, p, offset, AsUpdates(batch[1..]), rest) == Delivered(s, p, offset, AsUpdates(batch), rest)
  {
    FirstOfBatch(offset, batch);
    assert (batch + rest)[1..] == batch[1..] + rest;
  }

  lemma FirstHanded(s: State, p: nat, offset: nat, batch: seq<nat>, rest: seq<nat>)
    requires PhaseOf(s, p) == Working(offset, batch + rest) && batch != [] && batch[0] >= offset
    ensures var held := Moved(s, p, Persisted(batch[0] + 1, batch[1..] + rest, batch[0]));
            var m := Moved(held, p, Working(batch[0] + 1, batch[1..] + rest)).(dispatched := s.dispatched + [batch[0]]);
            && Persists(s, held, p) && Dispatches(held, m, p)
            && Delivered(m, p, batch[0] + 1, AsUpdates(batch[1..]), rest) == Delivered(s, p, offset, AsUpdates(batch), rest)
  {
    FirstOfBatch(offset, batch);
    assert (batch + rest)[1..] == batch[1..] + rest;
    var later := Handed(batch[0] + 1, AsUpdates(batch[1..]));
    assert s.dispatched + [batch[0]] + later == s.dispatched + ([batch[0]] + later);
  }

  // Working through a reply, up to wherever the stop event is seen, takes the
  // process from the old offset to the new one and hands on exactly what
  // `Deliver` does.
  lemma {:induction false} DeliverIsSteps(s: State, p: nat, offset: nat, batch: seq<nat>, rest: seq<nat>) returns (steps: nat)
    requires PhaseOf(s, p) == Working(offset, batch + rest)
    ensures Leads(s, Delivered(s, p, offset, AsUpdates(batch), rest), steps)
    decreases batch
  {
    var end := Delivered(s, p, offset, AsUpdates(batch), rest);
    if batch == [] {
      assert [] + rest == rest;
      assert end.phases == s.phases && end.dispatched == s.dispatched;
      steps := 0;
    } else if batch[0] < offset {
      FirstSkipped(s, p, offset, batch, rest);
      var m := Moved(s, p, Working(offset, batch[1..] + rest));
      steps := DeliverIsSteps(m, p, offset, batch[1..], rest);
      Onward(s, m, end, p, steps);
      steps := steps + 1;
    } else {
      FirstHanded(s, p, offset, batch, rest);
      var held := Moved(s, p, Persisted(batch[0] + 1, batch[1..] + rest, batch[0]));
      var m := Moved(held, p, Working(batch[0] + 1, batch[1..] + rest)).(dispatched := s.dispatched + [batch[0]]);
      steps := DeliverIsSteps(m, p, batch[0] + 1, batch[1..], rest);
      Onward(held, m, end, p, steps);
      Onward(s, held, end, p, steps + 1);
      steps := steps + 2;
    }
  }
}
