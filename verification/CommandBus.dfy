// The command bus between the human and a mission, and the loops that read it
// (src/mission_orchestrator/adapters/command_bus.py,
// application/signal_controller.py, application/approval.py).
module CommandBus {
  import opened Workplan

  datatype GateMode = Manual | Auto
  datatype Kind = Abort | Pause | Resume | Approve | Reject | Retry | Skip | Gate | Answer | Done
  datatype Command = Command(kind: Kind, text: string, reason: string, feedback: string, gateMode: Option<GateMode>)

  predicate SetsGate(c: Command) {
    c.kind.Gate? && c.gateMode.Some?
  }

  // The commands that `check_signals` and its pause act on.
  predicate Control(c: Command) {
    c.kind.Abort? || c.kind.Pause? || c.kind.Resume? || SetsGate(c)
  }

  // ----- keeping order -----

  // `kept` is `all` with some commands taken out.
  predicate Subsequence(kept: seq<Command>, all: seq<Command>) {
    kept == [] || (all != [] && ((kept[0] == all[0] && Subsequence(kept[1..], all[1..])) || Subsequence(kept, all[1..])))
  }

  lemma {:induction false} SubsequenceOfItself(s: seq<Command>)
    ensures Subsequence(s, s)
  {
    if s != [] { SubsequenceOfItself(s[1..]); }
  }

  lemma {:induction false} SubsequenceTransitive(a: seq<Command>, b: seq<Command>, c: seq<Command>)
    requires Subsequence(a, b) && Subsequence(b, c)
    ensures Subsequence(a, c)
    decreases |c|
  {
    if a != [] && b != [] {
      if Subsequence(b, c[1..]) {
        SubsequenceTransitive(a, b, c[1..]);
      } else if a[0] == b[0] && Subsequence(a[1..], b[1..]) {
        SubsequenceTransitive(a[1..], b[1..], c[1..]);
      } else {
        SubsequenceTransitive(a, b[1..], c[1..]);
      }
    }
  }

  lemma {:induction false} SubsequenceBehind(front: seq<Command>, a: seq<Command>, b: seq<Command>)
    requires Subsequence(a, b)
    ensures Subsequence(front + a, front + b)
  {
    if front == [] {
      assert front + a == a && front + b == b;
    } else {
      SubsequenceBehind(front[1..], a, b);
      assert (front + a)[1..] == front[1..] + a && (front + b)[1..] == front[1..] + b;
    }
  }

  lemma {:induction false} SubsequenceOfLonger(a: seq<Command>, front: seq<Command>, b: seq<Command>)
    requires Subsequence(a, b)
    ensures Subsequence(a, front + b)
  {
    if front == [] {
      assert front + b == b;
    } else {
      SubsequenceOfLonger(a, front[1..], b);
      assert (front + b)[1..] == front[1..] + b;
    }
  }

  lemma OneTakenOut(a: seq<Command>, c: Command, b: seq<Command>)
    ensures Subsequence(a + b, a + [c] + b)
  {
    SubsequenceOfItself(b);
    assert ([c] + b)[1..] == b;
    SubsequenceBehind(a, b, [c] + b);
    assert a + [c] + b == a + ([c] + b);
  }

  function Only(p: Command -> bool, s: seq<Command>): seq<Command> {
    if s == [] then [] else (if p(s[0]) then [s[0]] else []) + Only(p, s[1..])
  }

  lemma Associates(a: seq<Command>, b: seq<Command>, c: seq<Command>)
    ensures a + (b + c) == a + b + c
  {
  }

  lemma {:induction false} OnlyConcat(p: Command -> bool, a: seq<Command>, b: seq<Command>)
    ensures Only(p, a + b) == Only(p, a) + Only(p, b)
  {
    if a == [] {
      assert a + b == b;
    } else {
      OnlyConcat(p, a[1..], b);
      assert (a + b)[1..] == a[1..] + b;
      Associates(if p(a[0]) then [a[0]] else [], Only(p, a[1..]), Only(p, b));
    }
  }

  lemma {:induction false} OnlyNone(p: Command -> bool, s: seq<Command>)
    requires forall c :: c in s ==> !p(c)
    ensures Only(p, s) == []
  {
    if s != [] { OnlyNone(p, s[1..]); }
  }

  function Number(kind: Kind, s: seq<Command>): nat {
    if s == [] then 0 else (if s[0].kind == kind then 1 else 0) + Number(kind, s[1..])
  }

  lemma {:induction false} NumberConcat(kind: Kind, a: seq<Command>, b: seq<Command>)
    ensures Number(kind, a + b) == Number(kind, a) + Number(kind, b)
  {
    if a == [] {
      assert a + b == b;
    } else {
      NumberConcat(kind, a[1..], b);
      assert (a + b)[1..] == a[1..] + b;
    }
  }

  // The gate mode after commands have been acted on, in this order.
  function ModeAfter(mode: Option<GateMode>, acted: seq<Command>): Option<GateMode>
    decreases acted
  {
    if acted == [] then mode
    else ModeAfter(if SetsGate(acted[0]) then acted[0].gateMode else mode, acted[1..])
  }

  lemma {:induction false} ModeAfterConcat(mode: Option<GateMode>, a: seq<Command>, b: seq<Command>)
    ensures ModeAfter(mode, a + b) == ModeAfter(ModeAfter(mode, a), b)
    decreases a
  {
    if a == [] {
      assert a + b == b;
    } else {
      ModeAfterConcat(if SetsGate(a[0]) then a[0].gateMode else mode, a[1..], b);
      assert (a + b)[1..] == a[1..] + b;
    }
  }

  // ----- what reading a bus may do to it -----

  // Of the commands there were, those acted on are gone and the others are
  // there once each in their old order; gate settings took effect in the
  // order of their arrival.
  ghost predicate Conserved(before: seq<Command>, after: seq<Command>, acted: seq<Command>) {
    && Subsequence(after, before)
    && Tally(before, after, acted)
    && GatesInOrder(before, after, acted)
  }

  ghost predicate Tally(before: seq<Command>, after: seq<Command>, acted: seq<Command>) {
    multiset(before) == multiset(after) + multiset(acted) && forall c :: c in acted ==> Control(c)
  }

  ghost predicate GatesInOrder(before: seq<Command>, after: seq<Command>, acted: seq<Command>) {
    Only(SetsGate, before) == Only(SetsGate, acted) + Only(SetsGate, after)
  }

  lemma NothingRead(s: seq<Command>)
    ensures Conserved(s, [] + s, [])
  {
    assert [] + s == s;
    SubsequenceOfItself(s);
  }

  lemma OneActedOn(before: seq<Command>, kept: seq<Command>, c: Command, rest: seq<Command>, acted: seq<Command>)
    requires Conserved(before, kept + [c] + rest, acted) && Control(c)
    requires SetsGate(c) ==> forall k :: k in kept ==> !SetsGate(k)
    ensures Conserved(before, kept + rest, acted + [c])
  {
    OneTakenOut(kept, c, rest);
    SubsequenceTransitive(kept + rest, kept + [c] + rest, before);
    OneTallied(before, kept, c, rest, acted);
    OneGate(before, kept, c, rest, acted);
  }

  lemma OneTallied(before: seq<Command>, kept: seq<Command>, c: Command, rest: seq<Command>, acted: seq<Command>)
    requires Tally(before, kept + [c] + rest, acted) && Control(c)
    ensures Tally(before, kept + rest, acted + [c])
  {
    assert multiset(kept + [c] + rest) == multiset(kept + rest) + multiset([c]);
    assert multiset(acted + [c]) == multiset(acted) + multiset([c]);
  }

  lemma OneGate(before: seq<Command>, kept: seq<Command>, c: Command, rest: seq<Command>, acted: seq<Command>)
    requires GatesInOrder(before, kept + [c] + rest, acted)
    requires SetsGate(c) ==> forall k :: k in kept ==> !SetsGate(k)
    ensures GatesInOrder(before, kept + rest, acted + [c])
  {
    OnlyConcat(SetsGate, kept, rest);
    OnlyConcat(SetsGate, kept + [c], rest);
    OnlyConcat(SetsGate, kept, [c]);
    OnlyConcat(SetsGate, acted, [c]);
    if SetsGate(c) { OnlyNone(SetsGate, kept); }
    Rearranged(Only(SetsGate, acted), Only(SetsGate, kept), Only(SetsGate, [c]), Only(SetsGate, rest));
  }

  lemma Rearranged(a: seq<Command>, b: seq<Command>, c: seq<Command>, d: seq<Command>)
    requires b == [] || c == []
    ensures a + (b + c + d) == (a + c) + (b + d)
  {
  }

  lemma ReadBehind(before: seq<Command>, kept: seq<Command>, mid: seq<Command>, after: seq<Command>,
                   acted: seq<Command>, more: seq<Command>)
    requires Conserved(before, kept + mid, acted) && Conserved(mid, after, more)
    requires forall k :: k in kept ==> !SetsGate(k)
    ensures Conserved(before, kept + after, acted + more)
  {
    SubsequenceBehind(kept, after, mid);
    SubsequenceTransitive(kept + after, kept + mid, before);
    TallyBehind(before, kept, mid, after, acted, more);
    GatesBehind(before, kept, mid, after, acted, more);
  }

  lemma TallyBehind(before: seq<Command>, kept: seq<Command>, mid: seq<Command>, after: seq<Command>,
                    acted: seq<Command>, more: seq<Command>)
    requires Tally(before, kept + mid, acted) && Tally(mid, after, more)
    ensures Tally(before, kept + after, acted + more)
  {
    assert multiset(acted + more) == multiset(acted) + multiset(more);
    assert multiset(kept + mid) == multiset(kept) + multiset(mid);
    assert multiset(kept + after) == multiset(kept) + multiset(after);
  }

  lemma GatesBehind(before: seq<Command>, kept: seq<Command>, mid: seq<Command>, after: seq<Command>,
                    acted: seq<Command>, more: seq<Command>)
    requires GatesInOrder(before, kept + mid, acted) && GatesInOrder(mid, after, more)
    requires forall k :: k in kept ==> !SetsGate(k)
    ensures GatesInOrder(before, kept + after, acted + more)
  {
    OnlyConcat(SetsGate, kept, mid);
    OnlyConcat(SetsGate, kept, after);
    OnlyConcat(SetsGate, acted, more);
    OnlyNone(SetsGate, kept);
    Associates(Only(SetsGate, acted), Only(SetsGate, more), Only(SetsGate, after));
  }

  predicate Ordinary(c: Command) {
    !Control(c)
  }

  lemma {:induction false} OnlyOfSubsequence(p: Command -> bool, kept: seq<Command>, all: seq<Command>)
    requires Subsequence(kept, all)
    ensures Subsequence(Only(p, kept), Only(p, all))
    decreases |all|
  {
    if kept != [] {
      if kept[0] == all[0] && Subsequence(kept[1..], all[1..]) {
        OnlyOfSubsequence(p, kept[1..], all[1..]);
        SubsequenceBehind(if p(all[0]) then [all[0]] else [], Only(p, kept[1..]), Only(p, all[1..]));
      } else {
        OnlyOfSubsequence(p, kept, all[1..]);
        SubsequenceOfLonger(Only(p, kept), if p(all[0]) then [all[0]] else [], Only(p, all[1..]));
      }
    }
  }

  lemma {:induction false} OnlyCounts(p: Command -> bool, s: seq<Command>, c: Command)
    ensures multiset(Only(p, s))[c] == if p(c) then multiset(s)[c] else 0
  {
    if s != [] {
      OnlyCounts(p, s[1..], c);
      assert s == [s[0]] + s[1..];
    }
  }

  lemma {:induction false} FullSubsequence(kept: seq<Command>, all: seq<Command>)
    requires Subsequence(kept, all)
    ensures |kept| <= |all|
    ensures |kept| == |all| ==> kept == all
    decreases |all|
  {
    if kept != [] {
      if kept[0] == all[0] && Subsequence(kept[1..], all[1..]) {
        FullSubsequence(kept[1..], all[1..]);
        assert kept == [kept[0]] + kept[1..] && all == [all[0]] + all[1..];
      } else {
        FullSubsequence(kept, all[1..]);
      }
    }
  }

  // No ordinary command is lost, repeated or moved past another.
  lemma OrdinaryUntouched(before: seq<Command>, after: seq<Command>, acted: seq<Command>)
    requires Conserved(before, after, acted)
    ensures Only(Ordinary, after) == Only(Ordinary, before)
  {
    Untouched(Ordinary, before, after, acted);
  }

  lemma Untouched(p: Command -> bool, before: seq<Command>, after: seq<Command>, acted: seq<Command>)
    requires Conserved(before, after, acted) && forall c :: c in acted ==> !p(c)
    ensures Only(p, after) == Only(p, before)
  {
    var a, b := Only(p, after), Only(p, before);
    OnlyOfSubsequence(p, after, before);
    forall c ensures multiset(a)[c] == multiset(b)[c] {
      OnlyCounts(p, after, c);
      OnlyCounts(p, before, c);
      if p(c) { assert c !in acted; }
    }
    assert multiset(a) == multiset(b);
    assert |a| == |multiset(a)| && |b| == |multiset(b)|;
    FullSubsequence(a, b);
  }

  // ----- the bus -----

  function Flat(batches: seq<seq<Command>>): seq<Command> {
    if batches == [] then [] else batches[0] + Flat(batches[1..])
  }

  class QueueCommandBus {
    var queue: seq<Command>
    var deferred: seq<Command>
    // What other threads publish from now on: one batch, possibly empty,
    // before each read.
    var arrivals: seq<seq<Command>>

    constructor (arrivals: seq<seq<Command>>)
      ensures Waiting() == [] && this.arrivals == arrivals
    {
      queue, deferred, this.arrivals := [], [], arrivals;
    }

    ghost function Waiting(): seq<Command>
      reads this
    {
      deferred + queue
    }

    // Everything there is to read, now or later.
    ghost function Stream(): seq<Command>
      reads this
    {
      Waiting() + Flat(arrivals)
    }

    ghost function Left(): nat
      reads this
    {
      |Stream()| + |arrivals|
    }

    method Publish(c: Command)
      modifies this`queue
      ensures Waiting() == old(Waiting()) + [c]
    {
      queue := queue + [c];
    }

    method Arrive()
      modifies this`queue, this`arrivals
      ensures Stream() == old(Stream())
      ensures arrivals == if old(arrivals) == [] then [] else old(arrivals)[1..]
    {
      if arrivals != [] {
        assert Stream() == deferred + (queue + arrivals[0]) + Flat(arrivals[1..]);
        queue, arrivals := queue + arrivals[0], arrivals[1..];
      }
    }

    // The next command of the stream, or nothing when nothing has arrived.
    method GetNowait() returns (command: Option<Command>)
      modifies this
      ensures command.None? ==> Stream() == old(Stream()) && Waiting() == []
      ensures command.Some? ==> old(Stream()) == [command.value] + Stream()
      ensures arrivals == if old(arrivals) == [] then [] else old(arrivals)[1..]
    {
      Arrive();
      if deferred != [] {
        assert Stream() == [deferred[0]] + (deferred[1..] + queue + Flat(arrivals));
        command := Some(deferred[0]);
        deferred := deferred[1..];
      } else if queue != [] {
        assert Stream() == [queue[0]] + (deferred + queue[1..] + Flat(arrivals));
        command := Some(queue[0]);
        queue := queue[1..];
      } else {
        command := None;
      }
    }

    // One wait of up to the timeout: a batch arrives meanwhile, or nothing.
    method Get() returns (command: Option<Command>)
      modifies this
      ensures command.None? ==> Stream() == old(Stream()) && Waiting() == []
      ensures command.Some? ==> old(Stream()) == [command.value] + Stream()
      ensures arrivals == if old(arrivals) == [] then [] else old(arrivals)[1..]
    {
      command := GetNowait();
    }

    method Defer(commands: seq<Command>)
      modifies this`deferred
      ensures Waiting() == commands + old(Waiting()) && Stream() == commands + old(Stream())
      ensures Left() == |commands| + old(Left())
    {
      assert Stream() == deferred + queue + Flat(arrivals);
      deferred := commands + deferred;
      assert Stream() == commands + old(deferred + queue + Flat(arrivals));
    }
  }

  // ----- the signals -----

  // What ends a pause, and what a pause leaves on the bus.
  predicate Ends(c: Command) {
    c.kind.Resume? || c.kind.Abort?
  }

  predicate Stays(c: Command) {
    !SetsGate(c)
  }

  // A pause over this stream ends at its k-th command, the first that ends one:
  // the gate settings in front of it were acted on, all else there is put back.
  ghost predicate EndsAt(stream: seq<Command>, k: nat, outcome: Outcome, acted: seq<Command>, after: seq<Command>) {
    && k < |stream| && Ends(stream[k]) && (forall j :: 0 <= j < k ==> !Ends(stream[j]))
    && outcome == (if stream[k].kind.Resume? then Proceed else Stop)
    && acted == Only(SetsGate, stream[..k]) + [stream[k]] && after == Only(Stays, stream[..k]) + stream[k + 1..]
  }

  // Or it outlasts the stream, which then is held back but for the gate settings.
  ghost predicate PauseOver(stream: seq<Command>, outcome: Outcome, held: seq<Command>, acted: seq<Command>, after: seq<Command>) {
    if outcome.StillWaiting? then
      (forall c :: c in stream ==> !Ends(c)) && held == Only(Stays, stream) && acted == Only(SetsGate, stream) && after == []
    else held == [] && exists k: nat :: EndsAt(stream, k, outcome, acted, after)
  }

  lemma EndReached(stream: seq<Command>, read: seq<Command>, c: Command, rest: seq<Command>, outcome: Outcome)
    requires stream == read + [c] + rest && Ends(c) && forall d :: d in read ==> !Ends(d)
    requires outcome == if c.kind.Resume? then Proceed else Stop
    ensures PauseOver(stream, outcome, [], Only(SetsGate, read) + [c], Only(Stays, read) + rest)
  {
    assert stream[..|read|] == read && stream[|read| + 1..] == rest;
    assert forall j :: 0 <= j < |read| ==> stream[j] in read;
    assert EndsAt(stream, |read|, outcome, Only(SetsGate, read) + [c], Only(Stays, read) + rest);
  }

  lemma OnlyGrows(mode: Option<GateMode>, read: seq<Command>, c: Command)
    ensures SetsGate(c) ==>
              && Only(Stays, read + [c]) == Only(Stays, read) && Only(SetsGate, read + [c]) == Only(SetsGate, read) + [c]
              && ModeAfter(mode, Only(SetsGate, read) + [c]) == c.gateMode
    ensures !SetsGate(c) ==>
              && Only(Stays, read + [c]) == Only(Stays, read) + [c] && Only(SetsGate, read + [c]) == Only(SetsGate, read)
              && ModeAfter(mode, Only(SetsGate, read) + [c]) == ModeAfter(mode, Only(SetsGate, read))
  {
    OnlyConcat(Stays, read, [c]);
    OnlyConcat(SetsGate, read, [c]);
    ModeAfterConcat(mode, Only(SetsGate, read), [c]);
    assert Only(Stays, [c]) == if SetsGate(c) then [] else [c];
    assert Only(SetsGate, [c]) == if SetsGate(c) then [c] else [];
  }

  // While paused: what has been read so far ends no pause; of it, everything
  // but the gate settings is held back.
  ghost predicate PauseRead(stream: seq<Command>, read: seq<Command>, deferred: seq<Command>, was: Option<GateMode>, mode: Option<GateMode>, rest: seq<Command>) {
    && stream == read + rest && (forall c :: c in read ==> !Ends(c))
    && deferred == Only(Stays, read) && mode == ModeAfter(was, Only(SetsGate, read))
  }

  lemma OneMoreRead(stream: seq<Command>, read: seq<Command>, deferred: seq<Command>, was: Option<GateMode>, mode: Option<GateMode>, c: Command, rest: seq<Command>)
    requires PauseRead(stream, read, deferred, was, mode, [c] + rest)
    ensures stream == read + [c] + rest && (forall d :: d in read ==> !Ends(d)) && deferred == Only(Stays, read)
    ensures Ends(c) ==> ModeAfter(was, Only(SetsGate, read) + [c]) == mode
    ensures !Ends(c) && SetsGate(c) ==> PauseRead(stream, read + [c], deferred, was, c.gateMode, rest)
    ensures !Ends(c) && !SetsGate(c) ==> PauseRead(stream, read + [c], deferred + [c], was, mode, rest)
  {
    Associates(read, [c], rest);
    OnlyGrows(was, read, c);
    assert Ends(c) ==> !SetsGate(c);
  }

  lemma NoEndRead(stream: seq<Command>, read: seq<Command>, deferred: seq<Command>, was: Option<GateMode>, mode: Option<GateMode>)
    requires PauseRead(stream, read, deferred, was, mode, [])
    ensures PauseOver(stream, StillWaiting, deferred, Only(SetsGate, read), []) && mode == ModeAfter(was, Only(SetsGate, read))
  {
    assert read + [] == read;
  }

  // Taking the gate settings out keeps everything else.
  lemma GatesTaken(read: seq<Command>, rest: seq<Command>)
    ensures Conserved(read + rest, Only(Stays, read) + rest, Only(SetsGate, read))
  {
    StaysInOrder(read, rest);
    StaysCounted(read, rest);
    OnlyConcat(SetsGate, read, rest);
    OnlyConcat(SetsGate, Only(Stays, read), rest);
    OnlyStays(read);
    OnlyNone(SetsGate, Only(Stays, read));
    OnlyTwice(SetsGate, read);
    assert [] + Only(SetsGate, rest) == Only(SetsGate, rest);
  }

  lemma {:induction false} StaysInOrder(read: seq<Command>, rest: seq<Command>)
    ensures Subsequence(Only(Stays, read) + rest, read + rest)
  {
    if read == [] {
      assert [] + rest == rest;
      SubsequenceOfItself(rest);
    } else {
      var c, tail, kept := read[0], read[1..], Only(Stays, read[1..]);
      StaysInOrder(tail, rest);
      assert (read + rest)[1..] == tail + rest;
      if Stays(c) {
        assert Only(Stays, read) == [c] + kept;
        assert ([c] + kept + rest)[1..] == kept + rest;
      } else {
        assert Only(Stays, read) == kept;
      }
    }
  }

  lemma StaysCounted(read: seq<Command>, rest: seq<Command>)
    ensures Tally(read + rest, Only(Stays, read) + rest, Only(SetsGate, read))
  {
    EveryOneCounted(read);
    assert multiset(read + rest) == multiset(read) + multiset(rest);
    assert multiset(Only(Stays, read) + rest) == multiset(Only(Stays, read)) + multiset(rest);
    forall c | c in Only(SetsGate, read) ensures Control(c) {
      OnlyCounts(SetsGate, read, c);
    }
  }

  lemma EveryOneCounted(read: seq<Command>)
    ensures multiset(read) == multiset(Only(Stays, read)) + multiset(Only(SetsGate, read))
  {
    forall c ensures multiset(read)[c] == multiset(Only(Stays, read))[c] + multiset(Only(SetsGate, read))[c] {
      OnlyCounts(Stays, read, c);
      OnlyCounts(SetsGate, read, c);
    }
  }

  lemma {:induction false} OnlyTwice(p: Command -> bool, s: seq<Command>)
    ensures Only(p, Only(p, s)) == Only(p, s)
  {
    if s != [] {
      OnlyTwice(p, s[1..]);
      if p(s[0]) {
        assert Only(p, s) == [s[0]] + Only(p, s[1..]);
        assert Only(p, s)[1..] == Only(p, s[1..]);
      } else {
        assert Only(p, s) == Only(p, s[1..]);
      }
    }
  }

  lemma {:induction false} OnlyStays(s: seq<Command>)
    ensures forall c :: c in Only(Stays, s) ==> c in s && !SetsGate(c)
  {
    if s != [] { OnlyStays(s[1..]); }
  }

  lemma {:induction false} GatesAreNoSignals(s: seq<Command>)
    ensures Number(Pause, Only(SetsGate, s)) == Number(Resume, Only(SetsGate, s)) == Number(Abort, Only(SetsGate, s)) == 0
  {
    if s != [] {
      GatesAreNoSignals(s[1..]);
      assert SetsGate(s[0]) ==> Only(SetsGate, s)[1..] == Only(SetsGate, s[1..]);
      assert !SetsGate(s[0]) ==> Only(SetsGate, s) == Only(SetsGate, s[1..]);
    }
  }

  // A pause loses nothing, and takes one resume, one abort, or waits.
  lemma PauseConserves(stream: seq<Command>, outcome: Outcome, held: seq<Command>, acted: seq<Command>, after: seq<Command>)
    requires PauseOver(stream, outcome, held, acted, after)
    ensures Conserved(stream, held + after, acted)
    ensures forall c :: c in held ==> c.kind == Pause || !Control(c)
    ensures Number(Pause, acted) == 0
    ensures Number(Resume, acted) == if outcome.Proceed? then 1 else 0
    ensures Number(Abort, acted) == if outcome.Stop? then 1 else 0
    ensures outcome.Stop? ==> acted != [] && FirstAbort(stream, acted[|acted| - 1])
  {
    if outcome.StillWaiting? {
      GatesTaken(stream, []);
      assert stream + [] == stream;
      GatesAreNoSignals(stream);
      OnlyStays(stream);
    } else {
      var k: nat :| EndsAt(stream, k, outcome, acted, after);
      EndConserves(stream, k, outcome, acted, after);
      assert [] + after == after;
    }
  }

  lemma EndConserves(stream: seq<Command>, k: nat, outcome: Outcome, acted: seq<Command>, after: seq<Command>)
    requires EndsAt(stream, k, outcome, acted, after)
    ensures Conserved(stream, after, acted)
    ensures Number(Pause, acted) == 0 && acted[|acted| - 1] == stream[k]
    ensures Number(Resume, acted) == if outcome.Proceed? then 1 else 0
    ensures Number(Abort, acted) == if outcome.Stop? then 1 else 0
  {
    var front, c, rest := stream[..k], stream[k], stream[k + 1..];
    assert stream == front + ([c] + rest);
    GatesTaken(front, [c] + rest);
    assert Only(Stays, front) + ([c] + rest) == Only(Stays, front) + [c] + rest;
    OnlyStays(front);
    OneActedOn(stream, Only(Stays, front), c, rest, Only(SetsGate, front));
    GatesAreNoSignals(front);
    NumberConcat(Pause, Only(SetsGate, front), [c]);
    NumberConcat(Resume, Only(SetsGate, front), [c]);
    NumberConcat(Abort, Only(SetsGate, front), [c]);
  }

  predicate IsAbort(c: Command) {
    c.kind.Abort?
  }

  lemma {:induction false} FirstIsHead(stream: seq<Command>, c: Command)
    ensures FirstAbort(stream, c) <==> Only(IsAbort, stream) != [] && Only(IsAbort, stream)[0] == c
  {
    if stream != [] {
      FirstIsHead(stream[1..], c);
      if IsAbort(stream[0]) {
        assert Only(IsAbort, stream)[0] == stream[0];
      } else {
        assert Only(IsAbort, stream) == Only(IsAbort, stream[1..]);
        FirstBehind(stream, c);
      }
    }
  }

  lemma FirstBehind(stream: seq<Command>, c: Command)
    requires stream != [] && !stream[0].kind.Abort?
    ensures FirstAbort(stream, c) <==> FirstAbort(stream[1..], c)
  {
    if FirstAbort(stream, c) {
      var k :| 0 <= k < |stream| && stream[k] == c && forall j :: 0 <= j < k ==> !stream[j].kind.Abort?;
      assert stream[1..][k - 1] == c && forall j :: 0 <= j < k - 1 ==> stream[1..][j] == stream[j + 1];
    }
    if FirstAbort(stream[1..], c) {
      var k :| 0 <= k < |stream[1..]| && stream[1..][k] == c && forall j :: 0 <= j < k ==> !stream[1..][j].kind.Abort?;
      assert stream[k + 1] == c && forall j :: 1 <= j < k + 1 ==> stream[j] == stream[1..][j - 1];
    }
  }

  lemma {:induction false} NoneNumbered(s: seq<Command>)
    requires Number(Abort, s) == 0
    ensures forall c :: c in s ==> !IsAbort(c)
  {
    if s != [] { NoneNumbered(s[1..]); }
  }

  // Behind commands that are no abort, the first there is the first of all,
  // as long as none has been acted on.
  lemma FirstThere(before: seq<Command>, kept: seq<Command>, rest: seq<Command>, acted: seq<Command>, c: Command)
    requires Conserved(before, kept + rest, acted) && Number(Abort, acted) == 0
    requires (forall k :: k in kept ==> !IsAbort(k)) && FirstAbort(rest, c)
    ensures FirstAbort(before, c)
  {
    NoneNumbered(acted);
    Untouched(IsAbort, before, kept + rest, acted);
    OnlyConcat(IsAbort, kept, rest);
    OnlyNone(IsAbort, kept);
    assert [] + Only(IsAbort, rest) == Only(IsAbort, rest);
    FirstIsHead(rest, c);
    FirstIsHead(before, c);
  }

  lemma FirstHere(before: seq<Command>, kept: seq<Command>, c: Command, rest: seq<Command>, acted: seq<Command>)
    requires Conserved(before, kept + [c] + rest, acted) && Number(Abort, acted) == 0
    requires (forall k :: k in kept ==> !IsAbort(k)) && IsAbort(c)
    ensures FirstAbort(before, c)
  {
    Associates(kept, [c], rest);
    assert ([c] + rest)[0] == c;
    FirstThere(before, kept, [c] + rest, acted, c);
  }

  // The first abort of a stream.
  ghost predicate FirstAbort(stream: seq<Command>, c: Command) {
    c.kind.Abort? && exists k :: 0 <= k < |stream| && stream[k] == c && forall j :: 0 <= j < k ==> !stream[j].kind.Abort?
  }

  // A wait for the human may outlast the commands that ever arrive.
  datatype Outcome = Proceed | Stop | StillWaiting

  class SignalController {
    const bus: QueueCommandBus
    var gateMode: Option<GateMode>
    var block: Option<string>

    constructor (bus: QueueCommandBus)
      ensures this.bus == bus && gateMode == None && block == None
    {
      this.bus, gateMode, block := bus, None, None;
    }

    method Blocked(command: Command)
      modifies this`block
      ensures block == Some(if command.reason != "" then command.reason else "aborted")
    {
      block := Some(if command.reason != "" then command.reason else "aborted");
    }

    // What one command does while the mission is paused.
    method PausedSignal(c: Command, deferred: seq<Command>, ghost stream: seq<Command>, ghost read: seq<Command>, ghost was: Option<GateMode>)
      returns (outcome: Outcome, kept: seq<Command>, ghost acted: seq<Command>)
      requires PauseRead(stream, read, deferred, was, gateMode, [c] + bus.Stream())
      modifies this, bus
      ensures outcome.StillWaiting? ==> PauseRead(stream, read + [c], kept, was, gateMode, bus.Stream())
      ensures !outcome.StillWaiting? ==> PauseOver(stream, outcome, [], acted, bus.Stream()) && gateMode == ModeAfter(was, acted)
      ensures outcome.Stop? ==> acted != [] && BlockedBy(acted[|acted| - 1])
      ensures !outcome.Stop? ==> block == old(block)
      ensures bus.arrivals == old(bus.arrivals)
      ensures bus.Left() <= old(bus.Left()) + |deferred|
      ensures outcome.StillWaiting? ==> bus.Left() == old(bus.Left()) && |kept| <= |deferred| + 1
    {
      outcome, kept, acted := StillWaiting, deferred, [];
      OneMoreRead(stream, read, deferred, was, gateMode, c, bus.Stream());
      if c.kind == Resume || c.kind == Abort {
        if c.kind == Abort {
          Blocked(c);
        }
        outcome, acted := if c.kind == Resume then Proceed else Stop, Only(SetsGate, read) + [c];
        EndReached(stream, read, c, bus.Stream(), outcome);
        bus.Defer(deferred);
        assert acted[|acted| - 1] == c;
      } else if c.kind == Gate && c.gateMode.Some? {
        gateMode := c.gateMode;
      } else {
        kept := deferred + [c];
      }
    }

    // Waits for the first /resume or /abort of the stream, acts on the gate
    // settings in front of it, and puts all else back.  `held` is what the loop
    // still holds in its own list, empty unless it waits for ever.
    method WaitResumeOrAbort() returns (outcome: Outcome, ghost held: seq<Command>, ghost acted: seq<Command>)
      modifies this, bus
      ensures PauseOver(old(bus.Stream()), outcome, held, acted, bus.Stream())
      ensures gateMode == ModeAfter(old(gateMode), acted)
      ensures outcome.Stop? ==> acted != [] && BlockedBy(acted[|acted| - 1])
      ensures !outcome.Stop? ==> block == old(block)
      ensures bus.Left() <= old(bus.Left())
    {
      ghost var stream, was, before := bus.Stream(), gateMode, bus.Left();
      var deferred: seq<Command> := [];
      ghost var read: seq<Command> := [];
      while true
        invariant PauseRead(stream, read, deferred, was, gateMode, bus.Stream())
        invariant block == old(block)
        invariant bus.Left() + |deferred| <= before
        decreases bus.Left()
      {
        var command := bus.Get();
        if command.None? {
          if bus.arrivals == [] {
            NoEndRead(stream, read, deferred, was, gateMode);
            return StillWaiting, deferred, Only(SetsGate, read);
          }
        } else {
          outcome, deferred, acted := PausedSignal(command.value, deferred, stream, read, was);
          if !outcome.StillWaiting? {
            held := [];
            return;
          }
          read := read + [command.value];
        }
      }
    }

    // A pause, with the commands `deferred` held back in front of it.
    method PauseBehind(ghost before: seq<Command>, deferred: seq<Command>, ghost mode: Option<GateMode>, ghost soFar: seq<Command>)
      returns (outcome: Outcome, ghost held: seq<Command>, ghost acted: seq<Command>)
      requires Conserved(before, deferred + bus.Stream(), soFar) && gateMode == ModeAfter(mode, soFar)
      requires (forall c :: c in deferred ==> !SetsGate(c) && !IsAbort(c)) && Number(Abort, soFar) == 0
      modifies this, bus
      ensures Conserved(before, held + bus.Stream(), acted) && gateMode == ModeAfter(mode, acted)
      ensures !outcome.StillWaiting? ==> held == deferred
      ensures outcome.StillWaiting? ==> bus.Stream() == []
      ensures outcome.StillWaiting? ==> WaitsBehind(deferred, held)
      ensures Number(Pause, acted) == Number(Pause, soFar)
      ensures Number(Resume, acted) == Number(Resume, soFar) + if outcome.Proceed? then 1 else 0
      ensures Number(Abort, acted) == if outcome.Stop? then 1 else 0
      ensures outcome.Stop? ==> acted != [] && FirstAbort(before, acted[|acted| - 1]) && BlockedBy(acted[|acted| - 1])
      ensures !outcome.Stop? ==> block == old(block)
      ensures bus.Left() <= old(bus.Left())
    {
      ghost var mid := bus.Stream();
      ghost var inner, more;
      outcome, inner, more := WaitResumeOrAbort();
      held, acted := deferred + inner, soFar + more;
      PauseJoins(before, deferred, mid, soFar, mode, outcome, inner, more, bus.Stream());
    }

    ghost predicate BlockedBy(c: Command)
      reads this
    {
      block == Some(if c.reason != "" then c.reason else "aborted")
    }

    // Between two reads: `kept` is held back, `acted` has been acted on.
    ghost predicate Checking(before: seq<Command>, mode: Option<GateMode>, kept: seq<Command>, acted: seq<Command>)
      reads this, bus
    {
      && Conserved(before, kept + bus.Stream(), acted) && gateMode == ModeAfter(mode, acted)
      && (forall c :: c in kept ==> c.kind == Resume || !Control(c))
      && Number(Pause, acted) == Number(Resume, acted) && Number(Abort, acted) == 0
    }

    ghost predicate Aborted(before: seq<Command>, acted: seq<Command>)
      reads this
    {
      && Number(Abort, acted) == 1 && Number(Pause, acted) <= Number(Resume, acted) + 1
      && acted != [] && FirstAbort(before, acted[|acted| - 1]) && BlockedBy(acted[|acted| - 1])
    }

    // What one command does.
    method Signal(c: Command, deferred: seq<Command>, ghost before: seq<Command>, ghost mode: Option<GateMode>, ghost soFar: seq<Command>)
      returns (outcome: Outcome, kept: seq<Command>, ghost held: seq<Command>, ghost acted: seq<Command>)
      requires Conserved(before, deferred + [c] + bus.Stream(), soFar) && gateMode == ModeAfter(mode, soFar)
      requires forall k :: k in deferred ==> k.kind == Resume || !Control(k)
      requires Number(Pause, soFar) == Number(Resume, soFar) && Number(Abort, soFar) == 0
      modifies this, bus
      ensures Conserved(before, held + bus.Stream(), acted) && gateMode == ModeAfter(mode, acted)
      ensures !outcome.StillWaiting? ==> held == kept
      ensures outcome.StillWaiting? ==> bus.Stream() == []
      ensures outcome.Proceed? ==> forall k :: k in kept ==> k.kind == Resume || !Control(k)
      ensures outcome.Proceed? ==> Number(Pause, acted) == Number(Resume, acted) && Number(Abort, acted) == 0
      ensures outcome.Stop? ==> Aborted(before, acted)
      ensures outcome.StillWaiting? ==> Number(Pause, acted) == Number(Resume, acted) + 1 && Number(Abort, acted) == 0
      ensures outcome.StillWaiting? ==> NotPaused(deferred) && WaitsBehind(deferred, held)
      ensures !outcome.Stop? ==> block == old(block)
      ensures bus.Left() <= old(bus.Left())
    {
      outcome, kept, held, acted := Proceed, deferred, deferred, soFar;
      if c.kind == Abort {
        Acted(before, deferred, c, bus.Stream(), mode, soFar);
        FirstHere(before, deferred, c, bus.Stream(), soFar);
        acted := soFar + [c];
        Blocked(c);
        outcome := Stop;
      } else if c.kind == Pause {
        Acted(before, deferred, c, bus.Stream(), mode, soFar);
        outcome, held, acted := PauseBehind(before, deferred, mode, soFar + [c]);
      } else if c.kind == Gate && c.gateMode.Some? {
        Acted(before, deferred, c, bus.Stream(), mode, soFar);
        acted := soFar + [c];
        gateMode := c.gateMode;
      } else {
        kept := deferred + [c];
        held := kept;
      }
    }

    // Acts on every signal there is. `Proceed` leaves none of them behind;
    // `Stop` is the first /abort taken, with whatever came after it unread; only
    // a pause that nothing ends waits for ever.
    method CheckSignals() returns (outcome: Outcome, ghost held: seq<Command>, ghost acted: seq<Command>)
      modifies this, bus
      ensures Conserved(old(bus.Stream()), held + bus.Stream(), acted)
      ensures !outcome.StillWaiting? ==> held == []
      ensures outcome.StillWaiting? ==> bus.Stream() == []
      ensures gateMode == ModeAfter(old(gateMode), acted)
      ensures outcome.Proceed? ==> forall c :: c in bus.Waiting() ==> c.kind == Resume || !Control(c)
      ensures outcome.Proceed? ==> Number(Pause, acted) == Number(Resume, acted) && Number(Abort, acted) == 0
      ensures outcome.Stop? ==> Aborted(old(bus.Stream()), acted)
      ensures outcome.StillWaiting? ==> Number(Pause, acted) == Number(Resume, acted) + 1 && Number(Abort, acted) == 0
      ensures outcome.StillWaiting? ==> exists kept :: NotPaused(kept) && WaitsBehind(kept, held)
      ensures !outcome.Stop? ==> block == old(block)
    {
      var deferred: seq<Command> := [];
      acted := [];
      NothingRead(bus.Stream());
      while true
        invariant Checking(old(bus.Stream()), old(gateMode), deferred, acted)
        invariant block == old(block)
        decreases bus.Left()
      {
        ghost var stream := bus.Stream();
        var command := bus.GetNowait();
        if command.None? {
          break;
        }
        HeadTaken(deferred, stream, command.value, bus.Stream());
        outcome, deferred, held, acted := Signal(command.value, deferred, old(bus.Stream()), old(gateMode), acted);
        if outcome.StillWaiting? {
          return;
        }
        if outcome.Stop? {
          PutBack(deferred);
          return Stop, [], acted;
        }
      }
      PutBack(deferred);
      return Proceed, [], acted;
    }

    method PutBack(deferred: seq<Command>)
      modifies bus`deferred
      ensures bus.Waiting() == deferred + old(bus.Waiting()) && [] + bus.Stream() == deferred + old(bus.Stream())
    {
      bus.Defer(deferred);
      assert [] + bus.Stream() == bus.Stream();
    }
  }

  // What a wait that goes on for ever holds back: the commands in front of the
  // pause, and behind it everything but resumes, aborts and gate settings.
  ghost predicate WaitsBehind(kept: seq<Command>, held: seq<Command>) {
    kept <= held && forall c :: c in held[|kept|..] ==> c.kind == Pause || !Control(c)
  }

  // Commands read outside a pause: resumes are held back like ordinary ones.
  ghost predicate NotPaused(kept: seq<Command>) {
    forall c :: c in kept ==> c.kind == Resume || !Control(c)
  }

  // A pause behind commands that are held back.
  lemma PauseJoins(before: seq<Command>, kept: seq<Command>, mid: seq<Command>, soFar: seq<Command>, mode: Option<GateMode>,
                   outcome: Outcome, inner: seq<Command>, more: seq<Command>, after: seq<Command>)
    requires Conserved(before, kept + mid, soFar) && forall c :: c in kept ==> !SetsGate(c) && !IsAbort(c)
    requires Number(Abort, soFar) == 0
    requires PauseOver(mid, outcome, inner, more, after)
    ensures Conserved(before, kept + inner + after, soFar + more)
    ensures ModeAfter(mode, soFar + more) == ModeAfter(ModeAfter(mode, soFar), more)
    ensures Number(Pause, soFar + more) == Number(Pause, soFar)
    ensures Number(Resume, soFar + more) == Number(Resume, soFar) + if outcome.Proceed? then 1 else 0
    ensures Number(Abort, soFar + more) == if outcome.Stop? then 1 else 0
    ensures WaitsBehind(kept, kept + inner)
    ensures outcome.Stop? ==> more != [] && (soFar + more)[|soFar + more| - 1] == more[|more| - 1] && FirstAbort(before, more[|more| - 1])
    ensures !outcome.StillWaiting? ==> kept + inner == kept
    ensures outcome.StillWaiting? ==> after == []
  {
    PauseConserves(mid, outcome, inner, more, after);
    ReadBehind(before, kept, mid, inner + after, soFar, more);
    if outcome.Stop? { FirstThere(before, kept, mid, soFar, more[|more| - 1]); }
    ActedMore(mode, soFar, more);
    Associates(kept, inner, after);
  }

  lemma HeadTaken(kept: seq<Command>, stream: seq<Command>, c: Command, rest: seq<Command>)
    requires stream == [c] + rest
    ensures kept + stream == kept + [c] + rest
  {
  }

  lemma Acted(before: seq<Command>, kept: seq<Command>, c: Command, rest: seq<Command>, mode: Option<GateMode>, acted: seq<Command>)
    requires Conserved(before, kept + [c] + rest, acted) && Control(c)
    requires forall k :: k in kept ==> !SetsGate(k)
    ensures Conserved(before, kept + rest, acted + [c])
    ensures ModeAfter(mode, acted + [c]) == if SetsGate(c) then c.gateMode else ModeAfter(mode, acted)
    ensures Number(Pause, acted + [c]) == Number(Pause, acted) + if c.kind == Pause then 1 else 0
    ensures Number(Resume, acted + [c]) == Number(Resume, acted) + if c.kind == Resume then 1 else 0
    ensures Number(Abort, acted + [c]) == Number(Abort, acted) + if c.kind == Abort then 1 else 0
  {
    OneActedOn(before, kept, c, rest, acted);
    ModeAfterConcat(mode, acted, [c]);
    NumberConcat(Pause, acted, [c]);
    NumberConcat(Resume, acted, [c]);
    NumberConcat(Abort, acted, [c]);
  }

  lemma ActedMore(mode: Option<GateMode>, acted: seq<Command>, more: seq<Command>)
    ensures ModeAfter(mode, acted + more) == ModeAfter(ModeAfter(mode, acted), more)
    ensures Number(Pause, acted + more) == Number(Pause, acted) + Number(Pause, more)
    ensures Number(Resume, acted + more) == Number(Resume, acted) + Number(Resume, more)
    ensures Number(Abort, acted + more) == Number(Abort, acted) + Number(Abort, more)
  {
    ModeAfterConcat(mode, acted, more);
    NumberConcat(Pause, acted, more);
    NumberConcat(Resume, acted, more);
    NumberConcat(Abort, acted, more);
  }

  // ----- the approval -----

  predicate Accepted(c: Command) {
    c.kind.Approve? || c.kind.Reject? || c.kind.Abort?
  }

  class ApprovalCoordinator {
    const commands: QueueCommandBus

    constructor (commands: QueueCommandBus)
      ensures this.commands == commands
    {
      this.commands := commands;
    }

    // The first answer is taken out and everything else stays as it was.
    // `None` is a wait that outlasts everything that ever arrives.
    method WaitTyped() returns (answer: Option<Command>, ghost before: seq<Command>)
      modifies commands
      ensures forall c :: c in before ==> !Accepted(c)
      ensures answer.Some? ==> Accepted(answer.value)
      ensures answer.Some? ==> exists rest ::
                old(commands.Stream()) == before + [answer.value] + rest && commands.Stream() == before + rest
      ensures answer.None? ==> commands.Stream() == old(commands.Stream()) == before
    {
      var deferred: seq<Command> := [];
      assert [] + commands.Stream() == commands.Stream();
      while true
        invariant old(commands.Stream()) == deferred + commands.Stream()
        invariant forall c :: c in deferred ==> !Accepted(c)
        decreases commands.Left()
      {
        var command := commands.Get();
        if command.None? {
          if commands.arrivals == [] {
            assert commands.Stream() == [];
            commands.Defer(deferred);
            return None, deferred;
          }
        } else {
          var c := command.value;
          ghost var rest := commands.Stream();
          assert old(commands.Stream()) == deferred + [c] + rest;
          if Accepted(c) {
            commands.Defer(deferred);
            return Some(c), deferred;
          }
          deferred := deferred + [c];
        }
      }
    }
  }

  // The last gate setting counts.
  lemma ModeIsLast(mode: Option<GateMode>, acted: seq<Command>, k: nat)
    requires k < |acted| && SetsGate(acted[k]) && forall j :: k < j < |acted| ==> !SetsGate(acted[j])
    ensures ModeAfter(mode, acted) == acted[k].gateMode
  {
    assert acted == acted[..k] + acted[k..];
    ModeAfterConcat(mode, acted[..k], acted[k..]);
    ModeStays(acted[k].gateMode, acted[k + 1..]);
    assert acted[k..][1..] == acted[k + 1..];
  }

  lemma {:induction false} ModeStays(mode: Option<GateMode>, acted: seq<Command>)
    requires forall c :: c in acted ==> !SetsGate(c)
    ensures ModeAfter(mode, acted) == mode
  {
    if acted != [] { ModeStays(mode, acted[1..]); }
  }
}
