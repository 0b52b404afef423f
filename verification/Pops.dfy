/** What the completions of two sends of one entry leave behind: the entry behind it popped
    unsent, or a byte of the entry itself left out; and nothing is sent again. */
module Pops {
  import opened Wire
  import opened IoContext
  import opened Engine
  import opened Actors
  import opened Delivery
  import opened Sessions
  import opened Fences
  import opened Basics
  import opened Permanence
  import opened Overlap
  import opened Twins

  // ---- The second completion pops the second entry ----

  /** Of the two entries at the front of `b`, the first was sent twice over and the second
      popped as it was, its callback scheduled. */
  predicate Robbed(s: State, b: Store) {
    && |b.deque| > 1 && DequeKnown(b)
    && var first, second, slice := b.deque[0], b.deque[1], MakeBuffer(b.log[b.deque[0]]);
       && s.store.processed == b.processed + [first, second] && second !in s.store.deque
       && first < |s.store.log| && second < |s.store.log| && s.store.log[second] == b.log[second]
       && s.store.log[first].sent == b.log[first].sent + slice + slice
       && (b.log[second].callback ==> Processed(second) in s.reports)
  }

  /** The store after a completion that finishes its entry, or does not. */
  lemma SuccessStore(s: State, f: Flight, n: nat)
    requires f.id < |s.store.log| && DequeKnown(s.store) && s.store.deque != []
    ensures var s', e' := HandleSend(s, f, Sent(n)), AfterSend(s.mode, s.store.log[f.id], f.slice, Sent(n));
            var b := s.store.(log := s.store.log[f.id := e']);
            && s'.store == (if TransferComplete(e') then Pop(b) else b)
            && (TransferComplete(e') && s.store.log[s.store.deque[0]].callback ==>
                  Processed(s.store.deque[0]) in s'.reports)
  {
    hide Io.Await, Offsets, Taken;
  }

  /** The first of the twins runs. */
  lemma FirstRuns(s: State, m: nat, n: nat)
    requires Twinned(s, 0, m, n)
    ensures Known(s) && Enabled(s, Run(CannotOpen)) && Guarded(s, Run(CannotOpen))
    ensures var s1, b := Apply(s, Run(CannotOpen)), s.store;
            var e' := AfterSend(Client, b.log[b.deque[0]], MakeBuffer(b.log[b.deque[0]]), Sent(m));
            var b' := b.(log := b.log[b.deque[0] := e']);
            && Steady(s1) && s1.io.queue != [] && s1.io.queue[0] == s.io.queue[1] && AllClosing(s1.io.queue[1..])
            && s1.store == (if TransferComplete(e') then Pop(b') else b')
  {
    SteadyStep(s);
    var t, q, s1 := s.io.queue[0], s.io.queue[1..], Apply(s, Run(CannotOpen));
    FrontOwes(s.store, t.flight);
    SuccessStore(TakeFront(s), t.flight, m);
    assert s1.io.queue[..|q|][0] == q[0];
    StillClosing(q, s1.io.queue);
    hide HandleSend, Ids, Entries, AfterSend;
  }

  lemma StillClosing(q: seq<Task>, q': seq<Task>)
    requires q != [] && |q| <= |q'| && q'[..|q|] == q && AllClosing(q[1..]) && AllClosing(q'[|q|..])
    ensures AllClosing(q'[1..])
  {
    forall i | 0 <= i < |q'[1..]| ensures Closing(q'[1..][i]) {
      if i + 1 < |q| { assert q'[1..][i] == q'[..|q|][i + 1] == q[1..][i]; }
      else { assert q'[1..][i] == q'[|q|..][i + 1 - |q|]; }
    }
  }

  /** Both twins run. */
  lemma BothRun(s: State, m: nat, n: nat) returns (s1: State, evs: seq<Event>)
    requires Twinned(s, 0, m, n)
    ensures Known(s) && s1 == Apply(s, Run(CannotOpen))
    ensures Known(s1) && s1.io.queue != [] && s1.io.queue[0] == s.io.queue[1]
    ensures Allowed(s, evs) && Reached(s, evs) == Apply(s1, Run(CannotOpen))
    ensures Steady(Reached(s, evs)) && AllClosing(Reached(s, evs).io.queue)
  {
    FirstRuns(s, m, n);
    var ev := Run(CannotOpen);
    s1 := Apply(s, ev);
    SteadyStep(s1);
    var s2 := Apply(s1, ev);
    assert s2.io.queue == s1.io.queue[1..] + s2.io.queue[|s1.io.queue| - 1..];
    assert AllClosing(s2.io.queue);
    hide *;
    AllowedNone(s2);
    AllowedFirst(s1, ev, []);
    AllowedFirst(s, ev, [ev] + []);
    evs := [ev] + ([ev] + []);
  }

  lemma SecondPopped(s: State) returns (evs: seq<Event>)
    requires |s.store.deque| > 1 && DequeKnown(s.store) && Twinned(s, 0, Owed(s.store), Owed(s.store))
    ensures Allowed(s, evs)
    ensures var s' := Reached(s, evs); Robbed(s', s.store) && Steady(s') && AllClosing(s'.io.queue)
  {
    var n := Owed(s.store);
    var s1;
    s1, evs := BothRun(s, n, n);
    FirstRuns(s, n, n);
    hide Allowed, Reached, Steady, Apply, Robbed;
    RobbedTwice(s, s1);
  }

  /** What a send of the whole rest does to its entry. */
  lemma WholeRest(e: Entry)
    requires Waiting(e)
    ensures var e', slice := AfterSend(Client, e, MakeBuffer(e), Sent(RestBytes(e))), MakeBuffer(e);
            TransferComplete(e') && e'.sent == e.sent + slice && e'.callback == e.callback
            && var e2 := AfterSend(Client, e', slice, Sent(RestBytes(e)));
               TransferComplete(e2) && e2.sent == e.sent + slice + slice
  {
  }

  /** The second completion pops whatever is at the front now. */
  lemma RobbedTwice(s: State, s1: State)
    requires |s.store.deque| > 1 && DequeKnown(s.store) && Twinned(s, 0, Owed(s.store), Owed(s.store))
    requires s1.mode == Client && Known(s1) && s1.io.queue != [] && s1.io.queue[0] == s.io.queue[1]
    requires var b := s.store;
             var e' := AfterSend(Client, b.log[b.deque[0]], MakeBuffer(b.log[b.deque[0]]), Sent(Owed(b)));
             var b' := b.(log := b.log[b.deque[0] := e']);
             s1.store == (if TransferComplete(e') then Pop(b') else b')
    ensures Robbed(Apply(s1, Run(CannotOpen)), s.store)
  {
    var t, b := s1.io.queue[0], s.store;
    SecondTwin(s, Owed(b), Owed(b));
    FrontWaits(b);
    WholeRest(b.log[b.deque[0]]);
    RunsCompletion(s1);
    SuccessStore(TakeFront(s1), t.flight, Owed(b));
    assert b.deque[1..][0] == b.deque[1] && b.deque[1..][1..] == b.deque[2..];
    assert b.processed + [b.deque[0]] + [b.deque[1]] == b.processed + [b.deque[0], b.deque[1]];
    assert b.deque[1] !in b.deque[2..];
    hide Twinned, Apply, HandleSend, Steady, AfterSend, Waiting, Finished;
  }

  // ---- Or two completions leave a gap in a single entry ----

  /** The entry at the front of `b` was popped as sent in full, its callback scheduled, although
      its last byte was in neither of the two completions that add up to its length. */
  predicate Gapped(s: State, b: Store) {
    && DequeKnown(b) && b.deque != [] && Owed(b) > 1
    && var i, slice := b.deque[0], MakeBuffer(b.log[b.deque[0]]);
       && s.store.processed == b.processed + [i] && i !in s.store.deque && i < |s.store.log|
       && s.store.log[i].dropped.None? && |s.store.log[i].sent| == |b.log[i].buffer|
       && s.store.log[i].buffer == b.log[i].buffer && |b.log[i].buffer| - 1 !in s.store.log[i].reached
       && s.store.log[i].sent == b.log[i].sent + slice[..1] + slice[..|slice| - 1]
       && (b.log[i].callback ==> Processed(i) in s.reports)
  }

  /** What a first byte and then all but the last do to an entry. */
  lemma OneShort(e: Entry)
    requires Waiting(e) && RestBytes(e) > 1
    ensures var e', slice := AfterSend(Client, e, MakeBuffer(e), Sent(1)), MakeBuffer(e);
            && !TransferComplete(e') && e'.callback == e.callback
            && var e2 := AfterSend(Client, e', slice, Sent(RestBytes(e) - 1));
               && TransferComplete(e2) && e2.sent == e.sent + slice[..1] + slice[..|slice| - 1]
               && |e2.sent| == |e.buffer| && |e.buffer| - 1 !in e2.reached && e2.dropped.None? && e2.buffer == e.buffer
  {
    hide Span;
  }

  lemma GapLeft(s: State) returns (evs: seq<Event>)
    requires s.store.deque != [] && DequeKnown(s.store) && Owed(s.store) > 1 && Twinned(s, 0, 1, Owed(s.store) - 1)
    ensures Allowed(s, evs)
    ensures var s' := Reached(s, evs); Gapped(s', s.store) && Steady(s') && AllClosing(s'.io.queue)
  {
    var s1;
    s1, evs := BothRun(s, 1, Owed(s.store) - 1);
    FirstRuns(s, 1, Owed(s.store) - 1);
    hide Allowed, Reached, Steady, Apply, Gapped;
    SecondCompletes(s, s1);
  }

  lemma SecondCompletes(s: State, s1: State)
    requires s.store.deque != [] && DequeKnown(s.store) && Owed(s.store) > 1 && Twinned(s, 0, 1, Owed(s.store) - 1)
    requires s1.mode == Client && Known(s1) && s1.io.queue != [] && s1.io.queue[0] == s.io.queue[1]
    requires var b := s.store;
             var e' := AfterSend(Client, b.log[b.deque[0]], MakeBuffer(b.log[b.deque[0]]), Sent(1));
             var b' := b.(log := b.log[b.deque[0] := e']);
             s1.store == (if TransferComplete(e') then Pop(b') else b')
    ensures Gapped(Apply(s1, Run(CannotOpen)), s.store)
  {
    var t, b := s1.io.queue[0], s.store;
    var i, e := b.deque[0], b.log[b.deque[0]];
    SecondTwin(s, 1, Owed(b) - 1);
    FrontWaits(b);
    OneShort(e);
    RunsCompletion(s1);
    var e' := AfterSend(Client, e, MakeBuffer(e), Sent(1));
    assert s1.store == b.(log := b.log[i := e']) && DequeKnown(s1.store);
    hide Twinned, Known, Apply, HandleSend, Steady, AfterSend, Waiting, Finished, MakeBuffer, Entries, Gapped, RestBytes,
      TransferComplete;
    SuccessStore(TakeFront(s1), t.flight, Owed(b) - 1);
    GapStore(Apply(s1, Run(CannotOpen)), b, b.log[i := e'],
             AfterSend(Client, e', MakeBuffer(e), Sent(Owed(b) - 1)));
  }

  lemma SecondTwin(s: State, m: nat, n: nat)
    requires Twinned(s, 0, m, n)
    ensures var t := s.io.queue[1];
            && t.SendDone? && t.result == Sent(n) && t.flight.id == s.store.deque[0] < |s.store.log|
            && t.flight.slice == MakeBuffer(s.store.log[t.flight.id])
    ensures Entries(Client, s.store)
  {
    hide MakeBuffer;
  }

  lemma RunsCompletion(s: State)
    requires Known(s) && s.io.queue != [] && s.io.queue[0].SendDone?
    ensures Apply(s, Run(CannotOpen)) == HandleSend(TakeFront(s), s.io.queue[0].flight, s.io.queue[0].result)
  {
  }

  lemma FrontWaits(b: Store)
    requires Entries(Client, b) && b.deque != []
    ensures Owed(b) > 0 && Waiting(b.log[b.deque[0]])
  {
  }

  /** The popped entry is one short. */
  lemma GapStore(s: State, b: Store, log: seq<Entry>, e: Entry)
    requires Entries(Client, b) && b.deque != [] && Owed(b) > 1 && |log| == |b.log|
    requires s.store == Pop(b.(log := log[b.deque[0] := e]))
    requires var was, slice := b.log[b.deque[0]], MakeBuffer(b.log[b.deque[0]]);
             && e.dropped.None? && e.buffer == was.buffer && |e.sent| == |e.buffer| && |e.buffer| - 1 !in e.reached
             && e.sent == was.sent + slice[..1] + slice[..|slice| - 1]
    requires b.log[b.deque[0]].callback ==> Processed(b.deque[0]) in s.reports
    ensures Gapped(s, b)
  {
    assert b.deque[0] !in b.deque[1..];
    hide MakeBuffer, Waiting, Finished;
  }

  // ---- Nothing sends it again ----

  /** No completion of a send of the entry is queued from position `k` on. */
  predicate Faded(q: seq<Task>, i: nat, k: nat) {
    forall j :: k <= j < |q| && q[j].SendDone? ==> q[j].flight.id != i
  }

  /** No send of the entry is pending, nor queued as completed from position `k` on. */
  predicate Fading(s: State, i: nat, k: nat) {
    && Steady(s) && AllClosing(s.io.queue) && i < |s.store.log| && i !in s.store.deque && k <= |s.io.queue|
    && Faded(s.io.queue, i, k)
    && (s.io.socket.Some? ==> forall f <- s.io.socket.value.sends :: f.id != i)
  }

  lemma Cancel<T>(a: seq<T>, b: seq<T>, c: seq<T>)
    requires a + b == a + c
    ensures b == c
  {
    assert b == (a + b)[|a|..] && c == (a + c)[|a|..];
  }

  /** What a handler leaves of the sends: those pending before, and new ones of the deque. */
  lemma Remainder(io: Io, s': State, xs: seq<Flight>) returns (added: seq<Task>)
    requires Enters(io, s', xs) && |io.queue| <= |s'.io.queue| && s'.io.queue[..|io.queue|] == io.queue
    ensures added == s'.io.queue[|io.queue|..]
    ensures forall f <- Landed(added) ::
              (io.socket.Some? && f in io.socket.value.sends) || f.id in s'.store.deque
    ensures s'.io.socket.Some? ==> forall f <- s'.io.socket.value.sends ::
              (io.socket.Some? && f in io.socket.value.sends) || f.id in s'.store.deque
  {
    added := s'.io.queue[|io.queue|..];
    assert s'.io.queue == io.queue + added;
    LandedConcat(io.queue, added);
    var before := if io.socket.Some? then io.socket.value.sends else [];
    var after := if s'.io.socket.Some? then s'.io.socket.value.sends else [];
    Reassociate(Landed(io.queue), Landed(added), after);
    Reassociate(Landed(io.queue), before, xs);
    Cancel(Landed(io.queue), Landed(added) + after, before + xs);
    forall f | f in Landed(added) + after ensures f in before || f.id in s'.store.deque { assert f in before + xs; }
  }

  lemma FadesOn(q: seq<Task>, q': seq<Task>, i: nat, k: nat)
    requires q != [] && |q| - 1 <= |q'| && q'[..|q| - 1] == q[1..] && k > 0
    requires AllClosing(q) && AllClosing(q'[|q| - 1..])
    requires Faded(q, i, k) && forall f <- Landed(q'[|q| - 1..]) :: f.id != i
    ensures AllClosing(q') && Faded(q', i, k - 1)
  {
    var n, added := |q| - 1, q'[|q| - 1..];
    forall j | 0 <= j < |q'| ensures Closing(q'[j]) && (j >= k - 1 && q'[j].SendDone? ==> q'[j].flight.id != i) {
      if j < n {
        assert q'[..n][j] == q[j + 1];
      } else {
        assert added[j - n] == q'[j];
        if q'[j].SendDone? { LandedMember(added, j - n); }
      }
    }
    hide Closing;
  }

  lemma FadingStep(s: State, i: nat, k: nat)
    requires Fading(s, i, k) && k > 0
    ensures Known(s) && Enabled(s, Run(CannotOpen)) && Guarded(s, Run(CannotOpen))
    ensures var s1 := Apply(s, Run(CannotOpen));
            Fading(s1, i, k - 1) && Grown(s.store, s1.store) && s.reports <= s1.reports
  {
    SteadyStep(s);
    FrontGrows(s);
    var s1 := Apply(s, Run(CannotOpen));
    var xs := RunEnters(s, CannotOpen);
    var added := Remainder(TakeFront(s).io, s1, xs);
    assert i !in s1.store.deque;
    FadesOn(s.io.queue, s1.io.queue, i, k);
    hide Apply, Steady, Landed, AllClosing, Faded, Enters, Entries;
  }

  lemma {:induction false} LandedFrom(q: seq<Task>, f: Flight)
    requires f in Landed(q)
    ensures exists j :: 0 <= j < |q| && q[j].SendDone? && q[j].flight == f
  {
    if q[0].SendDone? && q[0].flight == f {
    } else {
      LandedFrom(q[1..], f);
      var j :| 0 <= j < |q[1..]| && q[1..][j].SendDone? && q[1..][j].flight == f;
      assert q[j + 1] == q[1..][j];
    }
  }

  lemma FadedIsGone(s: State, i: nat)
    requires Fading(s, i, 0)
    ensures Gone(s, i)
  {
    forall f <- Landed(s.io.queue) ensures f.id != i { LandedFrom(s.io.queue, f); }
    hide Steady, AllClosing;
  }

  /** The completions that are queued run, and none goes on from its send. */
  lemma Fade(s: State, i: nat, k: nat) returns (evs: seq<Event>)
    requires Fading(s, i, k)
    ensures Allowed(s, evs)
    ensures var s' := Reached(s, evs); Gone(s', i) && Grown(s.store, s'.store) && s.reports <= s'.reports
    decreases k
  {
    if k == 0 {
      FadedIsGone(s, i);
      evs := [];
    } else {
      FadingStep(s, i, k);
      var s1 := Apply(s, Run(CannotOpen));
      hide Apply, Known, Fading, Gone, Grown;
      var rest := Fade(s1, i, k - 1);
      GrownTransitive(s.store, s1.store, Reached(s1, rest).store);
      AllowedFirst(s, Run(CannotOpen), rest);
      evs := [Run(CannotOpen)] + rest;
    }
  }

  /** The connection is lost: every pending send fails. */
  lemma AllFail(s: State) returns (evs: seq<Event>)
    requires Steady(s) && AllClosing(s.io.queue)
    ensures Allowed(s, evs)
    ensures var s' := Reached(s, evs);
            && Steady(s') && AllClosing(s'.io.queue) && s'.store == s.store && s'.reports == s.reports
            && (s'.io.socket.Some? ==> s'.io.socket.value.sends == [])
    decreases if s.io.socket.Some? then |s.io.socket.value.sends| else 0
  {
    if s.io.socket.None? || s.io.socket.value.sends == [] {
      evs := [];
    } else {
      var ev := SendCompletes(Failed(ConnectionError));
      SendLands(s, ev.result);
      var s1 := Apply(s, ev);
      assert AllClosing(s1.io.queue);
      hide Apply, Known, Steady, AllClosing, Guarded;
      var rest := AllFail(s1);
      AllowedFirst(s, ev, rest);
      evs := [ev] + rest;
    }
  }

  /** Sends of an entry that are in play fail, and their completions leave it alone. */
  lemma FailForGood(s: State, i: nat) returns (evs: seq<Event>)
    requires Steady(s) && AllClosing(s.io.queue) && i < |s.store.log| && i !in s.store.deque
    ensures Allowed(s, evs)
    ensures var s' := Reached(s, evs); Gone(s', i) && Grown(s.store, s'.store) && s.reports <= s'.reports
  {
    var first := AllFail(s);
    var s1 := Reached(s, first);
    assert Fading(s1, i, |s1.io.queue|);
    hide Fading, Gone, Grown, Steady, AllClosing, Allowed, Reached;
    var second := Fade(s1, i, |s1.io.queue|);
    AllowedConcat(s, first, second);
    evs := first + second;
  }

  lemma StaysRobbed(s: State, s': State, b: Store)
    requires Grown(s.store, s'.store) && s.reports <= s'.reports
    ensures Robbed(s, b) ==> Robbed(s', b)
  {
    if Robbed(s, b) {
      assert s'.store.log[b.deque[0]] == s.store.log[b.deque[0]];
      assert s'.store.log[b.deque[1]] == s.store.log[b.deque[1]];
    }
    hide MakeBuffer;
  }

  lemma StaysGapped(s: State, s': State, b: Store)
    requires Grown(s.store, s'.store) && s.reports <= s'.reports
    ensures Gapped(s, b) ==> Gapped(s', b)
  {
    if Gapped(s, b) { assert s'.store.log[b.deque[0]] == s.store.log[b.deque[0]]; }
    hide MakeBuffer;
  }

  /** The twins run: of the entries waiting by then, the second is robbed for good. */
  lemma TwinsRob(s: State, k: nat, n: nat) returns (b: Store, evs: seq<Event>)
    requires Twinned(s, k, n, n) && n == Owed(s.store) && Paired(s, k)
    ensures Grown(s.store, b) && Entries(Client, b)
    ensures Allowed(s, evs) && Robbed(Reached(s, evs), b) && Gone(Reached(s, evs), b.deque[1])
    decreases k
  {
    if k == 0 {
      b := s.store;
      var first := SecondPopped(s);
      NothingGrows(b);
      var s1 := Reached(s, first);
      assert b.deque[1] < |s1.store.log| && b.deque[1] !in s1.store.deque;
      hide Robbed, Gone, Grown, Steady, AllClosing, Allowed, Reached;
      var second := FailForGood(s1, b.deque[1]);
      StaysRobbed(s1, Reached(s1, second), b);
      AllowedConcat(s, first, second);
      evs := first + second;
    } else {
      TwinnedStep(s, k, n, n);
      var s1 := Apply(s, Run(CannotOpen));
      hide Apply, Known, Twinned, Robbed, Gone, Grown, Paired;
      var rest;
      b, rest := TwinsRob(s1, k - 1, n);
      GrownTransitive(s.store, s1.store, b);
      AllowedFirst(s, Run(CannotOpen), rest);
      evs := [Run(CannotOpen)] + rest;
    }
  }

  /** Or the last byte of the first is left out for good. */
  lemma TwinsGap(s: State, k: nat, n: nat) returns (b: Store, evs: seq<Event>)
    requires Twinned(s, k, 1, n) && n + 1 == Owed(s.store)
    ensures Grown(s.store, b) && Entries(Client, b)
    ensures Allowed(s, evs) && Gapped(Reached(s, evs), b) && Gone(Reached(s, evs), b.deque[0])
    decreases k
  {
    if k == 0 {
      b := s.store;
      var first := GapLeft(s);
      NothingGrows(b);
      var s1 := Reached(s, first);
      assert b.deque[0] < |s1.store.log| && b.deque[0] !in s1.store.deque;
      hide Gapped, Gone, Grown, Steady, AllClosing, Allowed, Reached;
      var second := FailForGood(s1, b.deque[0]);
      StaysGapped(s1, Reached(s1, second), b);
      AllowedConcat(s, first, second);
      evs := first + second;
    } else {
      TwinnedStep(s, k, 1, n);
      var s1 := Apply(s, Run(CannotOpen));
      hide Apply, Known, Twinned, Gapped, Gone, Grown;
      var rest;
      b, rest := TwinsGap(s1, k - 1, n);
      GrownTransitive(s.store, s1.store, b);
      AllowedFirst(s, Run(CannotOpen), rest);
      evs := [Run(CannotOpen)] + rest;
    }
  }

  lemma TwinnedStep(s: State, k: nat, m: nat, n: nat)
    requires Twinned(s, k, m, n) && k > 0
    ensures Known(s) && Enabled(s, Run(CannotOpen)) && Guarded(s, Run(CannotOpen))
    ensures var s1 := Apply(s, Run(CannotOpen));
            && Twinned(s1, k - 1, m, n) && Grown(s.store, s1.store) && Owed(s1.store) == Owed(s.store)
            && (Paired(s, k) ==> Paired(s1, k - 1))
  {
    SteadyStep(s);
    FrontGrows(s);
    var s1 := Apply(s, Run(CannotOpen));
    GrownOwes(s.store, s1.store);
    TwinsNearer(s.io.queue, s1.io.queue, s.store, s1.store, k, m, n);
    assert Known(s) && Enabled(s, Run(CannotOpen)) && Guarded(s, Run(CannotOpen));
    hide Apply, Known, Steady, Entries, TwinsAt, Grown, Owed, Paired;
    PairedStep(s, s1, k);
  }

  lemma PairedStep(s: State, s1: State, k: nat)
    requires 0 < k <= |s.io.queue| && s.store.deque != []
    requires |s1.store.deque| == |s.store.deque| + (if s.io.queue[0].Push? then 1 else 0)
    requires var q := s.io.queue[1..]; |q| <= |s1.io.queue| && s1.io.queue[..|q|] == q
    ensures Paired(s, k) ==> Paired(s1, k - 1)
  {
    if i :| 1 <= i < k && s.io.queue[i].Push? {
      assert s1.io.queue[i - 1] == s1.io.queue[..|s.io.queue| - 1][i - 1] == s.io.queue[i];
    }
  }
}
