/** What the guard of a connect is for: a connect that breaks it leads to two senders on one
    socket, exactly then, and two senders lose an entry. */
module Overlap {
  import opened Wire
  import opened IoContext
  import opened Engine
  import opened Actors
  import opened Delivery
  import opened Sessions
  import opened Fences
  import opened Basics

  /** Some continuation in which every further connect is guarded puts two sender operations to work. */
  ghost predicate CanDouble(s: State) {
    exists evs :: Allowed(s, evs) && Operations(Reached(s, evs).io, Sender) > 1
  }

  // ---- The second sender ----

  /** A client with a socket, whose positions are known. */
  predicate Connected(s: State) {
    s.mode == Client && s.io.socket.Some? && Ids(s) && Bind !in s.io.queue
  }

  /** Running the handler at the front of such a client, when it is not a close. */
  lemma OneNearer(s: State, n: nat)
    requires Connected(s) && 0 < n <= |s.io.queue| && s.io.queue[0] != Close
    ensures Known(s) && Enabled(s, Run(CannotOpen)) && Guarded(s, Run(CannotOpen))
    ensures var s1 := Apply(s, Run(CannotOpen));
            && Connected(s1) && n - 1 <= |s1.io.queue| && s1.io.queue[..n - 1] == s.io.queue[1..n]
            && (s1.io.ready <==> s.io.ready || RoleOf(s.io.queue[0]) == Starter)
  {
    IdsKnow(s);
    assert s.io.queue[0] in s.io.queue;
    RunKeepsIds(s, CannotOpen);
    RunCounts(s, CannotOpen);
    RunExtends(s, CannotOpen);
    ConnectFindsSocket(TakeFront(s));
    var q, s1 := s.io.queue[1..], Apply(s, Run(CannotOpen));
    hide Ids, HandleConnect, HandlePush, HandleClose, HandleSend, HandleReceive, CheckSendDeadline, AwaitSendEntry,
      HandleConnectDone, HandleBind, Extends;
    var b := Appended(q, s1.io.queue);
    assert s1.io.queue[..n - 1] == q[..n - 1] == s.io.queue[1..n];
    assert forall t <- s1.io.queue :: t in q || t in b;
  }

  lemma ConnectFindsSocket(s: State)
    requires s.io.socket.Some?
    ensures HandleConnect(s, CannotOpen) == s
  {
  }

  /** A breach at the end is one by the connect that is pending: its own completion starts a
      second session. */
  lemma {:induction false} EndBreaches(q: seq<Task>, running: bool)
    requires Fence(q, running, 0) && !Fence(q, running, 1)
    ensures !Fence(q + [ConnectDone(true)], running, 0)
  {
    if q == [] {
      assert [] + [ConnectDone(true)] == [ConnectDone(true)];
    } else {
      assert (q + [ConnectDone(true)])[1..] == q[1..] + [ConnectDone(true)];
      EndBreaches(q[1..], running || RoleOf(q[0]) == Starter);
    }
  }

  /** Running up to a breach doubles the sender. While a session runs, a sender is at work and
      none of its handlers is ahead of the breach. */
  lemma RunToBreach(s: State, n: nat) returns (evs: seq<Event>)
    requires Connected(s) && n <= |s.io.queue| && !Fence(s.io.queue[..n], s.io.ready, 0)
    requires s.io.ready ==> Operations(s.io, Sender) >= 1 && Count(s.io.queue[..n], Sender) == 0
    ensures Allowed(s, evs) && Operations(Reached(s, evs).io, Sender) > 1
    ensures Reached(s, evs).io.ready && forall ev <- evs :: ev == Run(CannotOpen)
    decreases n
  {
    var q := s.io.queue[..n];
    var ev := Run(CannotOpen);
    assert q != [] && q[0] == s.io.queue[0] != Close && q[1..] == s.io.queue[1..n];
    OneNearer(s, n);
    var s1 := Apply(s, ev);
    var rest: seq<Event> := [];
    FrontSenders(s);
    if RoleOf(q[0]) == Starter && (s.io.ready || Count(q[1..], Sender) > 0) {
      PrefixCounts(s.io.queue[1..], n - 1);
      assert s.io.queue[1..][..n - 1] == q[1..];
      assert Allowed(s1, rest) && Reached(s1, rest) == s1;
    } else {
      hide Apply, Connected, Known;
      rest := RunToBreach(s1, n - 1);
    }
    evs := [ev] + rest;
    assert evs[1..] == rest;
  }

  lemma PrefixCounts(q: seq<Task>, n: nat)
    requires n <= |q|
    ensures Count(q[..n], Sender) <= Count(q, Sender)
  {
    assert q == q[..n] + q[n..];
    CountConcat(q[..n], q[n..], Sender);
  }

  /** A starter adds a sender; while a session runs, the other handlers keep them, except those
      of the sender itself. */
  lemma FrontSenders(s: State)
    requires Connected(s) && Known(s) && s.io.queue != [] && s.io.queue[0] != Close
    ensures var t, io' := s.io.queue[0], Apply(s, Run(CannotOpen)).io;
            && (RoleOf(t) == Starter ==>
                  Operations(io', Sender) == Pending(s.io, Sender) + Count(s.io.queue[1..], Sender) + 1)
            && (s.io.ready && RoleOf(t) != Sender && RoleOf(t) != Starter ==>
                  Operations(io', Sender) == Operations(s.io, Sender))
  {
    var t, s' := s.io.queue[0], TakeFront(s);
    assert t in s.io.queue;
    ConnectFindsSocket(s');
    StartSessionAddsSender(s');
    SetInvokerKeepsSenders(s'.io, At(s.now));
    CheckKeepsSenders(s'.io, s.now);
    ReceiveKeepsSenders(s'.io);
    hide StartSession, HandleSend, Io.SetInvoker, Io.Check, Io.Receive, Ids, HandleConnect, HandleBind, AwaitSendEntry;
  }

  lemma ReceiveKeepsSenders(io: Io)
    ensures Operations(io.Receive(), Sender) == Operations(io, Sender)
  {
  }

  /** A `Connect` that creates a socket can lead to two senders exactly if it breaks its guard:
      the queue does not fence its session off. */
  lemma OverlapExact(s: State, opening: Opening)
    requires s.mode == Client && Fenced(s.io) && Ids(s)
    requires s.io.queue != [] && s.io.queue[0] == Connect && s.io.socket.None?
    ensures Known(s) && (CanDouble(Apply(s, Run(opening))) <==>
                           !Fence(s.io.queue[1..], false, if opening.Open? then 1 else 0))
  {
    IdsKnow(s);
    var s1 := Apply(s, Run(opening));
    if Guarded(s, Run(opening)) {
      StepKeepsFence(s, Run(opening));
      forall evs | Allowed(s1, evs) ensures Operations(Reached(s1, evs).io, Sender) <= 1 {
        RunsKeepFence(s1, evs);
      }
    } else {
      var evs := OverlapDoubles(s, opening);
    }
  }

  lemma OverlapDoubles(s: State, opening: Opening) returns (evs: seq<Event>)
    requires s.mode == Client && Fenced(s.io) && Ids(s) && Known(s)
    requires s.io.queue != [] && s.io.queue[0] == Connect && s.io.socket.None? && !Guarded(s, Run(opening))
    ensures var s1 := Apply(s, Run(opening));
            Allowed(s1, evs) && Operations(Reached(s1, evs).io, Sender) > 1
  {
    var q, s1 := s.io.queue[1..], Apply(s, Run(opening));
    ConnectOpens(s, opening);
    if !Fence(q, false, 0) {
      assert q[..|q|] == q;
      evs := RunToBreach(s1, |q|);
    } else {
      EndBreaches(q, false);
      var s2 := Apply(s1, ConnectCompletes(true));
      var q2 := q + [ConnectDone(true)];
      assert q2[..|q2|] == q2;
      hide Apply, Fence, Connected, Known;
      var rest := RunToBreach(s2, |q2|);
      evs := [ConnectCompletes(true)] + rest;
      assert evs[1..] == rest;
    }
  }

  /** The connect has a socket that is not ready; if it opened, it may complete at once, behind
      everything queued. */
  lemma ConnectOpens(s: State, opening: Opening)
    requires s.mode == Client && Fenced(s.io) && Ids(s) && Known(s)
    requires s.io.queue != [] && s.io.queue[0] == Connect && s.io.socket.None?
    ensures var s1 := Apply(s, Run(opening));
            && Connected(s1) && Known(s1) && !s1.io.ready && s1.io.queue == s.io.queue[1..] && s1.store == s.store
            && s1.io.socket == Some(Socket(if opening.Open? then 1 else 0, [], 0)) && InPlay(s1.io) == InPlay(s.io)
            && (opening.Open? ==>
                  && Enabled(s1, ConnectCompletes(true)) && Guarded(s1, ConnectCompletes(true))
                  && var s2 := Apply(s1, ConnectCompletes(true));
                     && Connected(s2) && !s2.io.ready && s2.io.queue == s.io.queue[1..] + [ConnectDone(true)]
                     && s2.store == s.store && InPlay(s2.io) == InPlay(s.io) && s2.io.socket == Some(Socket(0, [], 0)))
  {
    var q, s1 := s.io.queue[1..], Apply(s, Run(opening));
    assert s1.io.queue == q;
    assert forall t <- q :: t in s.io.queue;
    assert InPlay(s1.io) == InPlay(s.io);
    QueueGrows(q, [ConnectDone(true)]);
    hide InPlay, Fence;
    IdsKnow(s1);
  }
}
