/** No silence is missed: in every run of the heartbeat machine, a sender whose last heartbeat
    belongs to the current session is being waited for, or its silence has been signalled. */
module Silence {
  import I = IoContext
  import opened Heartbeats

  /** One more than the position of the sender's last act among the first `n`. */
  function LastIndex(acts: seq<Act>, sender: I.Path, n: nat): (r: nat)
    requires n <= |acts|
    ensures r <= n
    ensures r > 0 ==> LastAct(acts, sender, n) == I.Some(acts[r - 1])
    ensures r == 0 ==> LastAct(acts, sender, n).None?
  {
    if n == 0 then 0 else if acts[n - 1].sender == sender then n else LastIndex(acts, sender, n - 1)
  }

  function Last(h: State, sender: I.Path): I.Option<Act> {
    LastAct(h.acts, sender, |h.acts|)
  }

  /** A timer of the act's generation will fire when its deadline has passed. */
  predicate Awaited(h: State, a: Act) {
    exists t <- h.timers :: t == DeadlineTimer(a.sender, a.generation, I.Some(a.at + a.deadline))
  }

  /** The silence was signalled after the act. */
  predicate Told(h: State, sender: I.Path) {
    exists g <- h.signals :: g.sender == sender && g.generation == h.generation
                             && LastIndex(h.acts, sender, |h.acts|) <= g.seen
  }

  predicate Attended(h: State, sender: I.Path) {
    var a := Last(h, sender);
    a.Some? && a.value.generation == h.generation ==>
      || Awaited(h, a.value)
      || (h.firing.Some? && h.firing.value.sender == sender && h.firing.value.generation == h.generation)
      || Told(h, sender)
  }

  predicate FreshQueue(q: seq<Task>, generation: nat) {
    && (forall t <- q :: t.Beat? ==> t.generation <= generation)
    && (forall i, j :: 0 <= i < j < |q| && q[i].Beat? && q[j].Clear? ==> q[i].generation < generation)
  }

  /** Nothing is stamped ahead of the generation, and what is ahead of a queued clear, or was
      done while it is queued, is stamped behind the generation. */
  predicate Fresh(h: State) {
    && FreshQueue(h.queue, h.generation)
    && (forall a <- h.acts :: a.generation <= h.generation && (Clear in h.queue ==> a.generation < h.generation))
    && (h.busy.Some? ==> h.busy.value.Beat? && h.busy.value.generation <= h.generation
                         && (Clear in h.queue ==> h.busy.value.generation < h.generation))
  }

  lemma StepKeepsFresh(h: State, ev: Event)
    requires Fresh(h) && Enabled(h, ev)
    ensures Fresh(Apply(h, ev))
  {
    match ev {
      case Take => TakeKeepsFresh(h);
      case Stop => IoKeepsFresh(h, ev);
      case Receive(_, _) => IoKeepsFresh(h, ev);
      case _ =>
    }
  }

  lemma TakeKeepsFresh(h: State)
    requires Fresh(h) && Enabled(h, Take)
    ensures Fresh(Apply(h, Take))
  {
    FreshRest(h.queue, h.generation);
    hide FreshQueue;
  }

  lemma FreshRest(q: seq<Task>, generation: nat)
    requires FreshQueue(q, generation) && q != []
    ensures FreshQueue(q[1..], generation)
    ensures q[0].Beat? ==> q[0].generation <= generation && (Clear in q[1..] ==> q[0].generation < generation)
    ensures Clear in q[1..] || q[0] == Clear <==> Clear in q
  {
    var r := q[1..];
    assert q[0] in q && forall t <- r :: t in q;
    assert forall i :: 0 <= i < |r| ==> r[i] == q[i + 1];
    if Clear in r {
      var j :| 0 <= j < |r| && r[j] == Clear;
      assert q[j + 1] == Clear;
    }
  }

  lemma IoKeepsFresh(h: State, ev: Event)
    requires Fresh(h) && Enabled(h, ev) && (ev.Stop? || ev.Receive?)
    ensures Fresh(Apply(h, ev))
  {
    var q := Apply(h, ev).queue;
    assert forall i :: 0 <= i < |h.queue| ==> q[i] == h.queue[i] && q[i] in h.queue;
    assert ev.Receive? ==> (Clear in q <==> Clear in h.queue);
  }

  // ---- Steps ----

  lemma {:induction false} LastIndexGrows(acts: seq<Act>, more: seq<Act>, sender: I.Path, n: nat)
    requires n <= |acts|
    ensures LastIndex(acts + more, sender, n) == LastIndex(acts, sender, n)
  {
    if n > 0 { LastIndexGrows(acts, more, sender, n - 1); }
  }

  lemma LastMember(h: State, sender: I.Path)
    ensures Last(h, sender).Some? ==> Last(h, sender).value in h.acts && Last(h, sender).value.sender == sender
  {
    if Last(h, sender).Some? { LastActMember(h.acts, sender, |h.acts|); }
  }

  lemma EffectAttends(h: State, sender: I.Path)
    requires Layered(h) && Monitored(h) && Attended(h, sender) && h.busy.Some?
    ensures Attended(Apply(h, Effect), sender)
  {
    if sender == h.busy.value.sender {
      EffectArms(h);
    } else {
      EffectLeavesOthers(h, sender);
    }
    hide Layered, Monitored, Awaited;
  }

  /** The act's own sender is waited for. */
  lemma EffectArms(h: State)
    requires Layered(h) && h.busy.Some?
    ensures var h', sender := Apply(h, Effect), h.busy.value.sender;
            Last(h', sender).Some? && Awaited(h', Last(h', sender).value)
  {
    var b, h' := h.busy.value, Apply(h, Effect);
    var i := Find(h.timers, b.sender);
    if i < |h.timers| { assert h.timers[i] in h.timers; }
    assert h'.timers[i] == DeadlineTimer(b.sender, b.generation, I.Some(h.now + b.deadline));
    assert h'.timers[i] in h'.timers;
    hide Layers;
  }

  lemma EffectLeavesOthers(h: State, sender: I.Path)
    requires h.busy.Some? && h.busy.value.Beat? && Attended(h, sender) && sender != h.busy.value.sender
    ensures Attended(Apply(h, Effect), sender)
  {
    var b := h.busy.value;
    var act := Act(b.sender, b.generation, h.now, b.deadline);
    LastActPrefix(h.acts, [act], sender, |h.acts|);
    LastIndexGrows(h.acts, [act], sender, |h.acts|);
    LastMember(h, sender);
    ArmLeavesOthers(h.timers, b.sender, b.generation, h.now + b.deadline);
    hide Arm;
  }

  lemma ArmLeavesOthers(timers: seq<DeadlineTimer>, sender: I.Path, generation: nat, due: nat)
    ensures forall t <- timers :: t.sender != sender ==> t in Arm(timers, sender, generation, due)
  {
    var r := Arm(timers, sender, generation, due);
    forall t <- timers | t.sender != sender ensures t in r {
      var k :| 0 <= k < |timers| && timers[k] == t;
      assert r[k] == t;
    }
  }

  lemma FireAttends(h: State, i: nat, sender: I.Path)
    requires Monitored(h) && Attended(h, sender) && Enabled(h, Fire(i))
    ensures Attended(Apply(h, Fire(i)), sender)
  {
    var h', a := Apply(h, Fire(i)), Last(h, sender);
    if a.Some? && Awaited(h, a.value) {
      LastMember(h, sender);
      var t :| t in h.timers && t == DeadlineTimer(a.value.sender, a.value.generation, I.Some(a.value.at + a.value.deadline));
      var k :| 0 <= k < |h.timers| && h.timers[k] == t;
      assert Last(h', sender) == a && a.value.sender == sender;
      if k != i {
        assert h'.timers[k] == t && t in h'.timers;
        assert Awaited(h', a.value);
      } else {
        assert t.generation == h.generation ==> h'.firing == I.Some(t);
      }
    }
  }

  lemma RaiseAttends(h: State, sender: I.Path)
    requires Monitored(h) && Attended(h, sender) && h.firing.Some?
    ensures Attended(Apply(h, Raise), sender)
  {
    var t, h', a := h.firing.value, Apply(h, Raise), Last(h, sender);
    LastMember(h, sender);
    if sender == t.sender {
      var g := Signal(t.sender, t.generation, h.now, |h.acts|);
      assert g in h'.signals;
    } else if a.Some? && Awaited(h, a.value) {
      var x :| x in h.timers && x == DeadlineTimer(a.value.sender, a.value.generation, I.Some(a.value.at + a.value.deadline));
      assert x in h'.timers;
    }
  }

  lemma StepAttends(h: State, ev: Event, sender: I.Path)
    requires Layered(h) && Monitored(h) && Fresh(h) && Enabled(h, ev) && Attended(h, sender)
    ensures Attended(Apply(h, ev), sender)
  {
    LastMember(h, sender);
    match ev {
      case Effect => EffectAttends(h, sender);
      case Fire(i) => FireAttends(h, i, sender);
      case Raise => RaiseAttends(h, sender);
      case Take => assert h.queue[0] in h.queue;
      case _ =>
    }
  }

  lemma {:induction false} RunAttends(h: State, evs: seq<Event>, sender: I.Path)
    requires Layered(h) && Monitored(h) && Fresh(h) && Attended(h, sender) && Possible(h, evs)
    ensures Attended(After(h, evs), sender)
    decreases |evs|
  {
    if evs != [] {
      StepKeepsLayers(h, evs[0]);
      StepKeepsMonitoring(h, evs[0]);
      StepKeepsFresh(h, evs[0]);
      StepAttends(h, evs[0], sender);
      hide Layered, Monitored, Fresh, Attended, Apply, Enabled, Punctual;
      RunAttends(Apply(h, evs[0]), evs[1..], sender);
    }
  }

  /** In every run that receives heartbeats only while a session is open: a sender whose last
      heartbeat acted on is of the current generation has a timer that fires when that
      heartbeat's deadline has passed, or it fired, or its silence was signalled since. */
  lemma SilenceNeverMissed(evs: seq<Event>, sender: I.Path)
    requires Possible(Init(), evs)
    ensures Attended(After(Init(), evs), sender)
  {
    RunAttends(Init(), evs, sender);
  }

  // ---- Crossing, from the start ----

  lemma {:induction false} RunKeepsFresh(h: State, evs: seq<Event>)
    requires Fresh(h) && Possible(h, evs)
    ensures Fresh(After(h, evs))
    decreases |evs|
  {
    if evs != [] {
      StepKeepsFresh(h, evs[0]);
      hide Fresh, Apply, Enabled, Punctual;
      RunKeepsFresh(Apply(h, evs[0]), evs[1..]);
    }
  }

  /** A timer's stamp is that of an act, which is not ahead of the generation. */
  lemma FreshIsBounded(h: State)
    requires Layered(h) && Monitored(h) && Fresh(h)
    ensures Bounded(h)
  {
    forall t <- h.timers ensures t.generation <= h.generation {
      assert ArmedByLast(h, t);
      LastActMember(h.acts, t.sender, |h.acts|);
    }
  }

  /** After any punctual run, the next heartbeat lets sessions mix exactly if it is received
      with no session open. */
  lemma CrossingFromStart(evs: seq<Event>, sender: I.Path, deadline: nat)
    requires Possible(Init(), evs) && deadline > 0
    ensures var h := After(Init(), evs);
            Sane(h) && (CanCross(Apply(h, Receive(sender, deadline))) <==> !h.open)
  {
    var h := After(Init(), evs);
    RunKeepsLayers(Init(), evs);
    RunMonitors(Init(), evs);
    RunKeepsFresh(Init(), evs);
    FreshIsBounded(h);
    hide Layers, Monitored, Possible, After, CanCross;
    CrossingExact(h, sender, deadline);
  }

  // ---- A closed session is silent ----

  /** No silence of generation `g` is signalled among those after the first `n`. */
  predicate NoneOf(h: State, g: nat, n: nat) {
    n <= |h.signals| && forall k :: n <= k < |h.signals| ==> h.signals[k].generation != g
  }

  /** Once the generation has moved on, a timer stamped before may fire, but in no run does it
      signal: of an earlier session only what was being raised is still signalled. */
  lemma {:induction false} ClosedSessionIsSilent(h: State, evs: seq<Event>, g: nat, n: nat)
    requires Possible(h, evs) && h.generation > g && NoneOf(h, g, n)
    requires h.firing.Some? ==> h.firing.value.generation != g
    ensures NoneOf(After(h, evs), g, n)
    decreases |evs|
  {
    if evs != [] {
      var h' := Apply(h, evs[0]);
      assert h'.generation >= h.generation && (h'.firing.Some? ==> h'.firing.value.generation != g);
      assert NoneOf(h', g, n);
      hide Apply, Enabled, Punctual, NoneOf;
      ClosedSessionIsSilent(h', evs[1..], g, n);
    }
  }

  // ---- Signalled once ----

  /** What a sender's timer holds, or its handler, comes from an act after its last signal; and
      any two signals of a sender have an act of it between them. */
  predicate Spaced(h: State) {
    && (forall g <- h.signals :: g.seen <= |h.acts|)
    && (forall g <- h.signals, t <- h.timers :: t.sender == g.sender ==> g.seen < LastIndex(h.acts, g.sender, |h.acts|))
    && (h.firing.Some? ==>
          forall g <- h.signals :: h.firing.value.sender == g.sender ==>
            g.seen < LastIndex(h.acts, g.sender, |h.acts|))
    && (forall i, j :: 0 <= i < j < |h.signals| && h.signals[i].sender == h.signals[j].sender ==>
          h.signals[j].seen <= |h.acts| && h.signals[i].seen < LastIndex(h.acts, h.signals[j].sender, h.signals[j].seen))
  }

  lemma EffectSpaces(h: State)
    requires Spaced(h) && h.busy.Some? && h.busy.value.Beat? && h.firing.None?
    ensures Spaced(Apply(h, Effect))
  {
    var b, h' := h.busy.value, Apply(h, Effect);
    var act := Act(b.sender, b.generation, h.now, b.deadline);
    forall g <- h.signals, t <- h'.timers | t.sender == g.sender
      ensures g.seen < LastIndex(h'.acts, g.sender, |h'.acts|)
    {
      if g.sender != b.sender {
        LastIndexGrows(h.acts, [act], g.sender, |h.acts|);
        ArmKeepsOthers(h.timers, b.sender, b.generation, h.now + b.deadline);
      }
    }
    forall j | 0 <= j < |h.signals|
      ensures h.signals[j].seen <= |h.acts|
      ensures LastIndex(h'.acts, h.signals[j].sender, h.signals[j].seen)
              == LastIndex(h.acts, h.signals[j].sender, h.signals[j].seen)
    {
      assert h.signals[j] in h.signals;
      LastIndexGrows(h.acts, [act], h.signals[j].sender, h.signals[j].seen);
    }
    hide Arm, LastIndex, LastAct;
  }

  lemma ArmKeepsOthers(timers: seq<DeadlineTimer>, sender: I.Path, generation: nat, due: nat)
    ensures forall t <- Arm(timers, sender, generation, due) :: t.sender != sender ==> t in timers
  {
    var r := Arm(timers, sender, generation, due);
    forall t <- r | t.sender != sender ensures t in timers {
      var k :| 0 <= k < |r| && r[k] == t;
      assert k < |timers| && timers[k] == t;
    }
  }

  lemma FireSpaces(h: State, i: nat)
    requires Sane(h) && Spaced(h) && Enabled(h, Fire(i))
    ensures Spaced(Apply(h, Fire(i)))
  {
    var h' := Apply(h, Fire(i));
    assert h.timers[i] in h.timers;
    assert forall t <- h'.timers :: t in h.timers || t == h.timers[i].(due := I.None);
    hide LastIndex;
  }

  /** The new signal has seen every act so far. */
  lemma SignalsSpaced(h: State, g: Signal)
    requires Spaced(h) && h.firing.Some? && g.sender == h.firing.value.sender && g.seen == |h.acts|
    ensures var gs := h.signals + [g];
            forall i, j :: 0 <= i < j < |gs| && gs[i].sender == gs[j].sender ==>
              gs[j].seen <= |h.acts| && gs[i].seen < LastIndex(h.acts, gs[j].sender, gs[j].seen)
  {
    var gs := h.signals + [g];
    assert forall i :: 0 <= i < |h.signals| ==> gs[i] == h.signals[i] && h.signals[i] in h.signals;
    hide LastIndex;
  }

  lemma RaiseSpaces(h: State)
    requires Sane(h) && Spaced(h) && h.firing.Some?
    ensures Spaced(Apply(h, Raise))
  {
    var h', t := Apply(h, Raise), h.firing.value;
    SignalsSpaced(h, Signal(t.sender, t.generation, h.now, |h.acts|));
    assert forall x <- h'.timers :: x in h.timers && x.sender != t.sender;
    hide LastIndex, LastAct, Erase, Arm;
  }

  lemma StepSpaces(h: State, ev: Event)
    requires Sane(h) && (h.firing.Some? ==> h.busy.None?) && Spaced(h) && Enabled(h, ev)
    ensures Spaced(Apply(h, ev))
  {
    match ev {
      case Effect => EffectSpaces(h);
      case Fire(i) => FireSpaces(h, i);
      case Raise => RaiseSpaces(h);
      case _ =>
    }
    hide LastIndex;
  }

  lemma {:induction false} RunSpaces(h: State, evs: seq<Event>)
    requires Sane(h) && (h.firing.Some? ==> h.busy.None?) && Spaced(h) && Possible(h, evs)
    ensures Spaced(After(h, evs))
    decreases |evs|
  {
    if evs != [] {
      StepSpaces(h, evs[0]);
      hide Spaced;
      RunSpaces(Apply(h, evs[0]), evs[1..]);
    }
  }

  /** A silence is signalled at most once: between two signals of one sender, in any session,
      a heartbeat of that sender was handled. */
  lemma SignalledOnce(evs: seq<Event>, i: nat, j: nat)
    requires Possible(Init(), evs)
    requires i < j < |After(Init(), evs).signals|
    requires After(Init(), evs).signals[i].sender == After(Init(), evs).signals[j].sender
    ensures var h := After(Init(), evs);
            exists k :: h.signals[i].seen <= k < h.signals[j].seen && k < |h.acts|
                        && h.acts[k].sender == h.signals[i].sender
  {
    RunSpaces(Init(), evs);
    var h := After(Init(), evs);
    var r := LastIndex(h.acts, h.signals[j].sender, h.signals[j].seen);
    assert h.acts[r - 1].sender == h.signals[i].sender;
  }
}
