/** Heartbeat deadlines across two threads. The io thread stamps each heartbeat with the
    atomic generation and enqueues a task; the dispatcher thread checks the stamp, then keeps
    a list of debounced timers. A session's close moves the generation on and enqueues a
    task that clears the list, and it can land between a task's check and its effect. */
module Heartbeats {
  import opened IoContext

  datatype Task =
    | Clear
    | Beat(generation: nat, sender: Path, deadline: nat)

  /** A `next_heartbeat_deadline_timer`: `due` is when its debounced task fires, if armed. */
  datatype DeadlineTimer = DeadlineTimer(sender: Path, generation: nat, due: Option<nat>)

  /** History: a heartbeat the dispatcher acted on. */
  datatype Act = Act(sender: Path, generation: nat, at: nat, deadline: nat)

  /** History: a `next_heartbeat_deadline_exceeded` signal, after `seen` acts. */
  datatype Signal = Signal(sender: Path, generation: nat, at: nat, seen: nat)

  /** `busy` is a heartbeat whose stamp was checked and which has not taken effect; `firing`
      is a timer whose stamp was checked and which has not been signalled. */
  datatype State = State(
    now: nat,
    generation: nat, open: bool,
    queue: seq<Task>, busy: Option<Task>, firing: Option<DeadlineTimer>,
    timers: seq<DeadlineTimer>,
    stamped: seq<Task>, acts: seq<Act>, signals: seq<Signal>)

  datatype Event =
    // io thread
    | Start
    | StaleStart                                  // a connect completes after its socket was closed
    | Stop
    | Receive(sender: Path, deadline: nat)
    // dispatcher thread
    | Take
    | Effect
    | Fire(index: nat)
    | Raise
    // time
    | Tick(elapsed: nat)

  function Init(): State {
    State(0, 0, false, [], None, None, [], [], [], [])
  }

  predicate Idle(h: State) {
    h.busy.None? && h.firing.None?
  }

  predicate Enabled(h: State, ev: Event) {
    match ev
    case Start => !h.open
    case StaleStart => !h.open
    case Stop => h.open
    case Receive(_, deadline) => deadline > 0
    case Take => Idle(h) && h.queue != []
    case Effect => h.busy.Some?
    case Fire(i) => Idle(h) && i < |h.timers| && h.timers[i].due.Some? && h.timers[i].due.value <= h.now
    case Raise => h.firing.Some?
    case Tick(_) => true
  }

  /** The assumption: heartbeats are received only while a session is open. */
  predicate Punctual(h: State, ev: Event) {
    ev.Receive? ==> h.open
  }

  // ---- The timer list ----

  /** The position of the timer of a sender, or the length of the list. */
  function Find(timers: seq<DeadlineTimer>, sender: Path): (i: nat)
    ensures i <= |timers|
    ensures forall k :: 0 <= k < i ==> timers[k].sender != sender
    ensures i < |timers| ==> timers[i].sender == sender
  {
    if timers == [] then 0
    else if timers[0].sender == sender then 0
    else 1 + Find(timers[1..], sender)
  }

  /** `std::erase_if` over the sender. */
  function Erase(timers: seq<DeadlineTimer>, sender: Path): (r: seq<DeadlineTimer>)
    ensures forall t :: t in r <==> t in timers && t.sender != sender
  {
    if timers == [] then []
    else (if timers[0].sender == sender then [] else [timers[0]]) + Erase(timers[1..], sender)
  }

  /** What stays keeps its order. */
  lemma {:induction false} EraseConcat(a: seq<DeadlineTimer>, b: seq<DeadlineTimer>, sender: Path)
    ensures Erase(a + b, sender) == Erase(a, sender) + Erase(b, sender)
  {
    if a == [] {
      assert a + b == b;
    } else {
      assert (a + b)[1..] == a[1..] + b;
      EraseConcat(a[1..], b, sender);
    }
  }

  /** A heartbeat takes effect: a known sender's timer is re-armed and keeps its stamp; an
      unknown sender gets a timer stamped with the heartbeat's generation. */
  function Arm(timers: seq<DeadlineTimer>, sender: Path, generation: nat, due: nat): seq<DeadlineTimer> {
    var i := Find(timers, sender);
    if i == |timers| then timers + [DeadlineTimer(sender, generation, Some(due))]
    else timers[i := timers[i].(due := Some(due))]
  }

  function Apply(h: State, ev: Event): State
    requires Enabled(h, ev)
    requires h.busy.Some? ==> h.busy.value.Beat?
  {
    match ev
    case Start => h.(generation := h.generation + 1, open := true)
    case StaleStart => h.(generation := h.generation + 1)
    case Stop => h.(generation := h.generation + 1, open := false, queue := h.queue + [Clear])
    case Receive(sender, deadline) =>
      var b := Beat(h.generation, sender, deadline);
      h.(queue := h.queue + [b], stamped := h.stamped + [b])
    case Take =>
      var t, h' := h.queue[0], h.(queue := h.queue[1..]);
      if t.Clear? then h'.(timers := [])
      else if t.generation != h.generation then h'
      else h'.(busy := Some(t))
    case Effect =>
      var b := h.busy.value;
      h.(busy := None,
         timers := Arm(h.timers, b.sender, b.generation, h.now + b.deadline),
         acts := h.acts + [Act(b.sender, b.generation, h.now, b.deadline)])
    case Fire(i) =>
      var t := h.timers[i];
      h.(timers := h.timers[i := t.(due := None)],
         firing := if t.generation == h.generation then Some(t) else None)
    case Raise =>
      var t := h.firing.value;
      h.(firing := None,
         timers := Erase(h.timers, t.sender),
         signals := h.signals + [Signal(t.sender, t.generation, h.now, |h.acts|)])
    case Tick(elapsed) => h.(now := h.now + elapsed)
  }

  // ---- Runs ----

  predicate Sane(h: State) {
    h.busy.Some? ==> h.busy.value.Beat?
  }

  ghost predicate Possible(h: State, evs: seq<Event>)
    decreases |evs|
  {
    evs == [] || (Sane(h) && Enabled(h, evs[0]) && Punctual(h, evs[0]) && Possible(Apply(h, evs[0]), evs[1..]))
  }

  ghost function After(h: State, evs: seq<Event>): State
    requires Possible(h, evs)
    decreases |evs|
  {
    if evs == [] then h else After(Apply(h, evs[0]), evs[1..])
  }

  // ---- Sessions do not mix ----

  /** The one generation held by the timers and by what the dispatcher is in the middle of. */
  function Carried(h: State): Option<nat> {
    if h.busy.Some? && h.busy.value.Beat? then Some(h.busy.value.generation)
    else if h.firing.Some? then Some(h.firing.value.generation)
    else if h.timers != [] then Some(h.timers[0].generation)
    else None
  }

  /** Reading the queue from the front: two different generations always have a clear between
      them, and so do the last one and the stamp of the next heartbeat. With no session open
      there is no next heartbeat, and the queue ends cleared. */
  predicate Layers(q: seq<Task>, carried: Option<nat>, next: Option<nat>) {
    if q == [] then carried.None? || carried == next
    else if q[0].Clear? then Layers(q[1..], None, next)
    else (carried.None? || carried == Some(q[0].generation)) && Layers(q[1..], Some(q[0].generation), next)
  }

  function NextStamp(h: State): Option<nat> {
    if h.open then Some(h.generation) else None
  }

  predicate Layered(h: State) {
    && Sane(h)
    && (forall t <- h.timers :: Carried(h) == Some(t.generation))
    && (h.firing.Some? ==> h.busy.None?)
    && Layers(h.queue, Carried(h), NextStamp(h))
  }

  lemma {:induction false} LayersWeaken(q: seq<Task>, carried: Option<nat>, next: Option<nat>)
    requires Layers(q, carried, next)
    ensures Layers(q, None, next)
  {
  }

  lemma {:induction false} LayersAppend(q: seq<Task>, carried: Option<nat>, next: Option<nat>, t: Task)
    requires Layers(q, carried, next)
    requires t.Beat? ==> next == Some(t.generation)
    ensures t.Clear? ==> forall next' :: Layers(q + [t], carried, next')
    ensures t.Beat? ==> Layers(q + [t], carried, next)
  {
    if q == [] {
      assert q + [t] == [t];
      assert [t][1..] == [];
    } else {
      assert (q + [t])[1..] == q[1..] + [t];
      LayersAppend(q[1..], if q[0].Clear? then None else Some(q[0].generation), next, t);
    }
  }

  lemma {:induction false} LayersOpen(q: seq<Task>, carried: Option<nat>, next: Option<nat>)
    requires Layers(q, carried, None)
    ensures Layers(q, carried, next)
  {
    if q != [] {
      LayersOpen(q[1..], if q[0].Clear? then None else Some(q[0].generation), next);
    }
  }

  lemma ArmKeeps(timers: seq<DeadlineTimer>, sender: Path, generation: nat, due: nat)
    ensures forall t <- Arm(timers, sender, generation, due) ::
              t.generation == generation || exists t0 <- timers :: t0.generation == t.generation
  {
    var i := Find(timers, sender);
    var r := Arm(timers, sender, generation, due);
    forall t <- r ensures t.generation == generation || exists t0 <- timers :: t0.generation == t.generation {
      var k :| 0 <= k < |r| && r[k] == t;
      if k < |timers| { assert timers[k] in timers && timers[k].generation == t.generation; }
    }
  }

  lemma IoKeepsLayers(h: State, ev: Event)
    requires Layered(h) && Enabled(h, ev) && Punctual(h, ev) && (ev.Start? || ev.StaleStart? || ev.Stop? || ev.Receive?)
    ensures Layered(Apply(h, ev))
  {
    var h', c := Apply(h, ev), Carried(h);
    match ev {
      case Start => LayersOpen(h.queue, c, Some(h'.generation));
      case Stop => LayersAppend(h.queue, c, NextStamp(h), Clear);
      case Receive(sender, deadline) => LayersAppend(h.queue, c, NextStamp(h), Beat(h.generation, sender, deadline));
      case _ =>
    }
  }

  lemma TakeKeepsLayers(h: State)
    requires Layered(h) && Enabled(h, Take)
    ensures Layered(Apply(h, Take))
  {
    var c := Carried(h);
    if h.queue[0].Beat? && c.None? { LayersWeaken(h.queue[1..], Some(h.queue[0].generation), NextStamp(h)); }
  }

  lemma EffectKeepsLayers(h: State)
    requires Layered(h) && Enabled(h, Effect)
    ensures Layered(Apply(h, Effect))
  {
    var b, h' := h.busy.value, Apply(h, Effect);
    ArmKeeps(h.timers, b.sender, b.generation, h.now + b.deadline);
    assert h'.timers != [] && h'.timers[0] in h'.timers;
    hide Arm;
  }

  lemma TimersKeepLayers(h: State, ev: Event)
    requires Layered(h) && Enabled(h, ev) && (ev.Fire? || ev.Raise?)
    ensures Layered(Apply(h, ev))
  {
    var h' := Apply(h, ev);
    if ev.Fire? {
      assert h.timers[ev.index] in h.timers;
      assert forall t <- h'.timers :: t in h.timers || t == h.timers[ev.index].(due := None);
      assert h'.timers != [] && h'.timers[0] in h'.timers;
    } else {
      LayersWeaken(h.queue, Carried(h), NextStamp(h));
      if h'.timers != [] { assert h'.timers[0] in h'.timers; }
    }
  }

  lemma StepKeepsLayers(h: State, ev: Event)
    requires Layered(h) && Enabled(h, ev) && Punctual(h, ev)
    ensures Layered(Apply(h, ev))
  {
    match ev {
      case Take => TakeKeepsLayers(h);
      case Effect => EffectKeepsLayers(h);
      case Fire(_) => TimersKeepLayers(h, ev);
      case Raise => TimersKeepLayers(h, ev);
      case Tick(_) =>
      case _ => IoKeepsLayers(h, ev);
    }
    hide Layers;
  }

  /** No heartbeat re-arms a timer of another generation, even when a close lands between the
      check of its stamp and its effect. */
  predicate Crosses(h: State) {
    h.busy.Some? && h.busy.value.Beat?
    && exists t <- h.timers :: t.sender == h.busy.value.sender && t.generation != h.busy.value.generation
  }

  // ---- One timer per sender, and what a signal means ----

  predicate Distinct(timers: seq<DeadlineTimer>) {
    forall i, j :: 0 <= i < j < |timers| ==> timers[i].sender != timers[j].sender
  }

  /** The last of the first `n` acts for the sender. */
  function LastAct(acts: seq<Act>, sender: Path, n: nat): (r: Option<Act>)
    requires n <= |acts|
    ensures r.Some? ==> r.value.sender == sender
  {
    if n == 0 then None
    else if acts[n - 1].sender == sender then Some(acts[n - 1])
    else LastAct(acts, sender, n - 1)
  }

  /** The timer's stamp and due time are those of its sender's last heartbeat. */
  predicate ArmedByLast(h: State, t: DeadlineTimer) {
    var a := LastAct(h.acts, t.sender, |h.acts|);
    && a.Some? && a.value.generation == t.generation
    && (t.due.Some? ==> t.due.value == a.value.at + a.value.deadline)
    && (t.due.None? ==> a.value.at + a.value.deadline <= h.now)
  }

  /** The signal followed, by at least its deadline, the last heartbeat of its sender, which
      carried the signal's generation; and that heartbeat was received with a deadline. */
  predicate SignalSound(h: State, g: Signal) {
    && g.seen <= |h.acts|
    && var a := LastAct(h.acts, g.sender, g.seen);
       && a.Some? && a.value.generation == g.generation && a.value.at + a.value.deadline <= g.at
       && a.value.deadline > 0 && Beat(g.generation, g.sender, a.value.deadline) in h.stamped
  }

  predicate Received(h: State) {
    && (forall b <- h.queue :: b.Beat? ==> b in h.stamped)
    && (h.busy.Some? ==> h.busy.value in h.stamped)
    && (forall b <- h.stamped :: b.Beat? && b.deadline > 0)
    && (forall a <- h.acts :: Beat(a.generation, a.sender, a.deadline) in h.stamped)
  }

  predicate Monitored(h: State) {
    && Distinct(h.timers)
    && (forall t <- h.timers :: ArmedByLast(h, t))
    && (h.firing.Some? ==>
          && ArmedByLast(h, h.firing.value.(due := None)) && h.busy.None?)
    && Received(h)
    && (forall g <- h.signals :: SignalSound(h, g))
  }

  lemma {:induction false} LastActPrefix(acts: seq<Act>, more: seq<Act>, sender: Path, n: nat)
    requires n <= |acts|
    ensures LastAct(acts + more, sender, n) == LastAct(acts, sender, n)
  {
    if n > 0 { LastActPrefix(acts, more, sender, n - 1); }
  }

  lemma {:induction false} LastActMember(acts: seq<Act>, sender: Path, n: nat)
    requires n <= |acts| && LastAct(acts, sender, n).Some?
    ensures LastAct(acts, sender, n).value in acts
  {
    if acts[n - 1].sender != sender { LastActMember(acts, sender, n - 1); }
  }

  lemma {:induction false} EraseDistinct(timers: seq<DeadlineTimer>, sender: Path)
    requires Distinct(timers)
    ensures Distinct(Erase(timers, sender))
  {
    if timers != [] {
      var rest := Erase(timers[1..], sender);
      EraseDistinct(timers[1..], sender);
      forall t <- rest ensures t.sender != timers[0].sender {
        assert t in timers[1..];
        var k :| 0 <= k < |timers[1..]| && timers[1..][k] == t;
        assert timers[k + 1].sender != timers[0].sender;
      }
    }
  }

  /** Acting on a heartbeat: its sender's timer is armed by it, the others by their own last. */
  lemma EffectMonitors(h: State)
    requires Layered(h) && Monitored(h) && h.busy.Some?
    ensures Monitored(Apply(h, Effect))
  {
    var b, h' := h.busy.value, Apply(h, Effect);
    var act := Act(b.sender, b.generation, h.now, b.deadline);
    assert Distinct(h'.timers);
    forall t <- h'.timers ensures ArmedByLast(h', t) {
      LastActPrefix(h.acts, [act], t.sender, |h.acts|);
      var k :| 0 <= k < |h'.timers| && h'.timers[k] == t;
      if k < |h.timers| { assert h.timers[k] in h.timers; }
    }
    forall g <- h'.signals ensures SignalSound(h', g) {
      assert SignalSound(h, g);
      LastActPrefix(h.acts, [act], g.sender, g.seen);
    }
  }

  lemma FireMonitors(h: State, i: nat)
    requires Monitored(h) && Enabled(h, Fire(i))
    ensures Monitored(Apply(h, Fire(i)))
  {
    var h' := Apply(h, Fire(i));
    assert h.timers[i] in h.timers;
    forall t <- h'.timers ensures ArmedByLast(h', t) {
      assert t in h.timers || t == h.timers[i].(due := None);
    }
    forall g <- h'.signals ensures SignalSound(h', g) { assert SignalSound(h, g); }
  }

  lemma RaiseMonitors(h: State)
    requires Monitored(h) && h.firing.Some?
    ensures Monitored(Apply(h, Raise))
  {
    var t, h' := h.firing.value, Apply(h, Raise);
    EraseDistinct(h.timers, t.sender);
    LastActMember(h.acts, t.sender, |h.acts|);
    forall x <- h'.timers ensures ArmedByLast(h', x) { assert ArmedByLast(h, x); }
    forall g <- h'.signals ensures SignalSound(h', g) {
      if g in h.signals { assert SignalSound(h, g); }
    }
  }

  lemma StepKeepsMonitoring(h: State, ev: Event)
    requires Layered(h) && Monitored(h) && Enabled(h, ev)
    ensures Monitored(Apply(h, ev))
  {
    var h' := Apply(h, ev);
    match ev {
      case Effect => EffectMonitors(h);
      case Fire(i) => FireMonitors(h, i);
      case Raise => RaiseMonitors(h);
      case _ => QuietMonitors(h, h');
    }
  }

  /** Nothing was acted on or signalled, no timer changed, and no unknown heartbeat appeared. */
  lemma QuietMonitors(h: State, h': State)
    requires Monitored(h) && h'.acts == h.acts && h'.signals == h.signals && h'.firing == h.firing && h'.now >= h.now
    requires (h'.timers == h.timers || h'.timers == []) && (h'.firing.Some? ==> h'.busy.None?)
    requires Received(h') && forall b <- h.stamped :: b in h'.stamped
    ensures Monitored(h')
  {
    forall t <- h'.timers ensures ArmedByLast(h', t) { assert ArmedByLast(h, t); }
    forall g <- h'.signals ensures SignalSound(h', g) { assert SignalSound(h, g); }
  }

  // ---- Main results ----

  lemma {:induction false} RunKeepsLayers(h: State, evs: seq<Event>)
    requires Layered(h) && Possible(h, evs)
    ensures Layered(After(h, evs))
    decreases |evs|
  {
    hide Layered, Apply, Enabled, Punctual;
    if evs != [] {
      StepKeepsLayers(h, evs[0]);
      RunKeepsLayers(Apply(h, evs[0]), evs[1..]);
    }
  }

  lemma {:induction false} RunMonitors(h: State, evs: seq<Event>)
    requires Layered(h) && Monitored(h) && Possible(h, evs)
    ensures Monitored(After(h, evs))
    decreases |evs|
  {
    hide Layered, Monitored, Apply, Enabled, Punctual;
    if evs != [] {
      StepKeepsLayers(h, evs[0]);
      StepKeepsMonitoring(h, evs[0]);
      RunMonitors(Apply(h, evs[0]), evs[1..]);
    }
  }

  /** In every run that receives heartbeats only while a session is open, no heartbeat takes
      effect on a timer of another generation, and no sender has two timers. */
  lemma SessionsDoNotMix(evs: seq<Event>)
    requires Possible(Init(), evs)
    ensures !Crosses(After(Init(), evs))
    ensures Distinct(After(Init(), evs).timers)
  {
    RunKeepsLayers(Init(), evs);
    RunMonitors(Init(), evs);
  }

  /** A deadline signal at generation `g` follows a heartbeat of that sender received with a
      non-zero deadline and stamped `g`, by at least that deadline, with no heartbeat of the
      sender handled in between. */
  lemma SignalsMeanSilence(evs: seq<Event>, k: nat)
    requires Possible(Init(), evs) && k < |After(Init(), evs).signals|
    ensures SignalSound(After(Init(), evs), After(Init(), evs).signals[k])
  {
    RunMonitors(Init(), evs);
    assert After(Init(), evs).signals[k] in After(Init(), evs).signals;
  }

  /** The converse: a heartbeat that takes effect leaves its sender a timer of its own
      generation, and when its deadline passes in the same session with no later heartbeat,
      the timer fires and the signal is raised. */
  lemma SilenceIsSignalled(h: State, elapsed: nat)
    requires Layered(h) && h.busy.Some? && h.firing.None? && h.busy.value.generation == h.generation
    requires elapsed >= h.busy.value.deadline
    ensures var b := h.busy.value;
            var h1 := Apply(Apply(h, Effect), Tick(elapsed));
            var i := Find(h.timers, b.sender);
            && Enabled(h1, Fire(i)) && Enabled(Apply(h1, Fire(i)), Raise)
            && Apply(Apply(h1, Fire(i)), Raise).signals
                 == h.signals + [Signal(b.sender, b.generation, h1.now, |h.acts| + 1)]
  {
    var i := Find(h.timers, h.busy.value.sender);
    if i < |h.timers| { assert h.timers[i] in h.timers; }
  }

  // ---- What the assumption is for ----

  ghost predicate CanCross(h: State) {
    exists evs :: Possible(h, evs) && Crosses(After(h, evs))
  }

  /** No stamp is ahead of the generation. */
  predicate Bounded(h: State) {
    && Sane(h)
    && (forall t <- h.timers :: t.generation <= h.generation)
    && (h.firing.Some? ==> h.busy.None?)
  }

  /** A heartbeat of the sender with the current stamp is about to be handled last, or has
      left a timer. */
  predicate Leaving(h: State, sender: Path) {
    && Bounded(h) && !h.open
    && if h.queue != [] then
         h.queue[|h.queue| - 1].Beat? && h.queue[|h.queue| - 1].generation == h.generation
         && h.queue[|h.queue| - 1].sender == sender
       else if h.busy.Some? then h.busy.value.sender == sender
       else h.firing.None? && exists t <- h.timers :: t.sender == sender
  }

  /** The dispatcher can work through its queue, and the sender keeps a timer. */
  lemma WorkThrough(h: State, sender: Path) returns (evs: seq<Event>, h': State)
    requires Leaving(h, sender) && (h.busy.Some? ==> h.busy.value.generation <= h.generation)
    ensures Possible(h, evs) && h' == After(h, evs)
    ensures Bounded(h') && !h'.open && h'.queue == [] && Idle(h') && exists t <- h'.timers :: t.sender == sender
    decreases |h.queue|, if Idle(h) then 0 else 1
  {
    if h.queue == [] && Idle(h) {
      evs, h' := [], h;
    } else {
      var ev := if h.busy.Some? then Effect else if h.firing.Some? then Raise else Take;
      assert Enabled(h, ev);
      var h1 := Apply(h, ev);
      match ev {
        case Effect => EffectLeaves(h, sender);
        case Raise => if h.queue != [] { assert h1.queue == h.queue; }
        case Take => if |h.queue| > 1 { assert h1.queue[|h1.queue| - 1] == h.queue[|h.queue| - 1]; }
      }
      var rest;
      rest, h' := WorkThrough(h1, sender);
      evs := [ev] + rest;
      assert evs[1..] == rest;
    }
  }

  lemma EffectLeaves(h: State, sender: Path)
    requires Leaving(h, sender) && h.busy.Some? && h.busy.value.generation <= h.generation
    ensures Leaving(Apply(h, Effect), sender)
  {
    var b, h' := h.busy.value, Apply(h, Effect);
    ArmKeeps(h.timers, b.sender, b.generation, h.now + b.deadline);
    var i := Find(h.timers, b.sender);
    assert h'.timers[i].sender == b.sender && h'.timers[i] in h'.timers;
  }

  /** A heartbeat received between two sessions is exactly what lets sessions mix: after it
      the timer it leaves can be re-armed by a heartbeat of the next session, while after one
      received in an open session no continuation mixes them. */
  lemma CrossingExact(h: State, sender: Path, deadline: nat)
    requires Layered(h) && Bounded(h) && deadline > 0 && (h.busy.Some? ==> h.busy.value.generation <= h.generation)
    ensures CanCross(Apply(h, Receive(sender, deadline))) <==> !h.open
  {
    var h1 := Apply(h, Receive(sender, deadline));
    if h.open {
      StepKeepsLayers(h, Receive(sender, deadline));
      forall evs | Possible(h1, evs) ensures !Crosses(After(h1, evs)) {
        RunKeepsLayers(h1, evs);
      }
    } else {
      var evs, h2 := WorkThrough(h1, sender);
      var h3 := Apply(h2, Start);
      var h4 := Apply(h3, Receive(sender, 1));
      var h5 := Apply(h4, Take);
      assert h4.queue == [Beat(h3.generation, sender, 1)];
      assert Crosses(h5);
      var last := [Start, Receive(sender, 1), Take];
      assert last[1..] == [Receive(sender, 1), Take] && last[1..][1..] == [Take] && last[1..][1..][1..] == [];
      assert Possible(h5, []);
      assert Possible(h4, last[1..][1..]) && After(h4, last[1..][1..]) == h5;
      assert Possible(h3, last[1..]) && After(h3, last[1..]) == h5;
      assert Possible(h2, last) && After(h2, last) == h5;
      PossibleConcat(h1, evs, last);
    }
  }

  lemma {:induction false} PossibleConcat(h: State, a: seq<Event>, b: seq<Event>)
    requires Possible(h, a) && Possible(After(h, a), b)
    ensures Possible(h, a + b) && After(h, a + b) == After(After(h, a), b)
    decreases |a|
  {
    if a == [] {
      assert a + b == b;
    } else {
      assert (a + b)[1..] == a[1..] + b;
      hide Apply, Enabled, Punctual;
      PossibleConcat(Apply(h, a[0]), a[1..], b);
    }
  }

  /** A heartbeat of the running session that lands on a timer of an older one is never
      signalled: when its deadline passes, the timer fires and stays silent. */
  lemma CrossedBeatIsSilent(h: State, elapsed: nat)
    requires Crosses(h) && Distinct(h.timers) && h.firing.None? && h.busy.value.generation == h.generation
    requires elapsed >= h.busy.value.deadline
    ensures var h1 := Apply(Apply(h, Effect), Tick(elapsed));
            var i := Find(h.timers, h.busy.value.sender);
            && Enabled(h1, Fire(i)) && h1.timers[i].sender == h.busy.value.sender
            && Apply(h1, Fire(i)).firing == None && Apply(h1, Fire(i)).signals == h.signals
  {
    var i := Find(h.timers, h.busy.value.sender);
    var t :| t in h.timers && t.sender == h.busy.value.sender && t.generation != h.busy.value.generation;
    var k :| 0 <= k < |h.timers| && h.timers[k] == t;
    assert k == i;
  }
}
