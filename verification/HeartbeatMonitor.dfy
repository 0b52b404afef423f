/** The heartbeat side of `base_impl` and `next_heartbeat_deadline_timer` as objects updated in
    place, each method proved to take the step of the two-thread machine it stands for. */
module HeartbeatMonitors {
  import I = IoContext
  import opened Heartbeats

  /** `generation` is what the handler connected to the timer's signal captured. */
  class NextHeartbeatDeadlineTimer {
    const sender: I.Path
    const generation: nat
    /** When the debounced task runs, if it is armed. */
    var due: I.Option<nat>

    ghost function View(): DeadlineTimer
      reads this
    {
      DeadlineTimer(sender, generation, due)
    }

    constructor (sender: I.Path, generation: nat, now: nat, deadline: nat)
      ensures View() == DeadlineTimer(sender, generation, I.Some(now + deadline))
    {
      this.sender, this.generation, this.due := sender, generation, I.Some(now + deadline);
    }

    /** Debouncing: an earlier arming is forgotten. */
    method SetTimer(now: nat, deadline: nat)
      modifies this
      ensures View() == old(View()).(due := I.Some(now + deadline))
    {
      due := I.Some(now + deadline);
    }
  }

  ghost function TimerViews(timers: seq<NextHeartbeatDeadlineTimer>): (list: seq<DeadlineTimer>)
    reads timers
    ensures |list| == |timers| && forall i :: 0 <= i < |timers| ==> list[i] == timers[i].View()
  {
    if timers == [] then [] else [timers[0].View()] + TimerViews(timers[1..])
  }

  lemma TimerViewsLast(timers: seq<NextHeartbeatDeadlineTimer>, t: NextHeartbeatDeadlineTimer)
    ensures TimerViews(timers + [t]) == TimerViews(timers) + [t.View()]
  {
    hide TimerViews;
  }

  lemma NothingErased(timers: seq<NextHeartbeatDeadlineTimer>, sender: I.Path)
    ensures timers[..0] == [] && TimerViews([]) == [] && Erase(TimerViews([]), sender) == []
  {
  }

  class HeartbeatMonitor {
    var now: nat
    // Shared: the generation is atomic, the queue is the dispatcher's
    var generation: nat
    var open: bool
    var queue: seq<Task>
    // The dispatcher's
    var busy: I.Option<Task>
    /** What the handler of a fired timer captured. */
    var firing: I.Option<DeadlineTimer>
    var timers: seq<NextHeartbeatDeadlineTimer>
    var signals: seq<Signal>
    // History
    var acts: seq<Act>
    ghost var stamped: seq<Task>

    ghost predicate Valid()
      reads this
    {
      && (forall i, j :: 0 <= i < j < |timers| ==> timers[i] != timers[j])
      && (busy.Some? ==> busy.value.Beat?)
    }

    /** The state of the machine when the timers are worth `list`. */
    ghost function Over(list: seq<DeadlineTimer>): State
      reads this
    {
      State(now, generation, open, queue, busy, firing, list, stamped, acts, signals)
    }

    ghost function View(): State
      reads this, timers
    {
      Over(TimerViews(timers))
    }

    constructor ()
      ensures Valid() && View() == Init()
    {
      now, generation, open, queue, busy, firing, timers, signals := 0, 0, false, [], I.None, I.None, [], [];
      stamped, acts := [], [];
    }

    /** The position of the sender's timer, by the search of `std::ranges::find_if`. */
    method FindTimer(sender: I.Path) returns (i: nat)
      ensures i == Find(TimerViews(timers), sender)
    {
      i := 0;
      while i < |timers| && timers[i].sender != sender
        invariant i <= |timers|
        invariant forall k :: 0 <= k < i ==> TimerViews(timers)[k].sender != sender
      {
        i := i + 1;
      }
    }

    /** `std::erase_if`: the timers of other senders stay, in order. */
    method EraseTimers(sender: I.Path)
      requires Valid()
      modifies this`timers
      ensures Valid() && TimerViews(timers) == Erase(old(TimerViews(timers)), sender)
      ensures forall t <- timers :: t in old(timers)
    {
      hide TimerViews, Erase;
      var kept: seq<NextHeartbeatDeadlineTimer> := [];
      NothingErased(timers, sender);
      for i := 0 to |timers|
        invariant timers == old(timers)
        invariant TimerViews(kept) == Erase(TimerViews(timers[..i]), sender)
        invariant forall j, k :: 0 <= j < k < |kept| ==> kept[j] != kept[k]
        invariant forall j :: 0 <= j < |kept| ==> kept[j] in timers[..i]
      {
        assert timers[..i + 1] == timers[..i] + [timers[i]];
        TimerViewsLast(timers[..i], timers[i]);
        EraseConcat(TimerViews(timers[..i]), [timers[i].View()], sender);
        EraseOne(timers[i].View(), sender);
        if timers[i].sender != sender {
          assert timers[i] !in timers[..i];
          TimerViewsLast(kept, timers[i]);
          kept := kept + [timers[i]];
        }
      }
      assert timers[..|timers|] == timers;
      timers := kept;
    }

    // ---- io thread ----

    /** A connect or bind completed: the generation moves on. The session is live unless its
        socket was closed meanwhile. */
    method OnReady(live: bool, ghost list: seq<DeadlineTimer>)
      requires Valid() && !open
      modifies this`generation, this`open
      ensures Valid() && Over(list) == Apply(old(Over(list)), if live then Start else StaleStart)
    {
      generation := generation + 1;
      open := live;
    }

    /** A session is closed: the generation moves on, and a task that clears the timers is queued. */
    method OnStop(ghost list: seq<DeadlineTimer>)
      requires Valid() && open
      modifies this`generation, this`open, this`queue
      ensures Valid() && Over(list) == Apply(old(Over(list)), Stop)
    {
      open := false;
      generation := generation + 1;
      queue := queue + [Clear];
    }

    /** A heartbeat with a deadline is stamped when it is received. */
    method OnHeartbeat(sender: I.Path, deadline: nat, ghost list: seq<DeadlineTimer>)
      requires Valid() && deadline > 0
      modifies this`queue, this`stamped
      ensures Valid() && Over(list) == Apply(old(Over(list)), Receive(sender, deadline))
    {
      queue := queue + [Beat(generation, sender, deadline)];
      stamped := stamped + [Beat(generation, sender, deadline)];
    }

    // ---- Dispatcher thread ----

    /** The first half of a task: a clear, or the check of a heartbeat's stamp. */
    method TakeTask()
      requires Valid() && Enabled(View(), Take)
      modifies this`queue, this`timers, this`busy
      ensures Valid() && View() == Apply(old(View()), Take)
    {
      var t := queue[0];
      queue := queue[1..];
      if t.Clear? {
        timers := [];
      } else if t.generation == generation {
        busy := I.Some(t);
      }
    }

    /** The second half: the sender's timer is re-armed, or made. */
    method TakeEffect()
      requires Valid() && Enabled(View(), Effect)
      modifies this`busy, this`timers, this`acts, timers
      ensures Valid() && View() == Apply(old(View()), Effect)
      ensures forall t <- timers :: t in old(timers) || fresh(t)
    {
      hide TimerViews, Arm;
      var b := busy.value;
      busy := I.None;
      ArmTimer(b.sender, b.generation, b.deadline);
      acts := acts + [Act(b.sender, b.generation, now, b.deadline)];
    }

    method ArmTimer(sender: I.Path, stamp: nat, deadline: nat)
      requires Valid()
      modifies this`timers, timers
      ensures Valid() && TimerViews(timers) == Arm(old(TimerViews(timers)), sender, stamp, now + deadline)
      ensures forall t <- timers :: t in old(timers) || fresh(t)
    {
      hide TimerViews;
      var i := FindTimer(sender);
      if i == |timers| {
        AddTimer(sender, stamp, deadline);
      } else {
        Rearm(i, deadline);
      }
    }

    method AddTimer(sender: I.Path, stamp: nat, deadline: nat)
      requires Valid()
      modifies this`timers
      ensures Valid() && TimerViews(timers) == old(TimerViews(timers)) + [DeadlineTimer(sender, stamp, I.Some(now + deadline))]
      ensures forall t <- timers :: t in old(timers) || fresh(t)
    {
      hide TimerViews;
      var t := new NextHeartbeatDeadlineTimer(sender, stamp, now, deadline);
      TimerViewsLast(timers, t);
      timers := timers + [t];
    }

    method Rearm(i: nat, deadline: nat)
      requires Valid() && i < |timers|
      modifies timers[i]
      ensures var list := old(TimerViews(timers));
              TimerViews(timers) == list[i := list[i].(due := I.Some(now + deadline))]
    {
      timers[i].SetTimer(now, deadline);
      assert TimerViews(timers) == old(TimerViews(timers))[i := timers[i].View()];
    }

    /** A timer's debounced task runs; its handler first checks the stamp. */
    method Fire(i: nat)
      requires Valid() && Enabled(View(), Event.Fire(i))
      modifies this`firing, timers
      ensures Valid() && View() == Apply(old(View()), Event.Fire(i))
    {
      ghost var list := TimerViews(timers);
      var t := timers[i];
      if t.generation == generation {
        firing := I.Some(DeadlineTimer(t.sender, t.generation, t.due));
      }
      t.due := I.None;
      assert TimerViews(timers) == list[i := t.View()];
    }

    /** The handler signals, then forgets the sender. */
    method Raise()
      requires Valid() && Enabled(View(), Event.Raise)
      modifies this`firing, this`timers, this`signals
      ensures Valid() && View() == Apply(old(View()), Event.Raise)
    {
      hide TimerViews, Erase;
      var t := firing.value;
      firing := I.None;
      signals := signals + [Signal(t.sender, t.generation, now, |acts|)];
      EraseTimers(t.sender);
    }

    // ---- Either thread ----

    /** Whatever happens next is one step of the machine; if it is punctual, sessions stay
        apart, and the timers stay armed by the last heartbeats. */
    method Handle(ev: Event)
      requires Valid() && Enabled(View(), ev)
      modifies this, timers
      ensures Valid() && View() == Apply(old(View()), ev)
      ensures old(Layered(View())) && Punctual(old(View()), ev) ==> Layered(View())
      ensures old(Layered(View()) && Monitored(View())) ==> Monitored(View())
    {
      ghost var h := View();
      Takes(h, ev);
      hide TimerViews, Apply, Layered, Monitored;
      match ev {
        case Start => OnReady(true, h.timers);
        case StaleStart => OnReady(false, h.timers);
        case Stop => OnStop(h.timers);
        case Receive(sender, deadline) => OnHeartbeat(sender, deadline, h.timers);
        case Take => TakeTask();
        case Effect => TakeEffect();
        case Fire(i) => Fire(i);
        case Raise => Raise();
        case Tick(elapsed) => Wait(elapsed, h.timers);
      }
    }

    method Wait(elapsed: nat, ghost list: seq<DeadlineTimer>)
      requires Valid()
      modifies this`now
      ensures Valid() && Over(list) == Apply(old(Over(list)), Tick(elapsed))
    {
      now := now + elapsed;
    }
  }

  /** What a step of the machine keeps. */
  lemma Takes(h: State, ev: Event)
    requires Sane(h) && Enabled(h, ev)
    ensures Layered(h) && Punctual(h, ev) ==> Layered(Apply(h, ev))
    ensures Layered(h) && Monitored(h) ==> Monitored(Apply(h, ev))
  {
    hide Apply, Layered, Monitored;
    if Layered(h) && Punctual(h, ev) { StepKeepsLayers(h, ev); }
    if Layered(h) && Monitored(h) { StepKeepsMonitoring(h, ev); }
  }

  lemma EraseOne(t: DeadlineTimer, sender: I.Path)
    ensures Erase([t], sender) == if t.sender == sender then [] else [t]
  {
    assert [t][1..] == [];
  }
}
