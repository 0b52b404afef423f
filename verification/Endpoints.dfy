/** `client` and `server` as objects updated in place by the dispatcher thread, each method
    proved to take the step of the machine in `Facades` that its handler stands for. */
module Endpoints {
  import opened IoContext
  import E = Engine
  import F = Facades

  class Client {
    var impl: bool
    var reconnectInterval: Option<nat>
    /** The reconnect timer: whether it has a function, and its delayed starts. */
    var timerRunning: bool
    var deferred: nat
    var queue: seq<F.Task>
    var pushed: seq<nat>
    // History
    ghost var attempts: nat
    ghost var scheduled: seq<nat>

    ghost function View(): F.State
      reads this
    {
      F.State.State(E.Client, impl, reconnectInterval.Some?, timerRunning, deferred, queue, attempts, pushed, scheduled)
    }

    constructor (reconnectInterval: Option<nat>)
      ensures View() == F.Init(E.Client, reconnectInterval.Some?)
    {
      impl, this.reconnectInterval, timerRunning, deferred, queue := true, reconnectInterval, false, 0, [];
      pushed, attempts, scheduled := [], 0, [];
    }

    method Connect()
      modifies this`attempts
      ensures View() == F.Attempt(old(View()))
    {
      if impl {
        attempts := attempts + 1;
      }
    }

    method Stop()
      modifies this`reconnectInterval, this`impl
      ensures View() == F.HandleStop(old(View())) && F.Stopped(View())
    {
      // The interval first: closing must not start the reconnect timer.
      reconnectInterval := None;
      impl := false;
    }

    method StartReconnectTimer()
      modifies this`deferred, this`queue
      ensures View() == F.StartReconnectTimer(old(View()))
    {
      if reconnectInterval.Some? {
        deferred := deferred + 1;
      } else {
        queue := queue + [F.TimerStop];
      }
    }

    /** The handler of the engine's signals that it failed or closed. */
    method OnLost()
      modifies this`deferred, this`queue
      ensures View() == F.HandleLost(old(View()))
      ensures deferred == old(deferred) + if reconnectInterval.Some? then 1 else 0
    {
      StartReconnectTimer();
    }

    method OnTick()
      modifies this`queue, this`attempts
      ensures View() == F.HandleTick(old(View()))
    {
      if reconnectInterval.None? {
        queue := queue + [F.TimerStop];
      }
      Connect();
    }

    /** The handler posted by `async_send`. */
    method OnSend(id: nat, callback: bool)
      modifies this`queue, this`pushed, this`scheduled
      ensures View() == F.HandleSend(old(View()), id, callback)
      ensures pushed == old(pushed) + if impl then [id] else []
      ensures scheduled == old(scheduled) + if !impl && callback then [id] else []
    {
      if impl {
        pushed := pushed + [id];
      } else if callback {
        scheduled := scheduled + [id];
        queue := queue + [F.CallProcessed(id)];
      }
    }

    method RunOne()
      requires queue != []
      modifies this
      ensures View() == F.Apply(old(View()), F.Event.Run)
      ensures old(F.Stopped(View())) ==> F.Stopped(View()) && pushed == old(pushed) && attempts == old(attempts)
    {
      ghost var before := View();
      var t := queue[0];
      queue := queue[1..];
      match t {
        case Start => Connect();
        case Stop => Stop();
        case Send(id, callback) => OnSend(id, callback);
        case TimerStart => queue := queue + [F.TimerTick]; timerRunning := true;
        case TimerStop => timerRunning := false;
        case TimerTick => OnTick();
        case CallProcessed(_) =>
      }
    }
  }

  class Server {
    var impl: bool
    var reconnectInterval: Option<nat>
    /** The reconnect timer: whether it has a function, and its delayed starts. */
    var timerRunning: bool
    var deferred: nat
    var queue: seq<F.Task>
    var pushed: seq<nat>
    // History
    ghost var attempts: nat
    ghost var scheduled: seq<nat>

    ghost function View(): F.State
      reads this
    {
      F.State.State(E.Server, impl, reconnectInterval.Some?, timerRunning, deferred, queue, attempts, pushed, scheduled)
    }

    constructor (reconnectInterval: Option<nat>)
      ensures View() == F.Init(E.Server, reconnectInterval.Some?)
    {
      impl, this.reconnectInterval, timerRunning, deferred, queue := false, reconnectInterval, false, 0, [];
      pushed, attempts, scheduled := [], 0, [];
    }

    method Bind()
      modifies this`impl, this`attempts
      ensures View() == F.Attempt(old(View()))
    {
      if impl {
        return;
      }
      impl := true;
      attempts := attempts + 1;
    }

    method Stop()
      modifies this`reconnectInterval, this`impl
      ensures View() == F.HandleStop(old(View())) && F.Stopped(View())
    {
      // The interval first: closing must not start the reconnect timer.
      reconnectInterval := None;
      impl := false;
    }

    method StartReconnectTimer()
      modifies this`deferred, this`queue
      ensures View() == F.StartReconnectTimer(old(View()))
    {
      if reconnectInterval.Some? {
        deferred := deferred + 1;
      } else {
        queue := queue + [F.TimerStop];
      }
    }

    /** The handler of the engine's signals that it failed or closed. */
    method OnLost()
      modifies this`deferred, this`queue, this`impl
      ensures View() == F.HandleLost(old(View()))
      ensures !impl && deferred == old(deferred) + if reconnectInterval.Some? then 1 else 0
    {
      impl := false;
      StartReconnectTimer();
    }

    method OnTick()
      modifies this`queue, this`impl, this`attempts
      ensures View() == F.HandleTick(old(View()))
    {
      if reconnectInterval.None? {
        queue := queue + [F.TimerStop];
      }
      Bind();
    }

    /** The handler posted by `async_send`. */
    method OnSend(id: nat, callback: bool)
      modifies this`queue, this`pushed, this`scheduled
      ensures View() == F.HandleSend(old(View()), id, callback)
      ensures pushed == old(pushed) + if impl then [id] else []
      ensures scheduled == old(scheduled) + if !impl && callback then [id] else []
    {
      if impl {
        pushed := pushed + [id];
      } else if callback {
        scheduled := scheduled + [id];
        queue := queue + [F.CallProcessed(id)];
      }
    }

    method RunOne()
      requires queue != []
      modifies this
      ensures View() == F.Apply(old(View()), F.Event.Run)
      ensures old(F.Stopped(View())) && !old(F.Haunted(View())) ==> F.Stopped(View()) && attempts == old(attempts)
    {
      ghost var before := View();
      var t := queue[0];
      queue := queue[1..];
      match t {
        case Start => Bind();
        case Stop => Stop();
        case Send(id, callback) => OnSend(id, callback);
        case TimerStart => queue := queue + [F.TimerTick]; timerRunning := true;
        case TimerStop => timerRunning := false;
        case TimerTick => OnTick();
        case CallProcessed(_) =>
      }
      assert before.queue[0] in before.queue;
    }
  }
}
