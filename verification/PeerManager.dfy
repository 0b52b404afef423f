/** `peer_manager` and its entries as objects updated in place, each method proved to take the
    step of the machine that its signal handler or posted handler stands for. */
module PeerManagers {
  import opened IoContext
  import opened Peers

  class PeerEntry {
    var connected: bool
    var verified: bool
    var queue: seq<Bytes>
    /** What the entry's client was given. */
    var client: seq<Bytes>
    ghost var submitted: seq<Bytes>

    ghost function View(): Peer
      reads this
    {
      Peer(connected, verified, queue, client, submitted)
    }

    constructor ()
      ensures View() == NEW_PEER
    {
      connected, verified, queue, client, submitted := false, false, [], [], [];
    }

    method FlushQueue()
      modifies this`queue, this`client
      ensures View() == Flush(old(View()))
    {
      if !connected {
        return;
      }
      if verified {
        ghost var had := client;
        for i := 0 to |queue|
          invariant queue == old(queue) && client == had + queue[..i]
        {
          client := client + [queue[i]];
        }
        assert queue[..|queue|] == queue;
      }
      queue := [];
    }

    method AsyncSend(v: Bytes)
      modifies this
      ensures View() == Submit(old(View()), v)
    {
      FlushQueue();
      if connected && verified {
        client := client + [v];
      } else {
        queue := queue + [v];
      }
      submitted := submitted + [v];
    }

    /** The handler of the client's `connected` signal. */
    method OnConnected(verdict: bool)
      modifies this
      ensures View() == Admit(old(View()), verdict)
    {
      connected := true;
      verified := verdict;
      FlushQueue();
    }
  }

  /** The comparison takes every byte into account and finds exactly the equal sequences. */
  method ConstantTimeEqual(a: Bytes, b: Bytes) returns (equal: bool)
    ensures equal <==> a == b
  {
    if |a| != |b| {
      return false;
    }
    var diff: bv8 := 0;
    for i := 0 to |a|
      invariant diff == 0 <==> a[..i] == b[..i]
    {
      OrOfXor(diff, a[i], b[i]);
      diff := diff | (a[i] ^ b[i]);
      assert a[..i + 1] == a[..i] + [a[i]] && b[..i + 1] == b[..i] + [b[i]];
    }
    assert a[..|a|] == a && b[..|a|] == b;
    return diff == 0;
  }

  lemma OrOfXor(diff: bv8, x: bv8, y: bv8)
    ensures diff | (x ^ y) == 0 <==> diff == 0 && x == y
  {
  }

  ghost function Peered(entries: map<Path, PeerEntry>): (peers: map<Path, Peer>)
    reads entries.Values
    ensures peers.Keys == entries.Keys && forall p :: p in entries ==> peers[p] == entries[p].View()
  {
    map p | p in entries :: entries[p].View()
  }

  class PeerManager {
    var entries: map<Path, PeerEntry>
    var secrets: map<Path, Bytes>
    var signals: seq<Signal>

    ghost predicate Valid()
      reads this
    {
      forall p, q :: p in entries && q in entries && p != q ==> entries[p] != entries[q]
    }

    ghost function View(): State
      reads this, entries.Values
    {
      State(Peered(entries), secrets, signals)
    }

    constructor ()
      ensures Valid() && View() == INIT
    {
      entries, secrets, signals := map[], map[], [];
    }

    /** The handler posted by `async_send`. */
    method AsyncSend(path: Path, v: Bytes)
      requires Valid()
      modifies this`entries, entries.Values
      ensures Valid() && View() == Apply(old(View()), Send(path, v))
      ensures forall o <- entries.Values :: o in old(entries.Values) || fresh(o)
    {
      hide Submit;
      TryEmplace(path);
      SendThrough(path, v);
    }

    method SendThrough(path: Path, v: Bytes)
      requires Valid() && path in entries
      modifies entries[path]
      ensures Valid() && View() == (var s := old(View()); s.(entries := s.entries[path := Submit(s.entries[path], v)]))
    {
      hide Submit;
      entries[path].AsyncSend(v);
    }

    method TryEmplace(path: Path)
      requires Valid()
      modifies this`entries
      ensures Valid() && path in entries
      ensures View() == (var s := old(View()); if path in s.entries then s else s.(entries := s.entries[path := NEW_PEER]))
      ensures forall o <- entries.Values :: o in old(entries.Values) || fresh(o)
    {
      if path !in entries {
        var e := new PeerEntry();
        entries := entries[path := e];
      }
    }

    /** The handler of the `connected` signal of the entry's client. */
    method OnConnected(path: Path, verdict: bool)
      requires Valid() && path in entries && !entries[path].connected
      modifies entries[path]
      ensures Valid() && View() == Apply(old(View()), Connected(path, verdict))
    {
      entries[path].OnConnected(verdict);
    }

    method Erase(path: Path)
      requires Valid()
      modifies this`entries, this`secrets
      ensures Valid() && View() == Forget(old(View()), path)
    {
      entries := entries - {path};
      secrets := secrets - {path};
    }

    method Emit(signal: Signal)
      requires Valid()
      modifies this`signals
      ensures Valid() && View() == old(View()).(signals := old(signals) + [signal])
    {
      signals := signals + [signal];
    }

    method OnConnectFailed(path: Path)
      requires Valid() && path in entries
      modifies this`entries, this`secrets, this`signals
      ensures Valid() && View() == Apply(old(View()), ConnectFailed(path))
    {
      Erase(path);
      Emit(PeerError(path));
    }

    method CountVerified() returns (count: nat)
      requires Valid()
      ensures count == |VerifiedPaths(View().entries)|
    {
      count := 0;
      var rest := entries.Keys;
      ghost var counted: set<Path> := {};
      while rest != {}
        invariant rest <= entries.Keys
        invariant counted == set p | p in entries && p !in rest && entries[p].verified
        invariant count == |counted|
        decreases |rest|
      {
        var p :| p in rest;
        rest := rest - {p};
        if entries[p].verified {
          count := count + 1;
          counted := counted + {p};
        }
      }
      assert counted == VerifiedPaths(View().entries);
    }

    method OnClosed(path: Path)
      requires Valid() && path in entries
      modifies this`entries, this`secrets, this`signals
      ensures Valid() && View() == Apply(old(View()), Closed(path))
    {
      Erase(path);
      var remaining := CountVerified();
      Emit(PeerClosed(path, remaining));
    }

    method InsertSharedSecret(path: Path, secret: Bytes)
      requires Valid()
      modifies this`secrets
      ensures Valid() && View() == Apply(old(View()), InsertSecret(path, secret))
    {
      secrets := secrets[path := secret];
    }

    method VerifySharedSecret(path: Path, secret: Bytes) returns (ok: bool)
      ensures ok <==> path in secrets && secrets[path] == secret
    {
      if path !in secrets {
        return false;
      }
      ok := ConstantTimeEqual(secrets[path], secret);
    }

    method FindSharedSecret(path: Path) returns (secret: Option<Bytes>)
      ensures forall s :: secret == Some(s) <==> path in secrets && secrets[path] == s
    {
      secret := if path in secrets then Some(secrets[path]) else None;
    }
  }

  /** A manager whose state is that of a history verifies a secret exactly when the last event
      on it for the path inserted an equal one. */
  method VerifyAgainstHistory(m: PeerManager, ghost evs: seq<Event>, path: Path, secret: Bytes) returns (ok: bool)
    requires m.Valid() && Possible(evs) && m.View() == After(evs)
    ensures ok <==> Peers.Secret(evs, path) == Some(secret)
  {
    ok := m.VerifySharedSecret(path, secret);
    SecretsRefineHistory(evs, path, secret);
  }
}
