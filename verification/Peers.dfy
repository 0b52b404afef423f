/** `extra/peer_manager.hpp` as a machine: peers keyed by socket path, each holding messages
    back until it is connected and verified, and the shared secrets. */
module Peers {
  import opened IoContext

  type Bytes = seq<bv8>

  /** An entry. `forwarded` is what its client was given to send; `submitted` is history. */
  datatype Peer = Peer(connected: bool, verified: bool, queue: seq<Bytes>, forwarded: seq<Bytes>, submitted: seq<Bytes>)

  datatype Signal =
    | PeerClosed(path: Path, remaining: nat)
    | PeerError(path: Path)
    | PeerWarning(path: Path)

  datatype State = State(entries: map<Path, Peer>, secrets: map<Path, Bytes>, signals: seq<Signal>)

  datatype Event =
    | Send(path: Path, message: Bytes)
    | InsertSecret(path: Path, secret: Bytes)
    // Signals of the entry's client
    | Connected(path: Path, verified: bool)       // with the verdict of the user's `verify_peer`
    | ConnectFailed(path: Path)
    | Closed(path: Path)
    | ErrorOccurred(path: Path)
    | WarningReported(path: Path)

  const NEW_PEER := Peer(false, false, [], [], [])

  const INIT := State(map[], map[], [])

  function Flush(e: Peer): Peer {
    if !e.connected then e
    else e.(forwarded := if e.verified then e.forwarded + e.queue else e.forwarded, queue := [])
  }

  function Submit(e: Peer, message: Bytes): Peer {
    var f := Flush(e).(submitted := e.submitted + [message]);
    if f.connected && f.verified then f.(forwarded := f.forwarded + [message])
    else f.(queue := f.queue + [message])
  }

  function Admit(e: Peer, verified: bool): Peer {
    Flush(e.(connected := true, verified := verified))
  }

  function VerifiedPaths(entries: map<Path, Peer>): set<Path> {
    set p | p in entries && entries[p].verified
  }

  function Forget(s: State, path: Path): State {
    s.(entries := s.entries - {path}, secrets := s.secrets - {path})
  }

  /** A client signals only while its entry is there; it has no reconnect interval, so that it
      connects at most once. */
  predicate Enabled(s: State, ev: Event) {
    match ev
    case Send(_, _) => true
    case InsertSecret(_, _) => true
    case Connected(p, _) => p in s.entries && !s.entries[p].connected
    case _ => ev.path in s.entries
  }

  function Apply(s: State, ev: Event): State
    requires Enabled(s, ev)
  {
    match ev
    case Send(p, v) => s.(entries := s.entries[p := Submit(if p in s.entries then s.entries[p] else NEW_PEER, v)])
    case InsertSecret(p, secret) => s.(secrets := s.secrets[p := secret])
    case Connected(p, verified) => s.(entries := s.entries[p := Admit(s.entries[p], verified)])
    case ConnectFailed(p) => Forget(s, p).(signals := s.signals + [PeerError(p)])
    case Closed(p) =>
      var s' := Forget(s, p);
      s'.(signals := s.signals + [PeerClosed(p, |VerifiedPaths(s'.entries)|)])
    case ErrorOccurred(p) => s.(signals := s.signals + [PeerError(p)])
    case WarningReported(p) => s.(signals := s.signals + [PeerWarning(p)])
  }

  predicate Possible(evs: seq<Event>)
    decreases |evs|, 0
  {
    evs == [] || (Possible(evs[..|evs| - 1]) && Enabled(After(evs[..|evs| - 1]), evs[|evs| - 1]))
  }

  function After(evs: seq<Event>): State
    requires Possible(evs)
    decreases |evs|, 1
  {
    if evs == [] then INIT else Apply(After(evs[..|evs| - 1]), evs[|evs| - 1])
  }

  // ---- What the history of a path says ----

  predicate Ends(ev: Event, p: Path) {
    (ev.ConnectFailed? || ev.Closed?) && ev.path == p
  }

  /** Something was sent to the path since it last closed or failed to connect. */
  predicate Alive(evs: seq<Event>, p: Path) {
    if evs == [] then false
    else
      var before, ev := evs[..|evs| - 1], evs[|evs| - 1];
      if Ends(ev, p) then false else (ev.Send? && ev.path == p) || Alive(before, p)
  }

  /** The verdict on the path since it last closed or failed to connect. */
  function Verdict(evs: seq<Event>, p: Path): Option<bool> {
    if evs == [] then None
    else
      var before, ev := evs[..|evs| - 1], evs[|evs| - 1];
      if Ends(ev, p) then None
      else if ev.Connected? && ev.path == p then Some(ev.verified)
      else Verdict(before, p)
  }

  /** What was sent to the path since it last closed or failed to connect, and, if `anew`,
      since it connected. */
  function SentTo(evs: seq<Event>, p: Path, anew: bool): seq<Bytes> {
    if evs == [] then []
    else
      var before, ev := evs[..|evs| - 1], evs[|evs| - 1];
      if Ends(ev, p) || (anew && ev.Connected? && ev.path == p) then []
      else SentTo(before, p, anew) + (if ev.Send? && ev.path == p then [ev.message] else [])
  }

  /** The last insertion since the path last closed or failed to connect. */
  function Secret(evs: seq<Event>, p: Path): Option<Bytes> {
    if evs == [] then None
    else
      var before, ev := evs[..|evs| - 1], evs[|evs| - 1];
      if Ends(ev, p) then None
      else if ev.InsertSecret? && ev.path == p then Some(ev.secret)
      else Secret(before, p)
  }

  /** The paths that are alive with a favourable verdict. */
  function Trusted(evs: seq<Event>): set<Path> {
    set ev | ev in evs && Alive(evs, ev.path) && Verdict(evs, ev.path) == Some(true) :: ev.path
  }

  function LastOnly(messages: seq<Bytes>): seq<Bytes> {
    if messages == [] then [] else [messages[|messages| - 1]]
  }

  // ---- The machine agrees with the history ----

  /** What the history makes of one entry: everything sent is forwarded or held back, in order,
      until it is refused; a refused peer is forwarded nothing, and of what was sent to it since
      only the last message is still held. */
  predicate Gated(e: Peer, evs: seq<Event>, p: Path) {
    && e.connected == Verdict(evs, p).Some?
    && e.verified == (Verdict(evs, p) == Some(true))
    && e.submitted == SentTo(evs, p, false)
    && match Verdict(evs, p)
       case None => e.forwarded == [] && e.queue == SentTo(evs, p, false)
       case Some(true) => e.forwarded == SentTo(evs, p, false) && e.queue == []
       case Some(false) => e.forwarded == [] && e.queue == LastOnly(SentTo(evs, p, true))
  }

  predicate Agrees(s: State, evs: seq<Event>, p: Path) {
    && (p in s.entries <==> Alive(evs, p))
    && (p in s.entries ==> Gated(s.entries[p], evs, p))
    && (p !in s.entries ==> Verdict(evs, p).None? && SentTo(evs, p, false) == [])
    && Secret(evs, p) == if p in s.secrets then Some(s.secrets[p]) else None
  }

  /** One step, seen from one path. */
  lemma StepAgrees(before: seq<Event>, ev: Event, p: Path)
    requires Possible(before) && Enabled(After(before), ev)
    requires Agrees(After(before), before, p)
    ensures Agrees(Apply(After(before), ev), before + [ev], p)
  {
    var s := After(before);
    assert (before + [ev])[..|before|] == before;
    if ev.path != p {
      OthersAgree(s, before, ev, p);
    } else {
      assert SentTo(before, p, false) + [] == SentTo(before, p, false);
      assert SentTo(before, p, true) + [] == SentTo(before, p, true);
      match ev {
        case Send(_, v) => SendAgrees(s, before, p, v);
        case _ =>
      }
    }
  }

  lemma SendAgrees(s: State, before: seq<Event>, p: Path, v: Bytes)
    requires Agrees(s, before, p)
    ensures Agrees(Apply(s, Send(p, v)), before + [Send(p, v)], p)
  {
    var evs := before + [Send(p, v)];
    assert (before + [Send(p, v)])[..|before|] == before;
    assert SentTo(evs, p, false) == SentTo(before, p, false) + [v];
    assert SentTo(evs, p, true) == SentTo(before, p, true) + [v];
    assert forall anew :: SentTo(evs, p, anew) == SentTo(before, p, anew) + [v];
    assert Verdict(evs, p) == Verdict(before, p) && Secret(evs, p) == Secret(before, p) && Alive(evs, p);
    assert SentTo(before, p, false) == [] || p in s.entries;
    hide SentTo, Verdict, Secret, Alive;
    SubmitGates(if p in s.entries then s.entries[p] else NEW_PEER, before, evs, p, v);
  }

  /** What submitting does to an entry that its history made. */
  lemma SubmitGates(e: Peer, before: seq<Event>, evs: seq<Event>, p: Path, v: Bytes)
    requires Gated(e, before, p) || (e == NEW_PEER && Verdict(before, p).None? && SentTo(before, p, false) == [])
    requires Verdict(evs, p) == Verdict(before, p)
    requires forall anew :: SentTo(evs, p, anew) == SentTo(before, p, anew) + [v]
    ensures Gated(Submit(e, v), evs, p)
  {
    assert SentTo(evs, p, false) == SentTo(before, p, false) + [v] && SentTo(evs, p, true) == SentTo(before, p, true) + [v];
    hide SentTo, Verdict;
  }

  lemma OthersAgree(s: State, before: seq<Event>, ev: Event, p: Path)
    requires Enabled(s, ev) && Agrees(s, before, p) && ev.path != p
    ensures Agrees(Apply(s, ev), before + [ev], p)
  {
    var evs, s' := before + [ev], Apply(s, ev);
    assert (before + [ev])[..|before|] == before;
    forall anew ensures SentTo(evs, p, anew) == SentTo(before, p, anew) {
      assert SentTo(before, p, anew) + [] == SentTo(before, p, anew);
    }
    assert p in s'.entries <==> p in s.entries;
    assert p in s.entries ==> s'.entries[p] == s.entries[p];
    assert p in s'.secrets <==> p in s.secrets;
    assert p in s.secrets ==> s'.secrets[p] == s.secrets[p];
  }

  lemma {:induction false} RunsAgree(evs: seq<Event>, p: Path)
    requires Possible(evs)
    ensures Agrees(After(evs), evs, p)
  {
    if evs != [] {
      var before, ev := evs[..|evs| - 1], evs[|evs| - 1];
      RunsAgree(before, p);
      StepAgrees(before, ev, p);
      assert before + [ev] == evs;
    }
  }

  // ---- Main results ----

  /** An entry exists exactly for the paths sent to since they last closed or failed. */
  lemma EntriesRefineHistory(evs: seq<Event>, p: Path)
    requires Possible(evs)
    ensures p in After(evs).entries <==> Alive(evs, p)
    ensures p in After(evs).entries ==> After(evs).entries[p].verified == (Verdict(evs, p) == Some(true))
  {
    RunsAgree(evs, p);
  }

  /** Until a peer is refused, what was forwarded followed by what is held back is everything
      sent to it; a refused peer is forwarded nothing and one message at most is held. */
  lemma Gating(evs: seq<Event>, p: Path)
    requires Possible(evs) && p in After(evs).entries
    ensures var e, all := After(evs).entries[p], SentTo(evs, p, false);
            && (!e.connected || e.verified ==> e.forwarded + e.queue == all)
            && (!e.connected ==> e.forwarded == [])
            && (e.connected && e.verified ==> e.queue == [])
            && (e.connected && !e.verified ==>
                  e.forwarded == [] && |e.queue| <= 1 && e.queue == LastOnly(SentTo(evs, p, true)))
  {
    RunsAgree(evs, p);
  }

  /** Nothing reaches a client before a favourable verdict on its peer. */
  lemma ForwardedOnlyWhenTrusted(evs: seq<Event>, p: Path)
    requires Possible(evs) && p in After(evs).entries && After(evs).entries[p].forwarded != []
    ensures p in Trusted(evs) && After(evs).entries[p].forwarded == SentTo(evs, p, false)
  {
    RunsAgree(evs, p);
    AliveMentioned(evs, p);
  }

  lemma {:induction false} AliveMentioned(evs: seq<Event>, p: Path)
    requires Alive(evs, p)
    ensures exists ev :: ev in evs && ev.path == p
  {
    var before, ev := evs[..|evs| - 1], evs[|evs| - 1];
    if !(ev.Send? && ev.path == p) {
      AliveMentioned(before, p);
    }
  }

  /** The number reported with a close is that of the other paths that are alive with a
      favourable verdict. */
  lemma CloseReportsTrusted(evs: seq<Event>, p: Path)
    requires Possible(evs) && p in After(evs).entries
    ensures Possible(evs + [Closed(p)])
    ensures After(evs + [Closed(p)]).signals == After(evs).signals + [PeerClosed(p, |Trusted(evs) - {p}|)]
  {
    assert (evs + [Closed(p)])[..|evs|] == evs;
    var s' := Forget(After(evs), p);
    forall q ensures q in VerifiedPaths(s'.entries) <==> q in Trusted(evs) - {p} {
      RunsAgree(evs, q);
      if Alive(evs, q) { AliveMentioned(evs, q); }
    }
    assert VerifiedPaths(s'.entries) == Trusted(evs) - {p};
  }

  /** What is signalled of an event: an error for a failed connect or an error of the client, a
      warning for a warning, a close with the other trusted paths for a close. */
  function SignalOf(before: seq<Event>, ev: Event): seq<Signal> {
    match ev
    case ConnectFailed(p) => [PeerError(p)]
    case ErrorOccurred(p) => [PeerError(p)]
    case WarningReported(p) => [PeerWarning(p)]
    case Closed(p) => [PeerClosed(p, |Trusted(before) - {p}|)]
    case _ => []
  }

  function SignalsOf(evs: seq<Event>): seq<Signal> {
    if evs == [] then []
    else SignalsOf(evs[..|evs| - 1]) + SignalOf(evs[..|evs| - 1], evs[|evs| - 1])
  }

  lemma StepSignals(before: seq<Event>, ev: Event)
    requires Possible(before + [ev]) && Possible(before) && Enabled(After(before), ev)
    ensures After(before + [ev]).signals == After(before).signals + SignalOf(before, ev)
  {
    assert (before + [ev])[..|before|] == before;
    if ev.Closed? { CloseReportsTrusted(before, ev.path); }
    hide Trusted, VerifiedPaths, Possible;
  }

  /** Over every run the signals are those of its events, in order and with nothing else. */
  lemma {:induction false} SignalsRefineHistory(evs: seq<Event>)
    requires Possible(evs)
    ensures After(evs).signals == SignalsOf(evs)
  {
    if evs != [] {
      var before, ev := evs[..|evs| - 1], evs[|evs| - 1];
      SignalsRefineHistory(before);
      assert before + [ev] == evs;
      hide Trusted, VerifiedPaths, SignalOf;
      StepSignals(before, ev);
    }
  }

  /** A secret is there exactly when the last insertion for the path is not followed by its
      close or its failure to connect. */
  lemma SecretsRefineHistory(evs: seq<Event>, p: Path, secret: Bytes)
    requires Possible(evs)
    ensures p in After(evs).secrets && After(evs).secrets[p] == secret <==> Secret(evs, p) == Some(secret)
  {
    RunsAgree(evs, p);
  }
}
