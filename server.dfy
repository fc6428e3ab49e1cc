/**
  The dev server's change notification: `broadcastChange` sends the change
  message to every WebSocket client whose `readyState` is OPEN, and the
  `fsWait` flag in front of it lets the first file event with a filename
  through at once and drops every other one until its timer clears the flag
  (leading edge, not trailing).
 */
module Server {
  import opened Wrappers

  /** `WebSocket.OPEN`. */
  const OpenState: int := 1

  /** A connected client as the server sees it. */
  datatype Client = Client(id: nat, readyState: int)

  /** The clients a broadcast reaches, in the server's client order. */
  function OpenClients(cs: seq<Client>): (r: seq<Client>)
    ensures |r| <= |cs|
    ensures forall c :: c in r <==> c in cs && c.readyState == OpenState
  {
    if cs == [] then []
    else
      assert forall c :: c in cs <==> c == cs[0] || c in cs[1..];
      (if cs[0].readyState == OpenState then [cs[0]] else []) + OpenClients(cs[1..])
  }

  /** Filtering keeps the clients' order: it distributes over concatenation. */
  lemma {:induction false} OpenClientsAppend(a: seq<Client>, b: seq<Client>)
    ensures OpenClients(a + b) == OpenClients(a) + OpenClients(b)
  {
    if a == [] {
      assert a + b == b;
    } else {
      assert (a + b)[1..] == a[1..] + b;
      OpenClientsAppend(a[1..], b);
    }
  }

  /** `broadcastChange`: send to each open client and count the sends. */
  method BroadcastChange(clients: seq<Client>) returns (sent: seq<Client>, count: nat)
    ensures sent == OpenClients(clients)
    ensures count == |sent|
  {
    sent, count := [], 0;
    var i := 0;
    while i < |clients|
      invariant 0 <= i <= |clients|
      invariant sent == OpenClients(clients[..i])
      invariant count == |sent|
    {
      var client := clients[i];
      assert clients[..i + 1] == clients[..i] + [client];
      OpenClientsAppend(clients[..i], [client]);
      if client.readyState == OpenState {
        sent := sent + [client];
        count := count + 1;
      }
      i := i + 1;
    }
    assert clients[..i] == clients;
  }

  /** What the watcher reacts to: a change notification (with or without a
      filename) or the expiry of the 100 ms timer. */
  datatype WatchEvent = FsEvent(hasFilename: bool) | TimerFired

  /** The gate after one event, and whether that event broadcast. */
  datatype Gate = Gate(armed: bool, broadcast: bool)

  /** One event through the `fsWait` gate. */
  function Step(armed: bool, ev: WatchEvent): (g: Gate)
    ensures g.broadcast <==> ev == FsEvent(true) && !armed
    ensures g.broadcast ==> g.armed
    ensures ev.FsEvent? ==> (g.armed <==> armed || ev.hasFilename)
    ensures ev.TimerFired? ==> !g.armed
  {
    match ev
    case TimerFired => Gate(false, false)
    case FsEvent(hasFilename) =>
      if !hasFilename then Gate(armed, false)
      else if armed then Gate(true, false)
      else Gate(true, true)
  }

  /** The gate after a series of events, and how many broadcasts they caused. */
  datatype Tally = Tally(armed: bool, broadcasts: nat)

  function Run(armed: bool, evs: seq<WatchEvent>): Tally
    decreases |evs|
  {
    if evs == [] then Tally(armed, 0)
    else
      var g := Step(armed, evs[0]);
      var t := Run(g.armed, evs[1..]);
      Tally(t.armed, t.broadcasts + if g.broadcast then 1 else 0)
  }

  function CountTimers(evs: seq<WatchEvent>): nat
  {
    if evs == [] then 0 else (if evs[0].TimerFired? then 1 else 0) + CountTimers(evs[1..])
  }

  /** Within one window (no timer expiry): nothing is broadcast when the gate
      starts armed; from an unarmed gate exactly one broadcast happens, the
      first event with a filename, if there is one. Events without a
      filename never broadcast. */
  lemma {:induction false} OnePerWindow(armed: bool, evs: seq<WatchEvent>)
    requires forall i :: 0 <= i < |evs| ==> evs[i].FsEvent?
    ensures Run(armed, evs).broadcasts ==
      if !armed && exists i :: 0 <= i < |evs| && evs[i] == FsEvent(true) then 1 else 0
    ensures Run(armed, evs).armed <==> armed || exists i :: 0 <= i < |evs| && evs[i] == FsEvent(true)
    decreases |evs|
  {
    if evs != [] {
      var g := Step(armed, evs[0]);
      OnePerWindow(g.armed, evs[1..]);
      assert forall i :: 1 <= i < |evs| ==> evs[i] == evs[1..][i - 1];
      if exists i :: 0 <= i < |evs[1..]| && evs[1..][i] == FsEvent(true) {
        var i :| 0 <= i < |evs[1..]| && evs[1..][i] == FsEvent(true);
        assert evs[i + 1] == FsEvent(true);
      }
    }
  }

  /** Over any series of events, each timer expiry re-opens the gate at most
      once: broadcasts never outnumber the timers by more than one, and
      not at all from an armed gate. */
  lemma {:induction false} BroadcastsBoundedByTimers(armed: bool, evs: seq<WatchEvent>)
    ensures Run(armed, evs).broadcasts + (if armed then 1 else 0) <= CountTimers(evs) + 1
    ensures Run(armed, evs).broadcasts + (if Run(armed, evs).armed then 0 else 1) <= CountTimers(evs) + (if armed then 0 else 1)
    decreases |evs|
  {
    if evs != [] {
      BroadcastsBoundedByTimers(Step(armed, evs[0]).armed, evs[1..]);
    }
  }

  /** The watcher callback and its module-level `fsWait` flag. */
  class Watcher {
    var fsWait: bool

    constructor ()
      ensures !fsWait
    {
      fsWait := false;
    }

    /** `fs.watch` callback: with a filename and the gate open, arm the gate
        (the timer handle is truthy until the timer clears it) and broadcast
        at once; otherwise do nothing. */
    method OnFsEvent(hasFilename: bool, clients: seq<Client>) returns (sent: Option<seq<Client>>)
      modifies this
      ensures var g := Step(old(fsWait), FsEvent(hasFilename));
        fsWait == g.armed && (sent.Some? <==> g.broadcast)
      ensures sent.Some? ==> sent.value == OpenClients(clients)
    {
      sent := None;
      if hasFilename {
        if fsWait {
          return;
        }
        fsWait := true;
        var recipients, _ := BroadcastChange(clients);
        sent := Some(recipients);
      }
    }

    /** The 100 ms timer: `fsWait = false`. */
    method OnTimerFired()
      modifies this
      ensures fsWait == Step(old(fsWait), TimerFired).armed
    {
      fsWait := false;
    }
  }
}
