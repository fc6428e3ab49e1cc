/**
  The hot-reload loader that Scratch loads as the extension: the `HotProxy`
  object registered once with the host, which keeps its identity while the
  implementation behind it is replaced, and the global `Scratch` object whose
  `extensions.register` it temporarily hooks. Every method here is proved
  against the functions of module Update.
 */
module Loader {
  import opened Wrappers
  import opened Descriptor
  import opened Update

  /** Which function `Scratch.extensions.register` currently is. */
  datatype Registrar = HostRegister | CaptureHook

  /** The proxy's `ws` field: null, or a WebSocket in one of its phases. */
  datatype Socket = NoSocket | Connecting | Open | Closed

  /** A push message as `onmessage` sees it: JSON with a `type`, or unparseable text. */
  datatype Message = Parsed(msgType: string) | Malformed

  /** The parts of the global `Scratch` object the loader touches. */
  class Scratch {
    /** Whether `Scratch.vm` is present (absent when no editor is attached). */
    const vm: bool
    var register: Registrar

    constructor (vm: bool)
      ensures this.vm == vm && register == HostRegister
    {
      this.vm := vm;
      register := HostRegister;
    }
  }

  class HotProxy {
    /** `TARGET_EXTENSION_ID`, substituted into the loader by the server. */
    const targetId: string
    const scratch: Scratch
    var target: Impl
    var lastHash: string
    var ws: Socket
    var isLoading: bool
    /** The method slots `__updateMethods` has assigned on the proxy. */
    var slots: map<string, Slot>
    /** What the update cycle has done outside the proxy, in order. */
    ghost var trace: seq<Effect>

    function State(): ProxyState
      reads this
    {
      ProxyState(target, lastHash, isLoading, slots)
    }

    constructor (targetId: string, scratch: Scratch)
      ensures this.targetId == targetId && this.scratch == scratch
      ensures State() == ProxyState(ConnectingTarget(targetId), "", false, map[])
      ensures ws == NoSocket && trace == []
    {
      this.targetId := targetId;
      this.scratch := scratch;
      target := ConnectingTarget(targetId);
      lastHash := "";
      ws := NoSocket;
      isLoading := false;
      slots := map[];
      trace := [];
    }

    /** `getInfo()`: the loading placeholder, or the target's descriptor with
        the control blocks pushed onto its block list and its id overwritten;
        `None` when the target's own `getInfo()` makes it throw. */
    method GetInfo() returns (info: Option<Info>)
      ensures info == Describe(targetId, isLoading, target.info)
      ensures info.Some? ==> info.value.id == targetId
      ensures isLoading ==>
        info.Some? && |info.value.blocks| == 1 && info.value.blocks[0].Block? && info.value.blocks[0].opcode == LoadingOpcode
      ensures !isLoading ==> (info.Some? <==> target.info.Some?)
      ensures !isLoading && info.Some? ==> info.value.blocks == BlocksOf(target.info.value) + [Separator, ForceReloadBlock]
    {
      if isLoading {
        return Some(Info(targetId, LoadingName, Some(LoadingColor), [LoadingBlock]));
      }
      if target.info.None? {
        return None;
      }
      var raw := target.info.value;
      var blocks := if raw.blocks.Some? then raw.blocks.value else [];
      blocks := blocks + [Separator];
      blocks := blocks + [ForceReloadBlock];
      assert blocks == BlocksOf(raw) + [Separator, ForceReloadBlock];
      var result := Info(raw.id, raw.name, raw.color1, blocks);
      result := result.(id := targetId);
      info := Some(result);
    }

    /** `__updateMethods(newTarget)`: bind every prototype name but
        `constructor` and `getInfo` onto the proxy, then adopt the target.
        A member that is not a function makes `.bind` throw part-way, with
        the earlier slots already assigned and `target` not yet replaced; a
        `null` prototype throws before any slot is assigned. */
    method UpdateMethods(newTarget: Impl) returns (ok: bool)
      modifies this`slots, this`target
      ensures var r := Update.UpdateMethods(old(State()), newTarget);
        ok == r.ok && State() == r.state
    {
      if newTarget.nullProto {
        return false;
      }
      var n := BindPrototype(newTarget);
      if n < |newTarget.proto| {
        return false;
      }
      assert newTarget.proto[..n] == newTarget.proto;
      target := newTarget;
      ok := true;
    }

    /** The `forEach` of `__updateMethods`: the slots of the names bound
        before it stops, and how many members it got through. */
    method BindPrototype(newTarget: Impl) returns (n: nat)
      modifies this`slots
      ensures n == CallablePrefix(newTarget.proto)
      ensures slots == Rebind(old(slots), newTarget.key, newTarget.proto[..n])
    {
      var proto := newTarget.proto;
      var i := 0;
      while i < |proto|
        invariant 0 <= i <= |proto|
        invariant forall j :: 0 <= j < i && Rebindable(proto[j].name) ==> proto[j].callable
        invariant slots == Rebind(old(slots), newTarget.key, proto[..i])
      {
        var k := proto[i].name;
        assert proto[..i + 1] == proto[..i] + [proto[i]];
        if k != "constructor" && k != "getInfo" {
          if !proto[i].callable {
            return i;
          }
          slots := slots[k := Bound(newTarget.key, k)];
          assert NamesOf(proto[..i + 1]) == NamesOf(proto[..i]) + {k};
        } else {
          assert NamesOf(proto[..i + 1]) == NamesOf(proto[..i]);
        }
        i := i + 1;
      }
      return i;
    }

    /** `Scratch.vm.extensionManager.refreshBlocks()`: the host reads `getInfo()` again. */
    method RefreshBlocks()
      modifies this`trace
      ensures trace == old(trace) + [Refresh(Shown(targetId, State()))]
    {
      var shown := GetInfo();
      trace := trace + [Refresh(shown)];
    }

    /** The `catch` block of `checkUpdate`. */
    method Recover()
      modifies this`isLoading, this`trace
      ensures var o := Update.Recover(targetId, old(State()), scratch.vm, old(trace));
        State() == o.after && trace == o.effects
    {
      isLoading := false;
      if scratch.vm {
        RefreshBlocks();
      }
    }

    /** `checkUpdate(force)`, run to completion against the network's answers. */
    method CheckUpdate(force: bool, net: Fetches)
      modifies this, scratch
      ensures var o := CheckUpdateSpec(targetId, old(State()), force, scratch.vm, net);
        State() == o.after && trace == old(trace) + o.effects
      ensures scratch.register == old(scratch.register)
      ensures ws == old(ws)
    {
      ghost var t0 := trace;
      trace := trace + [FetchVersion];
      if net.version.None? {
        Recover();
        return;
      }
      var hash := net.version.value;
      if hash != lastHash || force {
        RunUpdateAfter(targetId, State(), scratch.vm, hash, net.code, t0, [FetchVersion]);
        ApplyUpdate(hash, net.code);
      }
    }

    /** The update branch of `checkUpdate`, from recording the new hash on. */
    method ApplyUpdate(hash: string, code: Option<Payload>)
      modifies this, scratch
      ensures var o := RunUpdate(targetId, old(State()), scratch.vm, hash, code, old(trace));
        State() == o.after && trace == o.effects
      ensures scratch.register == old(scratch.register)
      ensures ws == old(ws)
    {
      lastHash := hash;
      if scratch.vm {
        isLoading := true;
        RefreshBlocks();
      }
      trace := trace + [FetchCode];
      LoadCode(code);
    }

    /** Fetching and evaluating the code with `Scratch.extensions.register`
        replaced by a capture closure, then restored whether or not the code
        threw; a captured object is rebound. */
    method LoadCode(code: Option<Payload>)
      modifies this, scratch
      ensures var o := AfterFetch(targetId, old(State()), scratch.vm, code, old(trace));
        State() == o.after && trace == o.effects
      ensures scratch.register == old(scratch.register)
      ensures ws == old(ws)
    {
      if code.None? {
        Recover();
        return;
      }
      var oldReg := scratch.register;
      scratch.register := CaptureHook;
      // evaluating the payload: each register call reaches the capture
      // closure, the last one wins, and a throw is caught and logged
      trace := trace + [Eval];
      assert scratch.register == CaptureHook;
      var captured := Captured(code.value);
      scratch.register := oldReg;
      if captured.Some? {
        var ok := UpdateMethods(captured.value);
        if !ok {
          Recover();
          return;
        }
      }
      if scratch.vm {
        isLoading := false;
        RefreshBlocks();
      }
    }

    /** `__forceReload__()`, the block the proxy appends to every steady descriptor. */
    method ForceReload(net: Fetches)
      modifies this, scratch
      ensures var o := CheckUpdateSpec(targetId, old(State()), true, scratch.vm, net);
        State() == o.after && trace == old(trace) + o.effects
      ensures scratch.register == old(scratch.register) && ws == old(ws)
    {
      CheckUpdate(true, net);
    }

    /** `tryWebSocket()` (also what `start()` does): open a new connection. */
    method TryWebSocket()
      modifies this`ws
      ensures ws == Connecting
    {
      ws := Connecting;
    }

    /** `onopen`: a forced check, since changes made while disconnected are not replayed. */
    method OnOpen(net: Fetches)
      modifies this, scratch
      ensures ws == Open
      ensures var o := CheckUpdateSpec(targetId, old(State()), true, scratch.vm, net);
        State() == o.after && trace == old(trace) + o.effects
      ensures scratch.register == old(scratch.register)
    {
      ws := Open;
      CheckUpdate(true, net);
    }

    /** `onmessage`: a forced check on a `change` message; anything else,
        including text that does not parse, is ignored. */
    method OnMessage(msg: Message, net: Fetches)
      modifies this, scratch
      ensures msg == Parsed("change") ==>
        var o := CheckUpdateSpec(targetId, old(State()), true, scratch.vm, net);
        State() == o.after && trace == old(trace) + o.effects
      ensures msg != Parsed("change") ==> State() == old(State()) && trace == old(trace)
      ensures scratch.register == old(scratch.register) && ws == old(ws)
    {
      if msg.Parsed? && msg.msgType == "change" {
        CheckUpdate(true, net);
      }
    }

    /** `onclose`: a reconnect is scheduled (a later `TryWebSocket`); no check runs. */
    method OnClose()
      modifies this`ws
      ensures ws == Closed
    {
      ws := Closed;
    }
  }
}
