/**
  The update cycle of the hot-reload loader as functions over the proxy's
  state: `__updateMethods` (rebinding method slots from a captured
  implementation) and one run of `checkUpdate(force)`, with the network, the
  evaluated payload and the host's `refreshBlocks` abstracted into inputs and
  an effect list. The class in module Loader is proved against these.
 */
module Update {
  import opened Wrappers
  import opened Descriptor

  /** An own property name of an implementation's prototype, and whether its
      value is a function (`.bind` throws a TypeError otherwise). */
  datatype Member = Member(name: string, callable: bool)

  /** An implementation object: its identity, what its `getInfo()` gives
      (see `Describe`), whether its prototype is `null` (then
      `Object.getOwnPropertyNames` throws), and the own property names of its
      prototype in enumeration order. */
  datatype Impl = Impl(key: nat, info: Option<RawInfo>, nullProto: bool, proto: seq<Member>)

  /** A method slot of the proxy: `owner[name]` bound to `owner`. */
  datatype Slot = Bound(owner: nat, name: string)

  /** The proxy's fields that the update cycle reads and writes. Slots absent
      from `slots` resolve to the proxy's own prototype methods. */
  datatype ProxyState = ProxyState(target: Impl, lastHash: string, isLoading: bool, slots: map<string, Slot>)

  /** The implementation the proxy starts with: an object literal whose
      `getInfo` reports the configured id, a "connecting" name and no blocks. */
  function ConnectingTarget(id: string): Impl
  {
    Impl(0, Some(RawInfo(id, "连接中...", None, Some([]))), false, [])
  }

  /** `__updateMethods` skips `constructor` and `getInfo`. */
  predicate Rebindable(name: string)
  {
    name != "constructor" && name != "getInfo"
  }

  /** The names a prototype's members would be rebound under. */
  function NamesOf(ms: seq<Member>): set<string>
  {
    set m | m in ms && Rebindable(m.name) :: m.name
  }

  predicate AllCallable(ms: seq<Member>)
  {
    forall i :: 0 <= i < |ms| && Rebindable(ms[i].name) ==> ms[i].callable
  }

  /** `__updateMethods` runs to the end on this object. */
  predicate Adoptable(impl: Impl)
  {
    !impl.nullProto && AllCallable(impl.proto)
  }

  /** The slot table after binding every rebindable name of `ms` to `key`. */
  function Rebind(slots: map<string, Slot>, key: nat, ms: seq<Member>): (r: map<string, Slot>)
    ensures forall k :: k in NamesOf(ms) ==> k in r && r[k] == Bound(key, k)
    ensures forall k :: k in slots && k !in NamesOf(ms) ==> k in r && r[k] == slots[k]
    ensures forall k :: k in r ==> k in slots || k in NamesOf(ms)
  {
    map k | k in slots.Keys + NamesOf(ms) :: if k in NamesOf(ms) then Bound(key, k) else slots[k]
  }

  /** How many members the `forEach` of `__updateMethods` gets through before
      `.bind` throws: the index of the first rebindable member that is not a
      function, or the whole length. */
  function CallablePrefix(ms: seq<Member>): (n: nat)
    ensures n <= |ms|
    ensures forall i :: 0 <= i < n && Rebindable(ms[i].name) ==> ms[i].callable
    ensures n < |ms| ==> Rebindable(ms[n].name) && !ms[n].callable
  {
    if ms == [] then 0
    else if Rebindable(ms[0].name) && !ms[0].callable then 0
    else
      var n := 1 + CallablePrefix(ms[1..]);
      assert forall i :: 1 <= i < n ==> ms[i] == ms[1..][i - 1];
      n
  }

  /** The outcome of `__updateMethods`: whether it ran to the end, and the state. */
  datatype Rebound = Rebound(ok: bool, state: ProxyState)

  /** The members `__updateMethods` binds before it stops: none for a `null`
      prototype, otherwise those before the first non-function. */
  function BoundPart(impl: Impl): seq<Member>
  {
    if impl.nullProto then [] else impl.proto[..CallablePrefix(impl.proto)]
  }

  /** `__updateMethods(newTarget)`. */
  function UpdateMethods(s: ProxyState, impl: Impl): (r: Rebound)
    ensures r.ok <==> Adoptable(impl)
    ensures r.ok ==> r.state.target == impl
    ensures r.ok ==> forall k :: k in NamesOf(impl.proto) ==> k in r.state.slots && r.state.slots[k] == Bound(impl.key, k)
    ensures !r.ok ==> r.state.target == s.target
    // when it stops early, exactly the names before the failing member are rebound
    ensures !r.ok ==> forall k :: k in NamesOf(BoundPart(impl)) ==> k in r.state.slots && r.state.slots[k] == Bound(impl.key, k)
    ensures !r.ok ==> forall k :: k !in NamesOf(BoundPart(impl)) ==>
      (k in r.state.slots <==> k in s.slots) && (k in s.slots ==> r.state.slots[k] == s.slots[k])
    ensures impl.nullProto ==> r.state == s
    ensures forall k :: k in s.slots && k !in NamesOf(impl.proto) ==> k in r.state.slots && r.state.slots[k] == s.slots[k]
    ensures forall k :: k in r.state.slots ==> k in s.slots || k in NamesOf(impl.proto)
    ensures "getInfo" in r.state.slots ==> "getInfo" in s.slots && r.state.slots["getInfo"] == s.slots["getInfo"]
    ensures "constructor" in r.state.slots ==> "constructor" in s.slots && r.state.slots["constructor"] == s.slots["constructor"]
    ensures r.state.lastHash == s.lastHash && r.state.isLoading == s.isLoading
  {
    if impl.nullProto then
      assert BoundPart(impl) == [];
      assert NamesOf([]) == {};
      Rebound(false, s)
    else
      var n := CallablePrefix(impl.proto);
      var done := impl.proto[..n];
      assert forall m :: m in done ==> m in impl.proto;
      var slots := Rebind(s.slots, impl.key, done);
      if n == |impl.proto| then
        assert done == impl.proto;
        Rebound(true, s.(slots := slots, target := impl))
      else
        Rebound(false, s.(slots := slots))
  }

  /** What the fetched code does when evaluated: the values it passes to
      `Scratch.extensions.register`, in order (`None` for a falsy value such
      as `register()` or `register(null)`), and whether it then throws. */
  datatype Payload = Payload(registrations: seq<Option<Impl>>, throws: bool)

  /** The network's answers during one `checkUpdate`: the hash from `/version`
      and the payload from `/code.js`, `None` when that request (or decoding
      its body) fails. */
  datatype Fetches = Fetches(version: Option<string>, code: Option<Payload>)

  /** What one `checkUpdate` does outside the proxy's fields, in order. A
      `Refresh` records the descriptor the host reads back when
      `refreshBlocks()` runs. */
  datatype Effect = FetchVersion | FetchCode | Eval | Refresh(shown: Option<Info>)

  datatype Outcome = Outcome(after: ProxyState, effects: seq<Effect>)

  /** The object that passes `if (captured)` after the payload ran: the last
      value registered, whether or not the payload threw afterwards, and
      nothing when that value is falsy or nothing was registered. */
  function Captured(p: Payload): Option<Impl>
  {
    if p.registrations == [] then None else p.registrations[|p.registrations| - 1]
  }

  function Shown(id: string, s: ProxyState): Option<Info>
  {
    Describe(id, s.isLoading, s.target.info)
  }

  /** The update branch runs when the version was fetched and it differs from
      `lastHash`, or when the check is forced. */
  predicate Taken(s: ProxyState, force: bool, net: Fetches)
  {
    net.version.Some? && (net.version.value != s.lastHash || force)
  }

  /** The catch block: leave loading unconditionally, refresh if the host vm is present. */
  function Recover(id: string, s: ProxyState, vm: bool, done: seq<Effect>): Outcome
  {
    var s' := s.(isLoading := false);
    Outcome(s', done + if vm then [Refresh(Shown(id, s'))] else [])
  }

  /** The end of the update branch: leave loading and refresh, only if the host vm is present. */
  function Finish(id: string, s: ProxyState, vm: bool, done: seq<Effect>): Outcome
  {
    if vm then
      var s' := s.(isLoading := false);
      Outcome(s', done + [Refresh(Shown(id, s'))])
    else
      Outcome(s, done)
  }

  /** The update branch of `checkUpdate`, after `done` has happened: record
      the new hash, enter loading and refresh (with a vm), fetch the code,
      evaluate it under the capture hook, rebind if something was captured,
      then leave loading and refresh (with a vm). */
  function RunUpdate(id: string, s: ProxyState, vm: bool, hash: string, code: Option<Payload>, done: seq<Effect>): Outcome
  {
    var advanced := s.(lastHash := hash);
    var entered := if vm then advanced.(isLoading := true) else advanced;
    var fetched := done + (if vm then [Refresh(Shown(id, entered))] else []) + [FetchCode];
    AfterFetch(id, entered, vm, code, fetched)
  }

  /** The rest of the update branch once the code request has been made. */
  function AfterFetch(id: string, s: ProxyState, vm: bool, code: Option<Payload>, done: seq<Effect>): Outcome
  {
    if code.None? then
      Recover(id, s, vm, done)
    else
      match Captured(code.value)
      case None => Finish(id, s, vm, done + [Eval])
      case Some(impl) =>
        var r := UpdateMethods(s, impl);
        if r.ok then Finish(id, r.state, vm, done + [Eval])
        else Recover(id, r.state, vm, done + [Eval])
  }

  /** Effects already recorded before the update branch stay in front of it. */
  lemma RunUpdateAfter(id: string, s: ProxyState, vm: bool, hash: string, code: Option<Payload>, before: seq<Effect>, done: seq<Effect>)
    ensures var o, p := RunUpdate(id, s, vm, hash, code, before + done), RunUpdate(id, s, vm, hash, code, done);
      o.after == p.after && o.effects == before + p.effects
  {
  }

  /** One complete run of `checkUpdate(force)` against the given network
      answers, with `vm` telling whether `Scratch.vm` is present. */
  function CheckUpdateSpec(id: string, s: ProxyState, force: bool, vm: bool, net: Fetches): (o: Outcome)
    ensures |o.effects| >= 1 && o.effects[0] == FetchVersion
    // every descriptor the host is shown carries the configured id
    ensures forall e :: e in o.effects && e.Refresh? && e.shown.Some? ==> e.shown.value.id == id
    // idempotence: an unchanged hash and no force is a bare version fetch
    ensures net.version == Some(s.lastHash) && !force ==> o == Outcome(s, [FetchVersion])
    // a failed version fetch fetches no code and keeps hash, target and slots
    ensures net.version.None? ==>
      FetchCode !in o.effects && o.after.lastHash == s.lastHash &&
      o.after.target == s.target && o.after.slots == s.slots
    // the hash advances as soon as the branch is taken, whatever happens next
    ensures Taken(s, force, net) ==> o.after.lastHash == net.version.value && FetchCode in o.effects
    ensures !Taken(s, force, net) ==> o.after.lastHash == s.lastHash && FetchCode !in o.effects
    // last-known-good: target and slots only change through a captured object
    ensures o.after.target != s.target || o.after.slots != s.slots ==>
      Taken(s, force, net) && net.code.Some? && Captured(net.code.value).Some?
    ensures o.after.target != s.target ==>
      Captured(net.code.value) == Some(o.after.target) && Adoptable(o.after.target)
    ensures (Taken(s, force, net) && net.code.Some? && Captured(net.code.value).Some?) ==>
      o.after.target == if Adoptable(Captured(net.code.value).value) then Captured(net.code.value).value else s.target
    // the loading flag and the refresh order
    ensures o.after.isLoading ==> s.isLoading
    ensures vm && (net.version.None? || Taken(s, force, net)) ==>
      !o.after.isLoading && o.effects[|o.effects| - 1] == Refresh(Describe(id, false, o.after.target.info))
    ensures vm && Taken(s, force, net) ==> |o.effects| >= 2 && o.effects[1] == Refresh(Some(LoadingInfo(id)))
    ensures !vm ==> forall e :: e in o.effects ==> !e.Refresh?
  {
    if net.version.None? then
      Recover(id, s, vm, [FetchVersion])
    else if !Taken(s, force, net) then
      Outcome(s, [FetchVersion])
    else
      RunUpdate(id, s, vm, net.version.value, net.code, [FetchVersion])
  }

  /** One call of `checkUpdate`: its `force` argument and the network's answers. */
  datatype Call = Call(force: bool, net: Fetches)

  /** The proxy's state after a series of `checkUpdate` calls, each run to completion. */
  function RunChecks(id: string, s: ProxyState, vm: bool, calls: seq<Call>): ProxyState
    decreases |calls|
  {
    if calls == [] then s
    else RunChecks(id, CheckUpdateSpec(id, s, calls[0].force, vm, calls[0].net).after, vm, calls[1..])
  }

  /** Between calls the proxy is never left in the loading state. */
  lemma {:induction false} SteadyBetweenChecks(id: string, s: ProxyState, vm: bool, calls: seq<Call>)
    requires !s.isLoading
    ensures !RunChecks(id, s, vm, calls).isLoading
    decreases |calls|
  {
    if calls != [] {
      SteadyBetweenChecks(id, CheckUpdateSpec(id, s, calls[0].force, vm, calls[0].net).after, vm, calls[1..]);
    }
  }

  /** Whatever the network does, the current implementation is the one the
      proxy started with or an object that some fetched payload registered
      last and that `__updateMethods` adopted in full. */
  lemma {:induction false} TargetIsLastKnownGood(id: string, s: ProxyState, vm: bool, calls: seq<Call>)
    ensures var t := RunChecks(id, s, vm, calls).target;
      t == s.target ||
      exists i :: 0 <= i < |calls| && calls[i].net.code.Some? && Captured(calls[i].net.code.value) == Some(t) && Adoptable(t)
    decreases |calls|
  {
    if calls != [] {
      var s1 := CheckUpdateSpec(id, s, calls[0].force, vm, calls[0].net).after;
      TargetIsLastKnownGood(id, s1, vm, calls[1..]);
      var t := RunChecks(id, s, vm, calls).target;
      if t != s.target && t != s1.target {
        var i :| 0 <= i < |calls[1..]| && calls[1..][i].net.code.Some? && Captured(calls[1..][i].net.code.value) == Some(t) && Adoptable(t);
        assert calls[i + 1] == calls[1..][i];
      }
    }
  }

  /** An exception thrown by the payload is caught and logged: the run is the
      same whether or not the payload throws after its register calls. */
  lemma ThrowingPayloadSameOutcome(id: string, s: ProxyState, force: bool, vm: bool, version: Option<string>, regs: seq<Option<Impl>>)
    ensures CheckUpdateSpec(id, s, force, vm, Fetches(version, Some(Payload(regs, true)))) ==
            CheckUpdateSpec(id, s, force, vm, Fetches(version, Some(Payload(regs, false))))
  {
  }
}
