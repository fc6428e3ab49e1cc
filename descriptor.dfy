/**
  The descriptor an extension hands to Scratch (its `getInfo()` result) and the
  shape `HotProxy.getInfo` gives it: a loading placeholder while a reload is in
  progress, otherwise the current implementation's own descriptor with its id
  forced to the configured extension id and a force-reload control appended.
 */
module Descriptor {
  import opened Wrappers

  /** One entry of a descriptor's `blocks` list: a bare string such as the
      `'---'` separator, or a block object. */
  datatype Entry =
    | Label(text: string)
    | Block(opcode: string, blockType: string, text: string, func: string)

  /** What an implementation's own `getInfo()` returns; `blocks` may be absent. */
  datatype RawInfo = RawInfo(id: string, name: string, color1: Option<string>, blocks: Option<seq<Entry>>)

  /** What the proxy returns to the host. */
  datatype Info = Info(id: string, name: string, color1: Option<string>, blocks: seq<Entry>)

  /** `Scratch.BlockType.COMMAND`. */
  const Command: string := "command"
  const LoadingOpcode: string := "__loading__"
  const ForceReloadOpcode: string := "__forceReload__"
  const LoadingName: string := "正在热重载..."
  const LoadingColor: string := "#FF5500"
  const LoadingBlock: Entry := Block(LoadingOpcode, Command, "⏳ 正在拉取新代码...", LoadingOpcode)
  const Separator: Entry := Label("---")
  const ForceReloadBlock: Entry := Block(ForceReloadOpcode, Command, "\U{1F525} 强制重载", ForceReloadOpcode)

  /** The opcodes of the blocks of a list, in order; labels have none. */
  function Opcodes(blocks: seq<Entry>): seq<string>
  {
    if blocks == [] then []
    else (if blocks[0].Block? then [blocks[0].opcode] else []) + Opcodes(blocks[1..])
  }

  lemma {:induction false} OpcodesAppend(a: seq<Entry>, b: seq<Entry>)
    ensures Opcodes(a + b) == Opcodes(a) + Opcodes(b)
  {
    if a == [] {
      assert a + b == b;
    } else {
      assert (a + b)[1..] == a[1..] + b;
      OpcodesAppend(a[1..], b);
    }
  }

  /** The placeholder descriptor shown while a reload is in progress. */
  function LoadingInfo(id: string): Info
  {
    Info(id, LoadingName, Some(LoadingColor), [LoadingBlock])
  }

  /** The implementation's blocks, `[]` when it declares none. */
  function BlocksOf(raw: RawInfo): seq<Entry>
  {
    if raw.blocks.Some? then raw.blocks.value else []
  }

  /** The descriptor `getInfo` returns, given the loading flag and what the
      current implementation's own `getInfo()` gives: `None` stands for a
      call that throws, or whose `blocks` is truthy but has no `push`, and
      then the proxy's `getInfo` throws too. */
  function Describe(id: string, loading: bool, raw: Option<RawInfo>): (r: Option<Info>)
    ensures loading ==> r == Some(LoadingInfo(id))
    ensures loading ==> Opcodes(r.value.blocks) == [LoadingOpcode] && |r.value.blocks| == 1
    ensures r.Some? ==> r.value.id == id
    ensures !loading ==> (r.Some? <==> raw.Some?)
    ensures !loading && raw.Some? ==> r.value.name == raw.value.name && r.value.color1 == raw.value.color1
    ensures !loading && raw.Some? ==>
      var n, bs := |BlocksOf(raw.value)|, r.value.blocks;
      |bs| == n + 2 && bs[..n] == BlocksOf(raw.value) && bs[n] == Separator && bs[n + 1] == ForceReloadBlock
    ensures !loading && raw.Some? ==> Opcodes(r.value.blocks) == Opcodes(BlocksOf(raw.value)) + [ForceReloadOpcode]
  {
    if loading then
      Some(LoadingInfo(id))
    else if raw.None? then
      None
    else
      var blocks := BlocksOf(raw.value) + [Separator, ForceReloadBlock];
      OpcodesAppend(BlocksOf(raw.value), [Separator, ForceReloadBlock]);
      assert Opcodes([ForceReloadBlock]) == [ForceReloadOpcode];
      assert [Separator, ForceReloadBlock][1..] == [ForceReloadBlock];
      Some(Info(id, raw.value.name, raw.value.color1, blocks))
  }
}
