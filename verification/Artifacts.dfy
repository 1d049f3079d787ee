/**
  Checkpoints as artifacts: the in-memory artifact store (pkg/artifact/memory_store.go), memory
  snapshots (pkg/memory/snapshot.go) and workspace snapshots (pkg/engine/workspace_snapshot.go).
  JSON, tar and gzip are inverse pairs, so a blob is the value it encodes; its digest and its
  size are arbitrary functions of it.
 */
module Artifacts {
  import opened Common
  import opened Store
  import WorkspaceTree
  import Workspace

  datatype Role = SystemRole | UserRole | AssistantRole | ToolRole

  datatype ToolCall = ToolCall(id: string, name: string, args: string)

  datatype Message = Message(role: Role, content: string, toolCallId: string, toolCalls: seq<ToolCall>)

  datatype Memory = Memory(runId: string, stepIndex: int, messages: seq<Message>)

  datatype Blob = MemoryBlob(memory: Memory) | TreeBlob(entries: seq<Workspace.Entry>)

  type Blobs = map<ArtifactKey, Blob>

  datatype Codec = Codec(digest: Blob -> string, size: Blob -> nat)

  function RefTo(codec: Codec, key: ArtifactKey, blob: Blob): ArtifactRef {
    ArtifactRef(key, codec.digest(blob), codec.size(blob))
  }

  /** The blob a reference names, if it is there and passes the size and digest checks. */
  function Fetch(codec: Codec, blobs: Blobs, ref: ArtifactRef): Option<Blob> {
    if ref.key !in blobs then None
    else
      var blob := blobs[ref.key];
      if ref.size > 0 && codec.size(blob) != ref.size then None
      else if ref.sha != "" && codec.digest(blob) != ref.sha then None
      else Some(blob)
  }

  function MemoryAt(codec: Codec, blobs: Blobs, ref: ArtifactRef): Option<Memory> {
    match Fetch(codec, blobs, ref)
    case Some(MemoryBlob(memory)) => Some(memory)
    case _ => None
  }

  /** RestoreWorkspace: the tree that extracting the snapshot stages, within the workspace's limits. */
  function TreeAt(codec: Codec, blobs: Blobs, ref: ArtifactRef, lim: Workspace.Limits): Option<WorkspaceTree.Tree> {
    match Fetch(codec, blobs, ref)
    case Some(TreeBlob(entries)) =>
      var x := Workspace.Extract(lim, entries);
      if codec.size(TreeBlob(entries)) > lim.maxArchive || !x.ok then None else Some(x.tree)
    case _ => None
  }

  /** A stored blob is fetched back by the reference its Put returned, as long as its key is not written again. */
  lemma FetchStored(codec: Codec, blobs: Blobs, key: ArtifactKey, blob: Blob)
    requires key in blobs && blobs[key] == blob
    ensures Fetch(codec, blobs, RefTo(codec, key, blob)) == Some(blob)
  {
  }

  /** A fetched blob is the stored one, and has the size and the digest its reference names, where it names them. */
  lemma FetchIs(codec: Codec, blobs: Blobs, ref: ArtifactRef, blob: Blob)
    ensures Fetch(codec, blobs, ref) == Some(blob) <==>
      && ref.key in blobs && blobs[ref.key] == blob
      && (ref.size > 0 ==> codec.size(blob) == ref.size) && (ref.sha != "" ==> codec.digest(blob) == ref.sha)
  {
  }

  /** A memory is loaded from a fetched memory blob; a tree from a fetched snapshot within the archive limit that extracts. */
  lemma LoadsIs(codec: Codec, blobs: Blobs, ref: ArtifactRef, lim: Workspace.Limits, memory: Memory, tree: WorkspaceTree.Tree)
    ensures MemoryAt(codec, blobs, ref) == Some(memory) <==> Fetch(codec, blobs, ref) == Some(MemoryBlob(memory))
    ensures TreeAt(codec, blobs, ref, lim) == Some(tree) <==>
      exists entries :: Fetch(codec, blobs, ref) == Some(TreeBlob(entries)) && Extracts(codec, lim, entries, tree)
  {
    hide Fetch, Workspace.Extract;
  }

  ghost predicate Extracts(codec: Codec, lim: Workspace.Limits, entries: seq<Workspace.Entry>, tree: WorkspaceTree.Tree) {
    var x := Workspace.Extract(lim, entries);
    codec.size(TreeBlob(entries)) <= lim.maxArchive && x.ok && x.tree == tree
  }

  class ArtifactStore {
    var blobs: Blobs
    const codec: Codec

    constructor (codec: Codec)
      ensures blobs == map[] && this.codec == codec
    {
      blobs := map[];
      this.codec := codec;
    }

    /** Put overwrites; the reference it returns is the one Stored describes. */
    method Put(key: ArtifactKey, blob: Blob) returns (ref: ArtifactRef)
      modifies this
      ensures blobs == old(blobs)[key := blob] && ref == RefTo(codec, key, blob)
    {
      ref := ArtifactRef(key, codec.digest(blob), codec.size(blob));
      blobs := blobs[key := blob];
    }

    method Get(key: ArtifactKey) returns (blob: Option<Blob>)
      ensures blob == if key in blobs then Some(blobs[key]) else None
    {
      blob := if key in blobs then Some(blobs[key]) else None;
    }

    /** Load: fetch, check size and digest, decode. */
    method LoadMemory(ref: ArtifactRef) returns (memory: Option<Memory>)
      ensures memory == MemoryAt(codec, blobs, ref)
      ensures memory.Some? ==>
        && ref.key in blobs && blobs[ref.key] == MemoryBlob(memory.value)
        && (ref.size > 0 ==> codec.size(blobs[ref.key]) == ref.size)
        && (ref.sha != "" ==> codec.digest(blobs[ref.key]) == ref.sha)
    {
      var blob := Get(ref.key);
      if blob.None? {
        return None;
      }
      if ref.size > 0 && codec.size(blob.value) != ref.size {
        return None;
      }
      if ref.sha != "" && codec.digest(blob.value) != ref.sha {
        return None;
      }
      memory := if blob.value.MemoryBlob? then Some(blob.value.memory) else None;
    }
  }
}
