/** The node type registry of `ww/node_builder/node_library.c`: an
    append-only list of node descriptors, created on first registration,
    searched front to back for a type hash, with the zeroed descriptor of
    `dynLoadNodeLib` as the fallback.

    The name hash (`calcHashBytes`) is a parameter; the flag bit values are
    those of `node.h`, which is not part of this model (see README). */
module NodeLibrary {

  import opened Common

  type hash = int

  /** `kNodeFlagNone`, `kNodeFlagChainHead`, `kNodeFlagChainEnd`. */
  const FLAG_NONE: bv32 := 0
  const FLAG_CHAIN_HEAD: bv32 := 1
  const FLAG_CHAIN_END: bv32 := 2

  /** `node_t` as the registry sees it: its type name, its type hash, its
      flags, and whether each of its handles is set. */
  datatype Node = Node(typeName: Option<string>, hashType: hash, flags: bv32, hasHandles: bool)

  /** `(node_t) {0}`. */
  const ZeroNode: Node := Node(None, 0, 0, false)

  /** `dynLoadNodeLib`: not implemented, every hash gives the zeroed node. */
  function DynLoad(htype: hash): (n: Node)
    ensures n == ZeroNode
  {
    ZeroNode
  }

  /** For each registered node, whether its hash is the key. */
  function Matches(libs: seq<Node>, htype: hash): (flags: seq<bool>)
    ensures |flags| == |libs|
    ensures forall i :: 0 <= i < |libs| ==> flags[i] == (libs[i].hashType == htype)
  {
    seq(|libs|, i requires 0 <= i < |libs| => libs[i].hashType == htype)
  }

  /** What `nodelibraryLoadByTypeHash` returns for a registry (None when
      the registry was never created or was cleaned up). */
  function Lookup(registry: Option<seq<Node>>, htype: hash): Node
  {
    match registry
    case None => DynLoad(htype)
    case Some(libs) =>
      var k := FirstTrue(Matches(libs, htype));
      if k < |libs| then libs[k] else DynLoad(htype)
  }

  /** The lookup gives the first registered node with the key's hash, and
      the zeroed node exactly when there is none (or no registry). */
  lemma LookupFindsFirst(registry: Option<seq<Node>>, htype: hash)
    ensures registry.None? ==> Lookup(registry, htype) == ZeroNode
    ensures registry.Some? ==>
              var libs := registry.value;
              && ((forall i :: 0 <= i < |libs| ==> libs[i].hashType != htype) ==> Lookup(registry, htype) == ZeroNode)
              && (forall k :: (0 <= k < |libs| && libs[k].hashType == htype && forall i :: 0 <= i < k ==> libs[i].hashType != htype) ==>
                    Lookup(registry, htype) == libs[k])
  {
    if registry.Some? {
      var libs := registry.value;
      var f := Matches(libs, htype);
      var k := FirstTrue(f);
      forall j | 0 <= j < |libs| && libs[j].hashType == htype && (forall i :: 0 <= i < j ==> libs[i].hashType != htype)
        ensures Lookup(registry, htype) == libs[j]
      {
        assert f[j];
      }
    }
  }

  /** The registry after `nodelibraryRegister`. */
  function Registered(registry: Option<seq<Node>>, lib: Node): Option<seq<Node>>
  {
    Some(Entries(registry) + [lib])
  }

  /** The registered nodes; none while the registry does not exist. */
  function Entries(registry: Option<seq<Node>>): seq<Node>
  {
    if registry.None? then [] else registry.value
  }

  /** Registration appends: a hash not yet registered now finds the new
      node, and a hash already registered keeps finding the earlier one. */
  lemma RegisterThenLookup(registry: Option<seq<Node>>, lib: Node, htype: hash)
    ensures (forall i :: 0 <= i < |Entries(registry)| ==> Entries(registry)[i].hashType != lib.hashType) ==>
              Lookup(Registered(registry, lib), lib.hashType) == lib
    ensures registry.Some? && (exists i :: 0 <= i < |registry.value| && registry.value[i].hashType == htype) ==>
              Lookup(Registered(registry, lib), htype) == Lookup(registry, htype)
  {
    var before := Entries(registry);
    if forall i :: 0 <= i < |before| ==> before[i].hashType != lib.hashType {
      RegisterFindsNew(before, lib);
    }
    if registry.Some? && exists i :: 0 <= i < |before| && before[i].hashType == htype {
      RegisterKeepsEarlier(before, lib, htype);
    }
  }

  lemma RegisterFindsNew(before: seq<Node>, lib: Node)
    requires forall i :: 0 <= i < |before| ==> before[i].hashType != lib.hashType
    ensures Lookup(Some(before + [lib]), lib.hashType) == lib
  {
    var after := before + [lib];
    LookupFindsFirst(Some(after), lib.hashType);
    assert after[|before|] == lib;
  }

  lemma RegisterKeepsEarlier(before: seq<Node>, lib: Node, htype: hash)
    requires exists i :: 0 <= i < |before| && before[i].hashType == htype
    ensures Lookup(Some(before + [lib]), htype) == Lookup(Some(before), htype)
  {
    var after := before + [lib];
    var k := FirstTrue(Matches(before, htype));
    assert k < |before| by {
      var i :| 0 <= i < |before| && before[i].hashType == htype;
      assert Matches(before, htype)[i];
    }
    LookupFindsFirst(Some(before), htype);
    LookupFindsFirst(Some(after), htype);
    assert after[k] == before[k];
  }

  /** `nodeHasFlagChainHead`: every ChainHead bit is set in the flags. */
  function HasFlagChainHead(n: Node): bool
  {
    n.flags & FLAG_CHAIN_HEAD == FLAG_CHAIN_HEAD
  }

  /** The test is bit inclusion: it holds exactly when adding the ChainHead
      bits changes nothing, it always holds once they are added, never once
      they are removed, and other bits do not matter.  The descriptors of
      TcpListener (ChainHead), Bridge (ChainHead | ChainEnd) and
      UdpStatelessSocket (None) answer true, true and false. */
  lemma ChainHeadIsBitInclusion(n: Node, m: Node, other: bv32)
    ensures HasFlagChainHead(n) <==> n.flags | FLAG_CHAIN_HEAD == n.flags
    ensures m.flags == n.flags | FLAG_CHAIN_HEAD ==> HasFlagChainHead(m)
    ensures m.flags == n.flags & !FLAG_CHAIN_HEAD ==> !HasFlagChainHead(m)
    ensures m.flags == n.flags | other && other & FLAG_CHAIN_HEAD == 0 ==> HasFlagChainHead(m) == HasFlagChainHead(n)
    ensures m.flags == FLAG_CHAIN_HEAD ==> HasFlagChainHead(m)
    ensures m.flags == FLAG_CHAIN_HEAD | FLAG_CHAIN_END ==> HasFlagChainHead(m)
    ensures m.flags == FLAG_NONE ==> !HasFlagChainHead(m)
  {
  }

  /** The registry's global `state`. */
  class Registry {
    /** `state->slibs`, or None while `state` is NULL. */
    var libs: Option<seq<Node>>
    /** Every `type` string freed by cleanup, in order. */
    var freedTypes: seq<Option<string>>

    /** The registry before any registration. */
    constructor ()
      ensures libs == None && freedTypes == []
    {
      libs := None;
      freedTypes := [];
    }

    /** `nodelibraryRegister`. */
    method Register(lib: Node)
      modifies this
      ensures libs == Registered(old(libs), lib)
      ensures freedTypes == old(freedTypes)
    {
      if libs == None {
        libs := Some([]);
      }
      libs := Some(libs.value + [lib]);
    }

    /** `nodelibraryLoadByTypeHash`: scan front to back. */
    method LoadByTypeHash(htype: hash) returns (n: Node)
      ensures n == Lookup(libs, htype)
    {
      if libs != None {
        var v := libs.value;
        ghost var f := Matches(v, htype);
        var i := 0;
        while i < |v|
          invariant 0 <= i <= |v|
          invariant forall j :: 0 <= j < i ==> !f[j]
        {
          if v[i].hashType == htype {
            assert FirstTrue(f) == i;
            return v[i];
          }
          i := i + 1;
        }
        assert FirstTrue(f) == |v|;
      }
      return DynLoad(htype);
    }

    /** `nodelibraryLoadByTypeName`, with `hashName` the name hash. */
    method LoadByTypeName(name: string, hashName: string -> hash) returns (n: Node)
      ensures n == Lookup(libs, hashName(name))
    {
      n := LoadByTypeHash(hashName(name));
    }

    /** `nodelibraryCleanup`: free every type name, drop the registry. */
    method Cleanup()
      modifies this
      ensures libs == None
      ensures old(libs).None? ==> freedTypes == old(freedTypes)
      ensures old(libs).Some? ==> freedTypes == old(freedTypes) + TypeNames(old(libs).value)
    {
      if libs != None {
        var v := libs.value;
        var i := 0;
        while i < |v|
          invariant 0 <= i <= |v|
          invariant freedTypes == old(freedTypes) + TypeNames(v[..i])
        {
          TypeNamesAppend(v[..i], v[i]);
          assert v[..i + 1] == v[..i] + [v[i]];
          freedTypes := freedTypes + [v[i].typeName];
          i := i + 1;
        }
        assert v[..i] == v;
      }
      libs := None;
    }
  }

  /** The type names of the registered nodes, in order. */
  function TypeNames(libs: seq<Node>): (names: seq<Option<string>>)
    ensures |names| == |libs|
    ensures forall i :: 0 <= i < |libs| ==> names[i] == libs[i].typeName
  {
    if libs == [] then [] else TypeNames(libs[..|libs| - 1]) + [libs[|libs| - 1].typeName]
  }

  lemma TypeNamesAppend(libs: seq<Node>, n: Node)
    ensures TypeNames(libs + [n]) == TypeNames(libs) + [n.typeName]
  {
    assert (libs + [n])[..|libs|] == libs;
  }

  /** After cleanup every lookup falls back to the zeroed node, whatever
      was registered before; registering again starts a fresh registry. */
  lemma CleanupForgetsAll(htype: hash, lib: Node)
    ensures Lookup(None, htype) == ZeroNode
    ensures Lookup(Registered(None, lib), htype) == (if lib.hashType == htype then lib else ZeroNode)
  {
    var f := Matches([lib], htype);
    if lib.hashType == htype {
      assert f[0];
    }
  }
}
