/**
 * BufferLogHandler of handler.go: a tree of handler nodes sharing one
 * buffer. A node buffers records while no node on its parent chain has a
 * real handler, and forwards them, scoped by its own context, once one has.
 */
module Handlers {
  import opened Wrappers
  import opened RingSpec
  import opened Slog
  import opened Ring
  import opened Scope

  /** The real handler a live record goes to: the node's groups in order, then its attributes when the slice is non-nil (handler.go:79-85). */
  method LiveSink(sink: Sink, groups: seq<string>, attrs: Option<seq<Attr>>) returns (handler: Sink)
    ensures handler == LiveScope(sink, groups, attrs)
  {
    handler := sink;
    for i := 0 to |groups|
      invariant handler == ScopeGroups(sink, groups[..i])
    {
      assert groups[..i + 1][..i] == groups[..i];
      handler := Group(handler, groups[i]);
    }
    assert groups[..|groups|] == groups;
    if attrs.Some? {
      handler := Attrs(handler, attrs.value);
    }
  }

  /** The real handler one buffered record is replayed into: its groups in order, then its attributes (handler.go:151-155). */
  method RecordSink(sink: Sink, rec: BufferedRecord) returns (handler: Sink)
    ensures handler == DrainScope(sink, rec)
  {
    handler := sink;
    for i := 0 to |rec.groups|
      invariant handler == ScopeGroups(sink, rec.groups[..i])
    {
      assert rec.groups[..i + 1][..i] == rec.groups[..i];
      handler := Group(handler, rec.groups[i]);
    }
    assert rec.groups[..|rec.groups|] == rec.groups;
    if |AttrsOf(rec.attrs)| > 0 {
      handler := Attrs(handler, AttrsOf(rec.attrs));
    }
  }

  /** The loop of drain (handler.go:150-157): every record, in order, into its own scope; every error kept. */
  method ReplayAll(down: Downstream, sink: Sink, recs: seq<BufferedRecord>) returns (errs: seq<Error>)
    modifies down
    ensures down.trace == old(down.trace) + Replay(sink, recs)
    ensures errs == Failures(down.outcome, sink, recs)
  {
    errs := [];
    for k := 0 to |recs|
      invariant down.trace == old(down.trace) + Replay(sink, recs[..k])
      invariant errs == Failures(down.outcome, sink, recs[..k])
    {
      var handler := RecordSink(sink, recs[k]);
      var e := down.Handle(handler, recs[k].record);
      assert recs[..k + 1][..k] == recs[..k];
      if e.Some? {
        errs := errs + [e.value];
      }
    }
    assert recs[..|recs|] == recs;
  }

  class BufferLogHandler {
    /** Minimal level this node considers storing (handler.go:27). */
    const level: Level
    /** The real handler, once SetRealHandler has run on this node. */
    var realHandler: Option<Sink>
    /** The buffer shared by the whole tree; nil on a forwarding-only node. */
    const buffer: Buffer?<BufferedRecord>
    /** Attributes of this node; None is a nil slice. */
    var attrs: Option<seq<Attr>>
    /** Group names of this node, outermost first. */
    var groups: seq<string>
    /** The node this one was cloned from. */
    const parent: BufferLogHandler?
    /** Length of the parent chain above this node: the termination measure. */
    ghost const depth: nat
    /** The nodes above this one on the parent chain. */
    ghost const ancestors: set<BufferLogHandler>

    /** The parent chain is finite and shares this node's buffer. */
    ghost predicate ChainOk()
      decreases depth
    {
      if parent == null then ancestors == {}
      else
        && parent.depth < depth
        && ancestors == {parent} + parent.ancestors
        && parent.buffer == buffer
        && parent.ChainOk()
    }

    /** The nodes of the chain, as a set: what the chain's functions read. */
    ghost function Nodes(): set<BufferLogHandler>
    {
      {this} + ancestors
    }

    /** This node, then its parent, grandparent, ... up to the root. */
    ghost function Chain(): (c: seq<BufferLogHandler>)
      requires ChainOk()
      ensures |c| > 0 && c[0] == this
      ensures forall i | 0 <= i < |c| :: c[i] in Nodes()
      decreases depth
    {
      if parent == null then [this] else [this] + parent.Chain()
    }

    /** No node on the chain has a real handler: neither this one nor any ancestor. */
    ghost predicate NoReal()
      reads Nodes()
      requires ChainOk()
      decreases depth
    {
      realHandler.None? && (parent == null || parent.NoReal())
    }

    /** The i-th node of the chain is the nearest one with a real handler. */
    ghost predicate NearestReal(i: nat)
      reads Nodes()
      requires ChainOk()
    {
      i < |Chain()| && Chain()[i].realHandler.Some? && forall j | 0 <= j < i :: Chain()[j].realHandler.None?
    }

    /** NoReal() is exactly "no node of Chain() has a real handler". */
    lemma {:induction false} NoRealOnChain()
      requires ChainOk()
      ensures NoReal() ==> forall i | 0 <= i < |Chain()| :: Chain()[i].realHandler.None?
      ensures (forall i | 0 <= i < |Chain()| :: Chain()[i].realHandler.None?) ==> NoReal()
      decreases depth
    {
      var c := Chain();
      if realHandler.Some? {
        assert c[0].realHandler.Some?;
      } else if parent == null {
        assert c == [this];
      } else {
        parent.NoRealOnChain();
        assert c == [this] + parent.Chain();
        if parent.NoReal() {
          forall i | 0 <= i < |c| ensures c[i].realHandler.None? {
            if i > 0 {
              assert c[i] == parent.Chain()[i - 1];
            }
          }
        } else {
          var i :| 0 <= i < |parent.Chain()| && parent.Chain()[i].realHandler.Some?;
          assert c[i + 1] == parent.Chain()[i];
        }
      }
    }

    ghost function BufferRepr(): set<object>
      reads buffer
    {
      if buffer == null then {} else buffer.Repr
    }

    /**
     * getRealHandler (handler.go:184-192): the node's own real handler if it
     * has one, else its parent's answer; nil at the root.
     */
    function GetRealHandler(): (r: Option<Sink>)
      reads Nodes()
      requires ChainOk()
      ensures r.None? <==> NoReal()
      ensures realHandler.Some? ==> r == realHandler
      decreases depth
    {
      if realHandler.Some? then realHandler
      else if parent != null then parent.GetRealHandler()
      else None
    }

    /**
     * What GetRealHandler finds is the real handler of the nearest node of
     * the self-then-parent chain that has one, and there is such a node
     * whenever it finds one.
     */
    lemma {:induction false} GetRealHandlerIsNearest()
      requires ChainOk()
      ensures forall i: nat | NearestReal(i) :: GetRealHandler() == Chain()[i].realHandler
      ensures GetRealHandler().Some? ==> exists i: nat :: NearestReal(i)
      decreases depth
    {
      var c := Chain();
      assert c[0] == this;
      if realHandler.Some? {
        assert NearestReal(0);
        forall i: nat | NearestReal(i) ensures GetRealHandler() == c[i].realHandler {
          assert i == 0;
        }
      } else if parent != null {
        parent.GetRealHandlerIsNearest();
        assert c == [this] + parent.Chain();
        forall i: nat | NearestReal(i) ensures GetRealHandler() == c[i].realHandler {
          assert i > 0;
          assert parent.NearestReal(i - 1) by {
            forall j | 0 <= j < i - 1 ensures parent.Chain()[j].realHandler.None? {
              assert parent.Chain()[j] == c[j + 1];
            }
          }
        }
        if GetRealHandler().Some? {
          var k: nat :| parent.NearestReal(k);
          assert NearestReal(k + 1) by {
            forall j | 0 <= j < k + 1 ensures c[j].realHandler.None? {
              if j > 0 {
                assert c[j] == parent.Chain()[j - 1];
              }
            }
          }
        }
      } else {
        assert c == [this];
      }
    }

    /**
     * Enabled (handler.go:68-74): the node's own threshold while no real
     * handler is reachable; the nearest real handler's answer afterwards.
     */
    function Enabled(down: Downstream, lvl: Level): (r: bool)
      reads Nodes()
      requires ChainOk()
      ensures NoReal() ==> (r <==> lvl >= level)
      ensures !NoReal() ==> r == down.enabled(GetRealHandler().value, lvl)
    {
      var rHandler := GetRealHandler();
      if rHandler.None? then lvl >= level else down.enabled(rHandler.value, lvl)
    }

    /** Once a real handler is reachable, Enabled is that of the nearest node that has one. */
    lemma EnabledFollowsNearest(down: Downstream, lvl: Level)
      requires ChainOk()
      ensures forall i: nat | NearestReal(i) :: Enabled(down, lvl) == down.enabled(Chain()[i].realHandler.value, lvl)
    {
      GetRealHandlerIsNearest();
    }

    /** NewBoundBufferLogHandler (handler.go:53-61): a root node with a buffer of at most `maxRecords`. */
    constructor NewBound(level: Level, maxRecords: int)
      ensures ChainOk() && parent == null && realHandler.None? && attrs.None? && groups == []
      ensures this.level == level
      ensures buffer != null && fresh(buffer.Repr) && buffer.Valid() && buffer.Contents == []
      ensures buffer.Limit == if maxRecords > 0 then Bound(maxRecords) else Unbound
    {
      this.level := level;
      realHandler := None;
      buffer := new Buffer<BufferedRecord>(maxRecords);
      attrs := None;
      groups := [];
      parent := null;
      depth := 0;
      ancestors := {};
    }

    /** NewBufferLogHandler (handler.go:47-49): a root node with an unbound buffer. */
    constructor New(level: Level)
      ensures ChainOk() && parent == null && realHandler.None? && attrs.None? && groups == []
      ensures this.level == level
      ensures buffer != null && fresh(buffer.Repr) && buffer.Valid() && buffer.Contents == []
      ensures buffer.Limit == Unbound
    {
      this.level := level;
      realHandler := None;
      buffer := new Buffer<BufferedRecord>(0);
      attrs := None;
      groups := [];
      parent := null;
      depth := 0;
      ancestors := {};
    }

    /**
     * The bare `&BufferLogHandler{real: ...}` of handler.go:100-102 and
     * 122-124: no buffer, no parent, zero level, only a real handler.
     */
    constructor Forwarder(sink: Sink)
      ensures ChainOk() && parent == null && buffer == null
      ensures this.realHandler == Some(sink) && attrs.None? && groups == [] && level == 0
    {
      level := 0;
      this.realHandler := Some(sink);
      buffer := null;
      attrs := None;
      groups := [];
      parent := null;
      depth := 0;
      ancestors := {};
    }

    /** clone (handler.go:169-180): a child of `h` sharing its buffer, with copies of its context. */
    constructor Clone(h: BufferLogHandler)
      requires h.ChainOk()
      ensures ChainOk() && parent == h && buffer == h.buffer && level == h.level
      ensures realHandler == h.realHandler && attrs == h.attrs && groups == h.groups
    {
      level := h.level;
      realHandler := h.realHandler;
      buffer := h.buffer;
      attrs := h.attrs;
      groups := h.groups;
      parent := h;
      depth := h.depth + 1;
      ancestors := {h} + h.ancestors;
    }

    /**
     * Handle (handler.go:76-95). With a real handler reachable: scope it by
     * this node's groups, then by its attributes when the slice is non-nil,
     * and pass the record on. Otherwise store the record with this node's
     * context in the shared buffer. The level is not checked here.
     */
    method Handle(down: Downstream, r: Record) returns (err: Option<Error>)
      requires ChainOk()
      requires buffer != null ==> buffer.Wf()
      requires NoReal() ==> buffer != null
      modifies down, BufferRepr()
      ensures buffer != null ==>
                buffer.Wf() && fresh(buffer.Repr - old(buffer.Repr))
      ensures GetRealHandler() == old(GetRealHandler())
      ensures !NoReal() ==>
                && down.trace == old(down.trace) + [Emission(LiveScope(GetRealHandler().value, groups, attrs), r)]
                && err == down.outcome(LiveScope(GetRealHandler().value, groups, attrs), r)
                && (buffer != null ==> unchanged(buffer) && unchanged(old(buffer.store)))
      ensures NoReal() ==>
                && down.trace == old(down.trace)
                && err.None?
                && buffer.Contents == Push(old(buffer.Contents), BufferedRecord(r, attrs, groups), buffer.Limit)
                && (old(buffer.Valid()) ==> buffer.Valid())
      ensures NoReal() && old(!buffer.bound || buffer.len < buffer.store.Length) ==>
                && buffer.len == old(buffer.len) + 1
                && buffer.startIndex == old(buffer.startIndex)
                && buffer.store[..buffer.len] == old(buffer.store[..buffer.len]) + [BufferedRecord(r, attrs, groups)]
      ensures NoReal() && old(buffer.bound && buffer.len == buffer.store.Length) ==>
                && buffer.len == old(buffer.len) && buffer.store == old(buffer.store)
                && buffer.store[..] == old(buffer.store[..])[old(buffer.startIndex) := BufferedRecord(r, attrs, groups)]
                && buffer.startIndex == (old(buffer.startIndex) + 1) % buffer.store.Length
    {
      assert forall q | q in Nodes() :: allocated(q);
      var rHandler := GetRealHandler();
      if rHandler.Some? {
        var rh := LiveSink(rHandler.value, groups, attrs);
        err := down.Handle(rh, r);
      } else {
        buffer.Add(BufferedRecord(r, attrs, groups));
        err := None;
      }
    }

    /**
     * WithAttrs (handler.go:97-112). With a real handler reachable: a new
     * unlinked node whose real handler is that one with only `extra` applied.
     * Otherwise a child whose attributes are this node's followed by `extra`.
     */
    method WithAttrs(extra: Option<seq<Attr>>) returns (h: BufferLogHandler)
      requires ChainOk()
      ensures fresh(h) && h.ChainOk()
      ensures !NoReal() ==>
                && h.realHandler == Some(Attrs(GetRealHandler().value, AttrsOf(extra)))
                && h.parent == null && h.buffer == null && h.attrs.None? && h.groups == []
      ensures NoReal() ==>
                && h.parent == this && h.buffer == buffer && h.level == level && h.NoReal()
                && h.attrs == (if attrs.None? && extra.None? then None else Some(AttrsOf(attrs) + AttrsOf(extra)))
                && h.groups == groups
    {
      assert forall q | q in Nodes() :: allocated(q);
      var rHandler := GetRealHandler();
      if rHandler.Some? {
        h := new BufferLogHandler.Forwarder(Attrs(rHandler.value, AttrsOf(extra)));
        return;
      }
      h := new BufferLogHandler.Clone(this);
      if h.attrs.Some? {
        h.attrs := Some(h.attrs.value + AttrsOf(extra));
      } else {
        h.attrs := extra;
        assert extra.Some? ==> extra.value == AttrsOf(attrs) + AttrsOf(extra);
      }
      assert h.Chain() == [h] + Chain();
    }

    /**
     * WithGroup (handler.go:114-134). The empty name gives this node back.
     * Otherwise, with a real handler reachable: a new unlinked node whose
     * real handler is that one in group `name`; else a child whose groups are
     * this node's followed by `name`.
     */
    method WithGroup(name: string) returns (h: BufferLogHandler)
      requires ChainOk()
      ensures h.ChainOk()
      ensures name == "" ==> h == this
      ensures name != "" && !NoReal() ==>
                && fresh(h)
                && h.realHandler == Some(Group(GetRealHandler().value, name))
                && h.parent == null && h.buffer == null && h.attrs.None? && h.groups == []
      ensures name != "" && NoReal() ==>
                && fresh(h)
                && h.parent == this && h.buffer == buffer && h.level == level && h.NoReal()
                && h.groups == groups + [name]
                && h.attrs == attrs
    {
      if |name| == 0 {
        return this;
      }
      assert forall q | q in Nodes() :: allocated(q);
      var rHandler := GetRealHandler();
      if rHandler.Some? {
        h := new BufferLogHandler.Forwarder(Group(rHandler.value, name));
        return;
      }
      h := new BufferLogHandler.Clone(this);
      if |groups| > 0 {
        h.groups := h.groups + [name];
      } else {
        h.groups := [name];
      }
      assert h.Chain() == [h] + Chain();
    }

    /** Discard (handler.go:137-139): empties the shared buffer; a nil buffer is left alone. */
    method Discard()
      requires buffer != null ==> buffer.Wf()
      modifies BufferRepr()
      ensures buffer != null ==>
                && buffer.Wf() && fresh(buffer.Repr - old(buffer.Repr))
                && buffer.Contents == []
                && buffer.startIndex == old(buffer.startIndex)
                && (buffer.Valid() <==> buffer.startIndex == 0)
    {
      if buffer != null {
        buffer.Clear();
      }
    }

    /**
     * SetRealHandler (handler.go:146-165): replays every buffered record in
     * buffer order into `sink`, each scoped by its own captured context,
     * collects every failure, then empties the buffer and publishes `sink`.
     * A nil `sink` (None) is accepted on an empty buffer: nothing is replayed
     * and the node goes back to whatever its parent chain provides, so it
     * buffers again when that is nothing. With records buffered, Go would
     * call Handle on the nil interface and panic.
     */
    method SetRealHandler(down: Downstream, sink: Option<Sink>) returns (errs: seq<Error>)
      requires ChainOk()
      requires buffer != null ==> buffer.Wf() && buffer.Readable()
      requires sink.None? ==> buffer == null || buffer.len == 0
      modifies this`realHandler, down, BufferRepr()
      ensures realHandler == sink
      ensures sink.Some? ==> GetRealHandler() == sink
      ensures sink.None? ==> GetRealHandler() == if parent == null then None else parent.GetRealHandler()
      ensures sink.Some? ==>
                var drained := if buffer == null then [] else old(buffer.Items());
                && down.trace == old(down.trace) + Replay(sink.value, drained)
                && errs == Failures(down.outcome, sink.value, drained)
      ensures sink.None? ==> down.trace == old(down.trace) && errs == []
      ensures buffer != null ==>
                && buffer.Wf() && fresh(buffer.Repr - old(buffer.Repr))
                && buffer.Contents == []
                && buffer.startIndex == old(buffer.startIndex)
                && (buffer.Valid() <==> buffer.startIndex == 0)
    {
      if sink.Some? {
        errs := Drain(down, sink.value);
      } else {
        errs := [];
        if buffer != null {
          buffer.Clear();
        }
      }
      realHandler := sink;
    }

    /** The replay-and-clear part of SetRealHandler (handler.go:151-162). */
    method Drain(down: Downstream, sink: Sink) returns (errs: seq<Error>)
      requires buffer != null ==> buffer.Wf() && buffer.Readable()
      modifies down, BufferRepr()
      ensures var drained := if buffer == null then [] else old(buffer.Items());
                && down.trace == old(down.trace) + Replay(sink, drained)
                && errs == Failures(down.outcome, sink, drained)
      ensures buffer != null ==>
                && buffer.Wf() && fresh(buffer.Repr - old(buffer.Repr))
                && buffer.Contents == []
                && buffer.startIndex == old(buffer.startIndex)
                && (buffer.Valid() <==> buffer.startIndex == 0)
    {
      var recs: seq<BufferedRecord> := [];
      if buffer != null {
        recs := buffer.Values();
      }
      errs := ReplayAll(down, sink, recs);
      if buffer != null {
        buffer.Clear();
      }
    }
  }
}
