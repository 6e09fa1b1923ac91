/**
 * The behaviours exercised by the repository's handler tests
 * (handler_test.go, slogbuffer_test.go) and the corner cases of handler.go
 * as written, stated as methods whose postconditions give the exact output.
 * The real handler is the sink Base(0). Scenarios built on NewDownstream
 * hold whatever its real handlers accept or reject; ExampleLifecycle, which
 * also promises no errors, uses one that accepts every level and never
 * fails. Longer tests are cut into steps, each with its own contract.
 */
module Scenarios {
  import opened Wrappers
  import opened RingSpec
  import opened Slog
  import opened Ring
  import opened Scope
  import opened Handlers

  const Out: Sink := Base(0)
  const Common := Attr("common", "attr")

  /** A downstream that has seen nothing yet; what its real handlers accept or reject is left open. */
  method NewDownstream() returns (down: Downstream)
    ensures fresh(down) && down.trace == []
  {
    down := new Downstream((s: Sink, l: Level) => true, (s: Sink, r: Record) => None);
  }

  /** A downstream whose real handlers accept every level and never fail. */
  method NewAcceptingDownstream() returns (down: Downstream)
    ensures fresh(down) && down.trace == []
    ensures forall s: Sink, l: Level :: down.enabled(s, l)
    ensures forall s: Sink, r: Record :: down.outcome(s, r).None?
  {
    down := new Downstream((s: Sink, l: Level) => true, (s: Sink, r: Record) => None);
  }

  /** A record logged with no context: no attributes, no groups. */
  function Plain(r: Record): BufferedRecord
  {
    BufferedRecord(r, None, [])
  }

  /** A drain of one record emits it in its own scope. */
  lemma ReplayOne(s: Sink, a: BufferedRecord)
    ensures Replay(s, [a]) == [Emission(DrainScope(s, a), a.record)]
  {
    assert [a][..0] == [];
  }

  /** A drain of two records emits them in order, each in its own scope. */
  lemma ReplayTwo(s: Sink, a: BufferedRecord, b: BufferedRecord)
    ensures Replay(s, [a, b]) == [Emission(DrainScope(s, a), a.record), Emission(DrainScope(s, b), b.record)]
  {
    ReplayOne(s, a);
    assert [a, b][..1] == [a];
  }

  /** A drain of three records emits them in order, each in its own scope. */
  lemma ReplayThree(s: Sink, a: BufferedRecord, b: BufferedRecord, c: BufferedRecord)
    ensures Replay(s, [a, b, c]) ==
      [Emission(DrainScope(s, a), a.record), Emission(DrainScope(s, b), b.record), Emission(DrainScope(s, c), c.record)]
  {
    ReplayTwo(s, a, b);
    assert [a, b, c][..2] == [a, b];
  }

  /**
   * h is a root node at `level` with no real handler and no context; its
   * buffer has the given limit, keeps its invariant and holds `recs`.
   */
  ghost predicate BufferingRoot(h: BufferLogHandler, level: Level, limit: Limit, recs: seq<BufferedRecord>)
    reads h, h.buffer, h.BufferRepr()
  {
    && h.ChainOk() && h.parent == null && h.level == level
    && h.realHandler.None? && h.attrs.None? && h.groups == []
    && h.buffer != null && h.buffer.Valid() && h.buffer.Limit == limit && h.buffer.Contents == recs
  }

  /** h is a root node with the real handler `sink` and no context. */
  ghost predicate AttachedRoot(h: BufferLogHandler, sink: Sink)
    reads h
  {
    h.ChainOk() && h.parent == null && h.realHandler == Some(sink) && h.attrs.None? && h.groups == []
  }

  /** A record handed to Handle on a buffering root is stored with no context. */
  method LogOnRoot(h: BufferLogHandler, down: Downstream, r: Record, ghost level: Level, ghost limit: Limit, ghost recs: seq<BufferedRecord>)
    requires BufferingRoot(h, level, limit, recs)
    modifies down, h.BufferRepr()
    ensures h.buffer != null && fresh(h.buffer.Repr - old(h.buffer.Repr))
    ensures BufferingRoot(h, level, limit, Push(recs, Plain(r), limit))
    ensures down.trace == old(down.trace)
  {
    var e := h.Handle(down, r);
  }

  /** A record handed to Handle on a direct child of a buffering root is stored with the child's context. */
  method LogOnChild(n: BufferLogHandler, h: BufferLogHandler, down: Downstream, r: Record,
                    ghost level: Level, ghost limit: Limit, ghost recs: seq<BufferedRecord>)
    requires BufferingRoot(h, level, limit, recs)
    requires n.ChainOk() && n.parent == h && n.realHandler.None?
    modifies down, h.BufferRepr()
    ensures h.buffer != null && fresh(h.buffer.Repr - old(h.buffer.Repr))
    ensures BufferingRoot(h, level, limit, Push(recs, BufferedRecord(r, n.attrs, n.groups), limit))
    ensures down.trace == old(down.trace)
  {
    var e := n.Handle(down, r);
  }

  /**
   * The logging half of handler_test.go:10-32: an Info-level handler behind
   * a logger, which asks Enabled before Handle, receives a Debug, an Info
   * and a Warn record; only the last two are stored.
   */
  method LogFiltered(down: Downstream) returns (h: BufferLogHandler)
    modifies down
    ensures fresh(h) && h.buffer != null && fresh(h.buffer.Repr)
    ensures BufferingRoot(h, LevelInfo, Unbound,
      [Plain(Record(LevelInfo, "info msg", [])), Plain(Record(LevelWarn, "warn", []))])
    ensures down.trace == old(down.trace)
  {
    h := new BufferLogHandler.New(LevelInfo);
    var msgs := [Record(LevelDebug, "discarded message", []), Record(LevelInfo, "info msg", []), Record(LevelWarn, "warn", [])];
    ghost var kept: seq<BufferedRecord> := [];
    for k := 0 to |msgs|
      invariant fresh(h.buffer.Repr) && down.trace == old(down.trace)
      invariant BufferingRoot(h, LevelInfo, Unbound, kept)
      invariant kept == if k <= 1 then [] else seq(k - 1, i requires 0 <= i < k - 1 => Plain(msgs[i + 1]))
    {
      if h.Enabled(down, msgs[k].level) {
        LogOnRoot(h, down, msgs[k], LevelInfo, Unbound, kept);
        kept := kept + [Plain(msgs[k])];
      }
    }
  }

  /**
   * handler_test.go:10-32: the Debug record was never stored; the Info and
   * Warn records come out in order once the real handler is set.
   */
  method LevelFiltering() returns (trace: seq<Emission>)
    ensures trace == [Emission(Out, Record(LevelInfo, "info msg", [])), Emission(Out, Record(LevelWarn, "warn", []))]
  {
    var down := NewDownstream();
    var h := LogFiltered(down);
    var errs := h.SetRealHandler(down, Some(Out));
    trace := down.trace;
    ReplayTwo(Out, Plain(Record(LevelInfo, "info msg", [])), Plain(Record(LevelWarn, "warn", [])));
    assert ScopeGroups(Out, []) == Out;
  }

  /**
   * Handle itself does not look at the level (handler.go:76-95): a Debug
   * record handed straight to an Info-level handler is stored and replayed.
   */
  method HandleIgnoresLevel() returns (trace: seq<Emission>)
    ensures trace == [Emission(Out, Record(LevelDebug, "debug", []))]
  {
    var down := NewDownstream();
    var h := new BufferLogHandler.New(LevelInfo);
    var r := Record(LevelDebug, "debug", []);
    assert !h.Enabled(down, r.level);
    var e := h.Handle(down, r);
    var errs := h.SetRealHandler(down, Some(Out));
    trace := down.trace;
    ReplayOne(Out, Plain(r));
    assert ScopeGroups(Out, []) == Out;
  }

  /** The logging half of handler_test.go:34-57: two records, each with attributes of its own. */
  method LogWithOwnAttrs(down: Downstream, r1: Record, r2: Record) returns (h: BufferLogHandler)
    modifies down
    ensures fresh(h) && h.buffer != null && fresh(h.buffer.Repr)
    ensures BufferingRoot(h, LevelDebug, Unbound, [Plain(r1), Plain(r2)])
    ensures down.trace == old(down.trace)
  {
    h := new BufferLogHandler.New(LevelDebug);
    LogOnRoot(h, down, r1, LevelDebug, Unbound, []);
    LogOnRoot(h, down, r2, LevelDebug, Unbound, [Plain(r1)]);
  }

  /**
   * handler_test.go:34-57: a record's own attributes travel with it through
   * the buffer and come out unchanged.
   */
  method RecordAttributesKept() returns (trace: seq<Emission>)
    ensures trace == [
      Emission(Out, Record(LevelDebug, "debug msg", [Attr("my-level", "debug")])),
      Emission(Out, Record(LevelInfo, "info msg", [Attr("my-level", "info")]))]
  {
    var down := NewDownstream();
    var r1 := Record(LevelDebug, "debug msg", [Attr("my-level", "debug")]);
    var r2 := Record(LevelInfo, "info msg", [Attr("my-level", "info")]);
    var h := LogWithOwnAttrs(down, r1, r2);
    var errs := h.SetRealHandler(down, Some(Out));
    trace := down.trace;
    ReplayTwo(Out, Plain(r1), Plain(r2));
    assert ScopeGroups(Out, []) == Out;
  }

  /** The record `l.Info("msg", "no", i)` of handler_test.go:155. */
  function Numbered(i: nat): Record
    requires i < 5
  {
    Record(LevelInfo, "msg", [Attr("no", ["0", "1", "2", "3", "4"][i])])
  }

  /** The records of the first n iterations of handler_test.go:154-156, as stored. */
  function LoggedNumbered(n: nat): seq<BufferedRecord>
    requires n <= 5
  {
    if n == 0 then [] else LoggedNumbered(n - 1) + [Plain(Numbered(n - 1))]
  }

  /** Each record logged into the bound buffer moves the window of the last three by one. */
  lemma NumberedStep(i: nat)
    requires i < 5
    ensures Push(LastN(LoggedNumbered(i), 3), Plain(Numbered(i)), Bound(3)) == LastN(LoggedNumbered(i + 1), 3)
  {
    PushIsLastN(LastN(LoggedNumbered(i), 3), Plain(Numbered(i)), 3);
    LastNOfLastN(LoggedNumbered(i), [Plain(Numbered(i))], 3);
  }

  /** Of the five records, the last three are those numbered 2, 3 and 4. */
  lemma LastThreeNumbered()
    ensures LastN(LoggedNumbered(5), 3) == [Plain(Numbered(2)), Plain(Numbered(3)), Plain(Numbered(4))]
  {
    assert LoggedNumbered(2) == [Plain(Numbered(0)), Plain(Numbered(1))] by {
      assert LoggedNumbered(1) == [Plain(Numbered(0))];
    }
    assert LoggedNumbered(4) == LoggedNumbered(2) + [Plain(Numbered(2)), Plain(Numbered(3))] by {
      assert LoggedNumbered(3) == LoggedNumbered(2) + [Plain(Numbered(2))];
    }
    assert LoggedNumbered(5)[2..] == [Plain(Numbered(2)), Plain(Numbered(3)), Plain(Numbered(4))];
  }

  /**
   * The logging half of handler_test.go:148-176: five records into a
   * handler bound to three; the buffer keeps the last three.
   */
  method LogNumbered(down: Downstream) returns (h: BufferLogHandler)
    modifies down
    ensures fresh(h) && h.buffer != null && fresh(h.buffer.Repr)
    ensures BufferingRoot(h, LevelDebug, Bound(3), [Plain(Numbered(2)), Plain(Numbered(3)), Plain(Numbered(4))])
    ensures down.trace == old(down.trace)
  {
    h := new BufferLogHandler.NewBound(LevelDebug, 3);
    for i := 0 to 5
      invariant fresh(h.buffer.Repr) && down.trace == old(down.trace)
      invariant BufferingRoot(h, LevelDebug, Bound(3), LastN(LoggedNumbered(i), 3))
    {
      if h.Enabled(down, LevelInfo) {
        LogOnRoot(h, down, Numbered(i), LevelDebug, Bound(3), LastN(LoggedNumbered(i), 3));
        NumberedStep(i);
      }
    }
    LastThreeNumbered();
  }

  /**
   * handler_test.go:148-176: the two oldest records were dropped; the last
   * three come out in order.
   */
  method LimitedBufferDropsOldest() returns (trace: seq<Emission>)
    ensures trace == [Emission(Out, Numbered(2)), Emission(Out, Numbered(3)), Emission(Out, Numbered(4))]
  {
    var down := NewDownstream();
    var h := LogNumbered(down);
    var errs := h.SetRealHandler(down, Some(Out));
    trace := down.trace;
    ReplayThree(Out, Plain(Numbered(2)), Plain(Numbered(3)), Plain(Numbered(4)));
    assert ScopeGroups(Out, []) == Out;
  }

  /**
   * The first record of handler_test.go:59-92: logged through a node two
   * WithAttrs away from the root, it is stored with both nodes' attributes.
   * Also returns the intermediate node.
   */
  method LogThroughSubCommon(down: Downstream, r: Record) returns (h: BufferLogHandler, common: BufferLogHandler)
    modifies down
    ensures fresh(h) && h.buffer != null && fresh(h.buffer.Repr) && fresh(common)
    ensures BufferingRoot(h, LevelDebug, Unbound,
      [BufferedRecord(r, Some([Common, Attr("sub-common", "sub-attr")]), [])])
    ensures common.ChainOk() && common.parent == h && common.buffer == h.buffer
    ensures common.realHandler.None? && common.attrs == Some([Common]) && common.groups == []
    ensures down.trace == old(down.trace)
  {
    h := new BufferLogHandler.New(LevelDebug);
    common := h.WithAttrs(Some([Common]));
    assert common.attrs == Some([Common]) by {
      assert [] + [Common] == [Common];
    }
    var sub := common.WithAttrs(Some([Attr("sub-common", "sub-attr")]));
    assert sub.attrs == Some([Common, Attr("sub-common", "sub-attr")]) by {
      assert [Common] + [Attr("sub-common", "sub-attr")] == [Common, Attr("sub-common", "sub-attr")];
    }
    assert forall q | q in sub.Nodes() :: allocated(q);
    var e := sub.Handle(down, r);
  }

  /**
   * handler_test.go:59-92: attributes added with With accumulate along the
   * derivation chain and stay with the records logged through each node.
   */
  method WithAttrsAccumulate() returns (trace: seq<Emission>)
    ensures trace == [
      Emission(Attrs(Out, [Common, Attr("sub-common", "sub-attr")]), Record(LevelInfo, "info msg", [Attr("rec-attr", "some value")])),
      Emission(Attrs(Out, [Common]), Record(LevelWarn, "warn msg", [Attr("some-int", "42")])),
      Emission(Out, Record(LevelError, "error msg", []))]
  {
    var down := NewDownstream();
    var r1 := Record(LevelInfo, "info msg", [Attr("rec-attr", "some value")]);
    var r2 := Record(LevelWarn, "warn msg", [Attr("some-int", "42")]);
    var r3 := Record(LevelError, "error msg", []);
    ghost var b1 := BufferedRecord(r1, Some([Common, Attr("sub-common", "sub-attr")]), []);
    ghost var b2 := BufferedRecord(r2, Some([Common]), []);
    var h, common := LogThroughSubCommon(down, r1);
    LogOnChild(common, h, down, r2, LevelDebug, Unbound, [b1]);
    LogOnRoot(h, down, r3, LevelDebug, Unbound, [b1, b2]);
    assert h.buffer.Contents == [b1, b2, Plain(r3)];
    var errs := h.SetRealHandler(down, Some(Out));
    trace := down.trace;
    ReplayThree(Out, b1, b2, Plain(r3));
    assert ScopeGroups(Out, []) == Out;
  }

  /** The first record of handler_test.go:94-117, logged in group g1. */
  method LogInGroup(down: Downstream, r: Record) returns (h: BufferLogHandler)
    modifies down
    ensures fresh(h) && h.buffer != null && fresh(h.buffer.Repr)
    ensures BufferingRoot(h, LevelDebug, Unbound, [BufferedRecord(r, None, ["g1"])])
    ensures down.trace == old(down.trace)
  {
    h := new BufferLogHandler.New(LevelDebug);
    var g1 := h.WithGroup("g1");
    assert g1.groups == ["g1"] by {
      assert [] + ["g1"] == ["g1"];
    }
    assert forall q | q in g1.Nodes() :: allocated(q);
    var e := g1.Handle(down, r);
  }

  /** The second record of handler_test.go:94-117, logged in group g2 inside a new g1. */
  method LogInNestedGroup(h: BufferLogHandler, down: Downstream, r: Record, ghost recs: seq<BufferedRecord>)
    requires BufferingRoot(h, LevelDebug, Unbound, recs)
    modifies down, h.BufferRepr()
    ensures h.buffer != null && fresh(h.buffer.Repr - old(h.buffer.Repr))
    ensures BufferingRoot(h, LevelDebug, Unbound, recs + [BufferedRecord(r, None, ["g1", "g2"])])
    ensures down.trace == old(down.trace)
  {
    var g1 := h.WithGroup("g1");
    assert g1.groups == ["g1"] by {
      assert [] + ["g1"] == ["g1"];
    }
    var g2 := g1.WithGroup("g2");
    assert g2.groups == ["g1", "g2"] by {
      assert ["g1"] + ["g2"] == ["g1", "g2"];
    }
    assert forall q | q in g2.Nodes() :: allocated(q);
    var e := g2.Handle(down, r);
  }

  /**
   * handler_test.go:94-117: groups opened with WithGroup nest, outermost
   * first, around the records logged through the derived node.
   */
  method WithGroupNests() returns (trace: seq<Emission>)
    ensures trace == [
      Emission(Group(Out, "g1"), Record(LevelInfo, "info msg", [Attr("foo", "bar")])),
      Emission(Group(Group(Out, "g1"), "g2"), Record(LevelWarn, "warn msg", [Attr("foo", "bar")]))]
  {
    var down := NewDownstream();
    var r1 := Record(LevelInfo, "info msg", [Attr("foo", "bar")]);
    var r2 := Record(LevelWarn, "warn msg", [Attr("foo", "bar")]);
    var h := LogInGroup(down, r1);
    ghost var b1 := BufferedRecord(r1, None, ["g1"]);
    ghost var b2 := BufferedRecord(r2, None, ["g1", "g2"]);
    LogInNestedGroup(h, down, r2, [b1]);
    var errs := h.SetRealHandler(down, Some(Out));
    trace := down.trace;
    ReplayTwo(Out, b1, b2);
    assert ScopeGroups(Out, ["g1"]) == Group(Out, "g1") by {
      assert ["g1"][..0] == [];
    }
    assert ScopeGroups(Out, ["g1", "g2"]) == Group(Group(Out, "g1"), "g2") by {
      assert ["g1", "g2"][..1] == ["g1"];
    }
  }

  /** The first step of handler_test.go:119-146: set the real handler on an empty handler, then log. */
  method AttachThenLog(down: Downstream, r: Record) returns (h: BufferLogHandler)
    modifies down
    ensures fresh(h) && AttachedRoot(h, Out)
    ensures down.trace == old(down.trace) + [Emission(Out, r)]
  {
    h := new BufferLogHandler.New(LevelDebug);
    var errs := h.SetRealHandler(down, Some(Out));
    assert h.buffer.Items() == [];
    assert forall q | q in h.Nodes() :: allocated(q);
    var e := h.Handle(down, r);
    assert ScopeGroups(Out, []) == Out;
  }

  /**
   * handler_test.go:119-146: once the real handler is set, records go
   * straight to it, scoped by the context of the node they are logged on.
   */
  method AttachedForwards() returns (trace: seq<Emission>)
    ensures trace == [
      Emission(Out, Record(LevelInfo, "info msg", [])),
      Emission(Attrs(Out, [Common]), Record(LevelWarn, "warn msg", [])),
      Emission(Group(Out, "g1"), Record(LevelError, "error msg", [Attr("in-group", "group")]))]
  {
    var down := NewDownstream();
    var h := AttachThenLog(down, Record(LevelInfo, "info msg", []));
    var a := h.WithAttrs(Some([Common]));
    var e2 := a.Handle(down, Record(LevelWarn, "warn msg", []));
    assert ScopeGroups(Out, []) == Out;
    var g := h.WithGroup("g1");
    var e3 := g.Handle(down, Record(LevelError, "error msg", [Attr("in-group", "group")]));
    assert ScopeGroups(Out, []) == Out;
    trace := down.trace;
  }

  /** handler_test.go:178-194: Discard drops what was buffered; nothing is replayed. */
  method DiscardDropsBuffered() returns (trace: seq<Emission>, errs: seq<Error>)
    ensures trace == [] && errs == []
  {
    var down := NewDownstream();
    var h := new BufferLogHandler.New(LevelDebug);
    var e := h.Handle(down, Record(LevelInfo, "info msg", []));
    h.Discard();
    errs := h.SetRealHandler(down, Some(Out));
    trace := down.trace;
  }

  /**
   * handler_test.go:196-215: a node derived before the real handler is set
   * on its root forwards through the root's real handler, with its own
   * attributes.
   */
  method DerivedBeforeAttach() returns (trace: seq<Emission>)
    ensures trace == [Emission(Attrs(Out, [Common]), Record(LevelInfo, "info msg", []))]
  {
    var down := NewDownstream();
    var h := new BufferLogHandler.New(LevelDebug);
    var withAttr := h.WithAttrs(Some([Common]));
    assert withAttr.attrs == Some([Common]) by {
      assert [] + [Common] == [Common];
    }
    assert forall q | q in withAttr.Nodes() :: allocated(q);
    var errs := h.SetRealHandler(down, Some(Out));
    assert withAttr.GetRealHandler() == Some(Out);
    var e := withAttr.Handle(down, Record(LevelInfo, "info msg", []));
    assert ScopeGroups(Out, []) == Out;
    trace := down.trace;
  }

  /**
   * A node derived after the real handler is set wraps the real handler
   * with only what it adds itself (handler.go:98-103, 119-125): a group
   * opened on a node that carries attributes loses those attributes,
   * whereas the same group opened before the real handler was set keeps
   * them (compare DerivedBeforeAttach).
   */
  method DerivedAfterAttachDropsContext() returns (trace: seq<Emission>)
    ensures trace == [Emission(Group(Out, "g1"), Record(LevelInfo, "info msg", []))]
  {
    var down := NewDownstream();
    var h := new BufferLogHandler.New(LevelDebug);
    var withAttr := h.WithAttrs(Some([Common]));
    assert forall q | q in withAttr.Nodes() :: allocated(q);
    var errs := h.SetRealHandler(down, Some(Out));
    assert withAttr.GetRealHandler() == Some(Out);
    var g := withAttr.WithGroup("g1");
    var e := g.Handle(down, Record(LevelInfo, "info msg", []));
    assert ScopeGroups(Group(Out, "g1"), []) == Group(Out, "g1");
    trace := down.trace;
  }

  /** A record buffered through a child whose attribute slice is non-nil but empty. */
  method LogThroughEmptyAttrs(down: Downstream, r: Record) returns (h: BufferLogHandler, empty: BufferLogHandler)
    modifies down
    ensures fresh(h) && h.buffer != null && fresh(h.buffer.Repr) && fresh(empty)
    ensures BufferingRoot(h, LevelDebug, Unbound, [BufferedRecord(r, Some([]), [])])
    ensures empty.ChainOk() && empty.parent == h && empty.realHandler.None?
    ensures empty.attrs == Some([]) && empty.groups == []
    ensures down.trace == old(down.trace)
  {
    h := new BufferLogHandler.New(LevelDebug);
    empty := h.WithAttrs(Some([]));
    assert empty.attrs == Some([]) by {
      assert AttrsOf(None) + [] == [];
    }
    LogOnChild(empty, h, down, r, LevelDebug, Unbound, []);
  }

  /**
   * A node whose attribute slice is non-nil but empty: a record it buffers
   * is replayed without a WithAttrs call (handler.go:153), while a record it
   * logs after the real handler is set gets WithAttrs with no attributes
   * (handler.go:83).
   */
  method EmptyAttrsLiveVersusDrain() returns (trace: seq<Emission>)
    ensures trace == [
      Emission(Out, Record(LevelInfo, "buffered", [])),
      Emission(Attrs(Out, []), Record(LevelInfo, "live", []))]
  {
    var down := NewDownstream();
    var r1 := Record(LevelInfo, "buffered", []);
    var h, empty := LogThroughEmptyAttrs(down, r1);
    assert forall q | q in empty.Nodes() :: allocated(q);
    var errs := h.SetRealHandler(down, Some(Out));
    ReplayOne(Out, BufferedRecord(r1, Some([]), []));
    assert ScopeGroups(Out, []) == Out;
    var e2 := empty.Handle(down, Record(LevelInfo, "live", []));
    trace := down.trace;
  }

  /**
   * The logging half of slogbuffer_test.go:10-43: an Info-level handler
   * bound to 256 records behind a logger; the Debug record is filtered out.
   */
  method LogBeforeAttach(down: Downstream, r1: Record, r2: Record, r3: Record) returns (h: BufferLogHandler)
    requires r1.level == LevelInfo && r2.level == LevelDebug && r3.level == LevelWarn
    modifies down
    ensures fresh(h) && h.buffer != null && fresh(h.buffer.Repr)
    ensures BufferingRoot(h, LevelInfo, Bound(256), [Plain(r1), Plain(r3)])
    ensures down.trace == old(down.trace)
  {
    h := new BufferLogHandler.NewBound(LevelInfo, 256);
    if h.Enabled(down, r1.level) { LogOnRoot(h, down, r1, LevelInfo, Bound(256), []); }
    assert !h.Enabled(down, r2.level);
    if h.Enabled(down, r3.level) { LogOnRoot(h, down, r3, LevelInfo, Bound(256), [Plain(r1)]); }
  }

  /**
   * slogbuffer_test.go:10-43: the two buffered records are replayed on
   * SetRealHandler without errors, and a later record goes straight through.
   */
  method ExampleLifecycle() returns (trace: seq<Emission>, errs: seq<Error>)
    ensures errs == []
    ensures trace == [
      Emission(Out, Record(LevelInfo, "some message", [Attr("key", "11")])),
      Emission(Out, Record(LevelWarn, "warn message", [])),
      Emission(Out, Record(LevelInfo, "direct logging", []))]
  {
    var down := NewAcceptingDownstream();
    var r1 := Record(LevelInfo, "some message", [Attr("key", "11")]);
    var r3 := Record(LevelWarn, "warn message", []);
    var h := LogBeforeAttach(down, r1, Record(LevelDebug, "discarded message", []), r3);
    errs := h.SetRealHandler(down, Some(Out));
    FailuresIffSomeFailed(down.outcome, Out, [Plain(r1), Plain(r3)]);
    ReplayTwo(Out, Plain(r1), Plain(r3));
    assert ScopeGroups(Out, []) == Out;
    var r4 := Record(LevelInfo, "direct logging", []);
    var e: Option<Error>;
    if h.Enabled(down, r4.level) { e := h.Handle(down, r4); }
    trace := down.trace;
  }

  /** The logging half of AttrsBeforeGroupEndInside: a record logged in g1 on a node that carries an attribute. */
  method LogInGroupAfterAttrs(down: Downstream, r: Record) returns (h: BufferLogHandler)
    modifies down
    ensures fresh(h) && h.buffer != null && fresh(h.buffer.Repr)
    ensures BufferingRoot(h, LevelDebug, Unbound, [BufferedRecord(r, Some([Common]), ["g1"])])
    ensures down.trace == old(down.trace)
  {
    h := new BufferLogHandler.New(LevelDebug);
    var withAttr := h.WithAttrs(Some([Common]));
    assert withAttr.attrs == Some([Common]) by {
      assert [] + [Common] == [Common];
    }
    var g1 := withAttr.WithGroup("g1");
    assert g1.groups == ["g1"] by {
      assert [] + ["g1"] == ["g1"];
    }
    assert forall q | q in g1.Nodes() :: allocated(q);
    var e := g1.Handle(down, r);
  }

  /**
   * On nodes derived before a real handler is reachable, an attribute
   * added before a group ends up inside it (handler.go:80-85,
   * handler.go:150-155): such a node keeps one list of groups and one of
   * attributes and applies all groups first, so `With(common).WithGroup(g1)`
   * reaches the real handler as `WithGroup(g1).WithAttrs(common)`. log/slog's
   * own handlers keep an attribute added before a group outside that group,
   * and so do nodes derived afterwards (see AttrsBeforeGroupAfterAttach).
   */
  method AttrsBeforeGroupEndInside() returns (trace: seq<Emission>)
    ensures trace == [Emission(Attrs(Group(Out, "g1"), [Common]), Record(LevelWarn, "m", []))]
  {
    var down := NewDownstream();
    var r := Record(LevelWarn, "m", []);
    var h := LogInGroupAfterAttrs(down, r);
    var errs := h.SetRealHandler(down, Some(Out));
    trace := down.trace;
    ReplayOne(Out, BufferedRecord(r, Some([Common]), ["g1"]));
    assert ScopeGroups(Out, ["g1"]) == Group(Out, "g1") by {
      assert ["g1"][..0] == [];
    }
  }

  /** A root node on which the real handler Out has been set while its buffer was empty. */
  method AttachEmpty(down: Downstream) returns (h: BufferLogHandler)
    modifies down
    ensures fresh(h) && AttachedRoot(h, Out) && h.level == LevelDebug
    ensures h.buffer != null && fresh(h.buffer.Repr) && h.buffer.Valid()
    ensures h.buffer.Contents == [] && h.buffer.Limit == Unbound
    ensures down.trace == old(down.trace)
  {
    h := new BufferLogHandler.New(LevelDebug);
    assert h.buffer.Items() == [];
    var errs := h.SetRealHandler(down, Some(Out));
  }

  /**
   * The same two derivations as AttrsBeforeGroupEndInside, made after the
   * real handler is set: each forwarding node wraps the real handler it
   * resolved (handler.go:99-102, handler.go:121-124), so the attribute stays
   * outside the group, as in log/slog.
   */
  method AttrsBeforeGroupAfterAttach() returns (trace: seq<Emission>)
    ensures trace == [Emission(Group(Attrs(Out, [Common]), "g1"), Record(LevelWarn, "m", []))]
  {
    var down := NewDownstream();
    var h := AttachEmpty(down);
    var withAttr := h.WithAttrs(Some([Common]));
    var g1 := withAttr.WithGroup("g1");
    var e := g1.Handle(down, Record(LevelWarn, "m", []));
    assert ScopeGroups(Group(Attrs(Out, [Common]), "g1"), []) == Group(Attrs(Out, [Common]), "g1");
    trace := down.trace;
  }

  /**
   * A real handler set and then reset to nil on an empty buffer
   * (handler.go:146-165 with a nil handler): the root buffers again.
   */
  method AttachThenDetach(down: Downstream) returns (h: BufferLogHandler)
    modifies down
    ensures fresh(h) && h.buffer != null && fresh(h.buffer.Repr)
    ensures BufferingRoot(h, LevelDebug, Unbound, [])
    ensures down.trace == old(down.trace)
  {
    h := AttachEmpty(down);
    var errs := h.SetRealHandler(down, None);
  }

  /**
   * The switch to forwarding can be undone: after the real handler is reset
   * to nil, a record is stored again, and replayed when a real handler is
   * set once more.
   */
  method DetachResumesBuffering() returns (trace: seq<Emission>)
    ensures trace == [Emission(Out, Record(LevelInfo, "again", []))]
  {
    var down := NewDownstream();
    var r := Record(LevelInfo, "again", []);
    var h := AttachThenDetach(down);
    LogOnRoot(h, down, r, LevelDebug, Unbound, []);
    var errs := h.SetRealHandler(down, Some(Out));
    trace := down.trace;
    ReplayOne(Out, Plain(r));
    assert ScopeGroups(Out, []) == Out;
  }

  /** h is a root node with no real handler and no context whose buffer is bound to 3. */
  ghost predicate BoundToThree(h: BufferLogHandler)
    reads h, h.buffer, h.BufferRepr()
  {
    && h.ChainOk() && h.parent == null && h.realHandler.None? && h.attrs.None? && h.groups == []
    && h.buffer != null && h.buffer.Wf() && h.buffer.bound && h.buffer.store.Length == 3
  }

  /** Three records into a handler bound to 3: the buffer is full and has not wrapped. */
  method FillThree(down: Downstream, r: Record) returns (h: BufferLogHandler)
    modifies down
    ensures fresh(h) && h.buffer != null && fresh(h.buffer.Repr)
    ensures BoundToThree(h) && h.buffer.len == 3 && h.buffer.startIndex == 0
    ensures down.trace == old(down.trace)
  {
    h := new BufferLogHandler.NewBound(LevelDebug, 3);
    var e := h.Handle(down, r);
    e := h.Handle(down, r);
    e := h.Handle(down, r);
  }

  /** A fourth record into the handler bound to 3 overwrites slot 0 and moves startIndex to 1. */
  method WrapOnce(down: Downstream, r: Record) returns (h: BufferLogHandler)
    modifies down
    ensures fresh(h) && h.buffer != null && fresh(h.buffer.Repr)
    ensures BoundToThree(h) && h.buffer.len == 3 && h.buffer.startIndex == 1
    ensures down.trace == old(down.trace)
  {
    h := FillThree(down, r);
    var e := h.Handle(down, r);
  }

  /** A fourth record wraps the handler bound to 3; Discard then empties the buffer but keeps startIndex. */
  method WrapThenDiscard(down: Downstream, r: Record) returns (h: BufferLogHandler)
    modifies down
    ensures fresh(h) && h.buffer != null && fresh(h.buffer.Repr)
    ensures BoundToThree(h) && h.buffer.len == 0 && h.buffer.startIndex == 1
    ensures down.trace == old(down.trace)
  {
    h := WrapOnce(down, r);
    h.Discard();
  }

  /**
   * Discard keeps startIndex (handler.go:137-139 over buffer.go:99-107).
   * After a handler bound to 3 has wrapped once and been discarded, one
   * more record is stored at slot 0 while the replay of SetRealHandler would
   * start reading at slot 1, past the single live element.
   */
  method DiscardAfterWrap() returns (readable: bool, len: nat, start: nat, stored: BufferedRecord)
    ensures !readable && len == 1 && start == 1
    ensures stored == BufferedRecord(Record(LevelInfo, "after", []), None, [])
  {
    var down := NewDownstream();
    var h := WrapThenDiscard(down, Record(LevelInfo, "before", []));
    var e := h.Handle(down, Record(LevelInfo, "after", []));
    readable := h.buffer.Readable();
    len := h.buffer.len;
    start := h.buffer.startIndex;
    stored := h.buffer.store[0];
    assert h.buffer.store[..1][0] == stored;
  }

  /** Three records a, b, c into the handler that WrapThenDiscard left: stored in slots 0, 1, 2 with startIndex still 1. */
  method RefillAfterDiscard(down: Downstream, a: Record, b: Record, c: Record) returns (h: BufferLogHandler)
    modifies down
    ensures fresh(h) && h.buffer != null && fresh(h.buffer.Repr)
    ensures BoundToThree(h) && h.buffer.len == 3 && h.buffer.startIndex == 1
    ensures h.buffer.store[..] == [Plain(a), Plain(b), Plain(c)]
    ensures down.trace == old(down.trace)
  {
    h := WrapThenDiscard(down, a);
    var e := h.Handle(down, a);
    e := h.Handle(down, b);
    e := h.Handle(down, c);
    assert h.buffer.store[..] == h.buffer.store[..h.buffer.len];
  }

  /**
   * A refilled buffer after Discard on a wrapped handler is readable but
   * out of order: since startIndex stayed 1 (handler.go:137-139 over
   * buffer.go:99-107), the replay starts at slot 1 and the oldest record
   * comes out last.
   */
  method DiscardAfterWrapRotates() returns (trace: seq<Emission>)
    ensures trace == [
      Emission(Out, Record(LevelInfo, "b", [])),
      Emission(Out, Record(LevelInfo, "c", [])),
      Emission(Out, Record(LevelInfo, "a", []))]
  {
    var down := NewDownstream();
    var a, b, c := Record(LevelInfo, "a", []), Record(LevelInfo, "b", []), Record(LevelInfo, "c", []);
    var h := RefillAfterDiscard(down, a, b, c);
    assert h.buffer.Items() == [Plain(b), Plain(c), Plain(a)];
    var errs := h.SetRealHandler(down, Some(Out));
    trace := down.trace;
    ReplayThree(Out, Plain(b), Plain(c), Plain(a));
    assert ScopeGroups(Out, []) == Out;
  }
}
