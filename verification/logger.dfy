/**
 * The hierarchical logger (logger.go) and the log entry it dispatches
 * (entry.go). A Logger is a node with an optional level, an optional
 * handler, a field map and a parent pointer; the effective level and
 * handler are resolved by walking the parent chain at each call.
 */
module Logging {
  import opened Wrappers
  import opened Levels

  /** A field value: Go's `interface{}`, reduced to a few observable shapes. */
  datatype Value = Text(s: string) | Number(n: int) | Flag(b: bool) | Opaque(id: nat)

  /** `Fields`: structured data attached to a logger and to its entries. */
  type Fields = map<string, Value>

  /** An abstract instant: what `time.Now()` returned when the entry was built. */
  type Time = nat

  /** The identity of a Handler implementation; a nil Handler is None. */
  type HandlerId = nat

  /** A Go `error` value, seen only through its `Error()` text. */
  datatype GoError = GoError(text: string) {
    function Error(): (s: string) { text }
  }

  /** `Entry`: one log record, built once per dispatched call. */
  datatype Entry = Entry(fields: Fields, level: Level, message: string, timestamp: Time)

  /** The observable effect of dispatch: which handler was called with which entry. */
  datatype Delivery = Delivery(handler: HandlerId, entry: Entry)

  /** What handlers answer: an error text, or None for a nil error. */
  type Responder = (HandlerId, Entry) -> Option<string>

  /** The field map of a derived logger: `extra` overlaid on `base`, keys of `extra` winning. */
  function Overlay(base: Fields, extra: Fields): (r: Fields)
    ensures r.Keys == base.Keys + extra.Keys
    ensures forall k :: k in extra ==> r[k] == extra[k]
    ensures forall k :: k in base && k !in extra ==> r[k] == base[k]
  {
    base + extra
  }

  /**
   * The body of `WithFields` that builds the new map: a fresh map filled
   * first from `base` and then from `extra`, one key at a time in any order.
   */
  method MergeFields(base: Fields, extra: Fields) returns (f: Fields)
    ensures f == Overlay(base, extra)
  {
    f := map[];
    var todo := base.Keys;
    while todo != {}
      invariant todo <= base.Keys
      invariant f.Keys == base.Keys - todo
      invariant forall k :: k in f ==> f[k] == base[k]
      decreases todo
    {
      var k :| k in todo;
      f := f[k := base[k]];
      todo := todo - {k};
    }
    assert f == base;
    todo := extra.Keys;
    while todo != {}
      invariant todo <= extra.Keys
      invariant f.Keys == base.Keys + (extra.Keys - todo)
      invariant forall k :: k in extra.Keys - todo ==> f[k] == extra[k]
      invariant forall k :: k in f && k !in extra.Keys - todo ==> f[k] == base[k]
      decreases todo
    {
      var k :| k in todo;
      f := f[k := extra[k]];
      todo := todo - {k};
    }
  }

  /** The effective level of a chain of nodes (self first): the first level that is not unset, or InfoLevel. */
  ghost function InheritedLevel(nodes: seq<Logger>): (lv: Level)
    reads nodes
  {
    if nodes == [] then InfoLevel
    else if nodes[0].level != UnsetLevel then nodes[0].level
    else InheritedLevel(nodes[1..])
  }

  /** The effective handler of a chain of nodes (self first): the first non-nil handler, or nil. */
  ghost function InheritedHandler(nodes: seq<Logger>): (h: Option<HandlerId>)
    reads nodes
  {
    if nodes == [] then None
    else if nodes[0].handler.Some? then nodes[0].handler
    else InheritedHandler(nodes[1..])
  }

  /** The effective level is the level of the first node, in chain order, whose level is set. */
  lemma {:induction false} InheritedLevelIsFirstSet(nodes: seq<Logger>, k: nat)
    requires k < |nodes| && nodes[k].level != UnsetLevel
    requires forall j :: 0 <= j < k ==> nodes[j].level == UnsetLevel
    ensures InheritedLevel(nodes) == nodes[k].level
  {
    if k > 0 {
      InheritedLevelIsFirstSet(nodes[1..], k - 1);
    }
  }

  /** With no level set anywhere on the chain, the effective level is InfoLevel. */
  lemma {:induction false} InheritedLevelDefault(nodes: seq<Logger>)
    requires forall j :: 0 <= j < |nodes| ==> nodes[j].level == UnsetLevel
    ensures InheritedLevel(nodes) == InfoLevel
  {
    if nodes != [] {
      InheritedLevelDefault(nodes[1..]);
    }
  }

  /** The unset sentinel is only a marker: it is never the effective level. */
  lemma {:induction false} InheritedLevelIsSet(nodes: seq<Logger>)
    ensures InheritedLevel(nodes) != UnsetLevel
  {
    if nodes != [] && nodes[0].level == UnsetLevel {
      InheritedLevelIsSet(nodes[1..]);
    }
  }

  /**
   * When every node's level is one of the named levels (or unset), the
   * effective level is a real level, so a fatal message always passes the gate.
   */
  lemma {:induction false} InheritedLevelIsReal(nodes: seq<Logger>)
    requires forall j :: 0 <= j < |nodes| ==> UnsetLevel <= nodes[j].level <= FatalLevel
    ensures IsReal(InheritedLevel(nodes))
    ensures FatalLevel >= InheritedLevel(nodes)
  {
    if nodes != [] && nodes[0].level == UnsetLevel {
      InheritedLevelIsReal(nodes[1..]);
    }
  }

  /** The effective handler is the handler of the first node, in chain order, that has one. */
  lemma {:induction false} InheritedHandlerIsFirst(nodes: seq<Logger>, k: nat)
    requires k < |nodes| && nodes[k].handler.Some?
    requires forall j :: 0 <= j < k ==> nodes[j].handler == None
    ensures InheritedHandler(nodes) == nodes[k].handler
  {
    if k > 0 {
      InheritedHandlerIsFirst(nodes[1..], k - 1);
    }
  }

  /** No handler is resolved exactly when no node on the chain has one. */
  lemma {:induction false} InheritedHandlerNone(nodes: seq<Logger>)
    ensures InheritedHandler(nodes) == None <==> forall j :: 0 <= j < |nodes| ==> nodes[j].handler == None
  {
    if nodes != [] {
      InheritedHandlerNone(nodes[1..]);
      if nodes[0].handler == None {
        assert forall j :: 1 <= j < |nodes| ==> nodes[j] == nodes[1..][j - 1];
      }
    }
  }

  /** Deriving twice with the same key keeps only the later value: last write wins. */
  lemma OverlayLastWriteWins(base: Fields, key: string, first: Value, second: Value)
    ensures Overlay(Overlay(base, map[key := first]), map[key := second]) == base[key := second]
  {
  }

  /** Successive derivations compose into one overlay of the combined additions. */
  lemma OverlayCompose(base: Fields, a: Fields, b: Fields)
    ensures Overlay(Overlay(base, a), b) == Overlay(base, Overlay(a, b))
  {
  }

  /** `Logger`: one node of the logger tree. */
  class Logger {
    var level: Level
    var handler: Option<HandlerId>
    const parent: Logger?
    const fields: Fields
    /** The parent chain above this node, nearest first; it makes the walk up the tree finite. */
    ghost const ancestors: seq<Logger>

    /** The chain is exactly the parent, then the parent's own chain. */
    ghost predicate Valid()
      decreases |ancestors|
    {
      if parent == null then ancestors == []
      else ancestors == [parent] + parent.ancestors && parent.Valid()
    }

    /** The nodes that resolution visits: this node, then its ancestors. */
    ghost function Chain(): (nodes: seq<Logger>) {
      [this] + ancestors
    }

    /** `New`: a root at InfoLevel with handler `h` and no fields. */
    constructor New(h: Option<HandlerId>)
      ensures Valid() && parent == null && fields == map[]
      ensures level == InfoLevel && handler == h
    {
      level := InfoLevel;
      handler := h;
      parent := null;
      fields := map[];
      ancestors := [];
    }

    /** The struct literal of the derivations: a child of `parent` with no handler. */
    constructor Child(level: Level, parent: Logger, fields: Fields)
      requires parent.Valid()
      ensures Valid() && this.parent == parent && this.fields == fields
      ensures this.level == level && handler == None
    {
      this.level := level;
      handler := None;
      this.parent := parent;
      this.fields := fields;
      ancestors := [parent] + parent.ancestors;
    }

    /** A child that leaves its level unset resolves the level of its parent. */
    lemma InheritsLevel()
      requires Valid() && parent != null && level == UnsetLevel
      ensures InheritedLevel(Chain()) == InheritedLevel(parent.Chain())
    {
      assert Chain()[1..] == parent.Chain();
    }

    /** A child without a handler resolves the handler of its parent. */
    lemma InheritsHandler()
      requires Valid() && parent != null && handler == None
      ensures InheritedHandler(Chain()) == InheritedHandler(parent.Chain())
    {
      assert Chain()[1..] == parent.Chain();
    }

    /** `WithLevel`: a child at `lv` that shares this node's field map. */
    method WithLevel(lv: Level) returns (child: Logger)
      requires Valid()
      ensures fresh(child) && child.Valid() && child.parent == this
      ensures child.level == lv && child.handler == None && child.fields == fields
    {
      child := new Logger.Child(lv, this, fields);
    }

    /** `WithFields`: a child carrying this node's fields overlaid by `extra`, inheriting level and handler. */
    method WithFields(extra: Fields) returns (child: Logger)
      requires Valid()
      ensures fresh(child) && child.Valid() && child.parent == this
      ensures child.level == UnsetLevel && child.handler == None
      ensures child.fields == Overlay(fields, extra)
    {
      var f := MergeFields(fields, extra);
      child := new Logger.Child(UnsetLevel, this, f);
    }

    /** `WithField`: WithFields with the one-entry map {key: value}. */
    method WithField(key: string, value: Value) returns (child: Logger)
      requires Valid()
      ensures fresh(child) && child.Valid() && child.parent == this
      ensures child.level == UnsetLevel && child.handler == None
      ensures child.fields == fields[key := value]
    {
      child := WithFields(map[key := value]);
    }

    /** `WithError`: WithField("error", err.Error()). */
    method WithError(err: GoError) returns (child: Logger)
      requires Valid()
      ensures fresh(child) && child.Valid() && child.parent == this
      ensures child.level == UnsetLevel && child.handler == None
      ensures child.fields == fields["error" := Text(err.Error())]
    {
      child := WithField("error", Text(err.Error()));
    }

    /** `level()`: walk up from this node to the first node whose level is set. */
    method ResolveLevel() returns (lv: Level)
      requires Valid()
      ensures lv == InheritedLevel(Chain())
    {
      var cur: Logger? := this;
      ghost var i := 0;
      while cur != null
        invariant 0 <= i <= |Chain()|
        invariant cur == null ==> i == |Chain()|
        invariant cur != null ==> i < |Chain()| && cur.Valid() && cur.Chain() == Chain()[i..]
        invariant InheritedLevel(Chain()[i..]) == InheritedLevel(Chain())
        decreases |Chain()| - i
      {
        if cur.level != UnsetLevel {
          return cur.level;
        }
        assert Chain()[i + 1..] == Chain()[i..][1..];
        cur := cur.parent;
        i := i + 1;
      }
      return InfoLevel;
    }

    /** `handler()`: walk up from this node to the first node with a handler. */
    method ResolveHandler() returns (h: Option<HandlerId>)
      requires Valid()
      ensures h == InheritedHandler(Chain())
    {
      var cur: Logger? := this;
      ghost var i := 0;
      while cur != null
        invariant 0 <= i <= |Chain()|
        invariant cur == null ==> i == |Chain()|
        invariant cur != null ==> i < |Chain()| && cur.Valid() && cur.Chain() == Chain()[i..]
        invariant InheritedHandler(Chain()[i..]) == InheritedHandler(Chain())
        decreases |Chain()| - i
      {
        if cur.handler.Some? {
          return cur.handler;
        }
        assert Chain()[i + 1..] == Chain()[i..][1..];
        cur := cur.parent;
        i := i + 1;
      }
      return None;
    }

    /**
     * What a call `Log(lv, msg)` at instant `now` does: it delivers exactly
     * when `lv` is at least the effective level and some handler is
     * resolved, and then hands that handler an entry with this node's own
     * fields; a handler error yields only a diagnostic line.
     */
    ghost predicate Dispatched(lv: Level, msg: string, now: Time, respond: Responder,
                               delivered: Option<Delivery>, diagnostic: Option<string>)
      reads Chain()
    {
      var h := InheritedHandler(Chain());
      && (delivered.Some? <==> lv >= InheritedLevel(Chain()) && h.Some?)
      && (delivered.Some? ==> delivered.value == Delivery(h.value, Entry(fields, lv, msg, now)))
      && (diagnostic.Some? <==> delivered.Some? && respond(h.value, delivered.value.entry).Some?)
      && (diagnostic.Some? ==>
            diagnostic.value == "error logging: " + respond(h.value, delivered.value.entry).value)
    }

    /** `Log`: level gate, then handler gate, then one entry to the handler; handler errors are swallowed. */
    method Log(lv: Level, msg: string, now: Time, respond: Responder)
      returns (delivered: Option<Delivery>, diagnostic: Option<string>)
      requires Valid()
      ensures Dispatched(lv, msg, now, respond, delivered, diagnostic)
    {
      var threshold := ResolveLevel();
      if lv < threshold {
        return None, None;
      }
      var h := ResolveHandler();
      if h == None {
        return None, None;
      }
      var e := Entry(fields, lv, msg, now);
      delivered := Some(Delivery(h.value, e));
      var err := respond(h.value, e);
      if err.Some? {
        diagnostic := Some("error logging: " + err.value);
      } else {
        diagnostic := None;
      }
    }

    /**
     * Fatal is the top of the order: as long as every level on the chain is
     * a named level or unset, a fatal message is delivered whenever a
     * handler is resolved.
     */
    lemma FatalPassesGate(msg: string, now: Time, respond: Responder,
                          delivered: Option<Delivery>, diagnostic: Option<string>)
      requires Valid()
      requires forall j :: 0 <= j < |Chain()| ==> UnsetLevel <= Chain()[j].level <= FatalLevel
      requires InheritedHandler(Chain()).Some?
      requires Dispatched(FatalLevel, msg, now, respond, delivered, diagnostic)
      ensures delivered == Some(Delivery(InheritedHandler(Chain()).value, Entry(fields, FatalLevel, msg, now)))
    {
      InheritedLevelIsReal(Chain());
    }

    /** The gate is monotone: a message that is delivered would also be delivered at any higher level. */
    lemma GateMonotone(lo: Level, hi: Level, msg: string, now: Time, respond: Responder,
                       dLo: Option<Delivery>, gLo: Option<string>, dHi: Option<Delivery>, gHi: Option<string>)
      requires Valid() && lo <= hi
      requires Dispatched(lo, msg, now, respond, dLo, gLo)
      requires Dispatched(hi, msg, now, respond, dHi, gHi)
      ensures dLo.Some? ==> dHi.Some? && dHi.value.handler == dLo.value.handler
    {
    }

    /** `Debug`: Log at DebugLevel. */
    method Debug(msg: string, now: Time, respond: Responder)
      returns (delivered: Option<Delivery>, diagnostic: Option<string>)
      requires Valid()
      ensures Dispatched(DebugLevel, msg, now, respond, delivered, diagnostic)
    {
      delivered, diagnostic := Log(DebugLevel, msg, now, respond);
    }

    /** `Info`: Log at InfoLevel. */
    method Info(msg: string, now: Time, respond: Responder)
      returns (delivered: Option<Delivery>, diagnostic: Option<string>)
      requires Valid()
      ensures Dispatched(InfoLevel, msg, now, respond, delivered, diagnostic)
    {
      delivered, diagnostic := Log(InfoLevel, msg, now, respond);
    }

    /** `Warn`: Log at WarnLevel. */
    method Warn(msg: string, now: Time, respond: Responder)
      returns (delivered: Option<Delivery>, diagnostic: Option<string>)
      requires Valid()
      ensures Dispatched(WarnLevel, msg, now, respond, delivered, diagnostic)
    {
      delivered, diagnostic := Log(WarnLevel, msg, now, respond);
    }

    /** `Error`: Log at ErrorLevel. */
    method Error(msg: string, now: Time, respond: Responder)
      returns (delivered: Option<Delivery>, diagnostic: Option<string>)
      requires Valid()
      ensures Dispatched(ErrorLevel, msg, now, respond, delivered, diagnostic)
    {
      delivered, diagnostic := Log(ErrorLevel, msg, now, respond);
    }

    /** `Fatal`: Log at FatalLevel, then exit status 1 whatever happened. */
    method Fatal(msg: string, now: Time, respond: Responder)
      returns (delivered: Option<Delivery>, diagnostic: Option<string>, exitCode: int)
      requires Valid()
      ensures Dispatched(FatalLevel, msg, now, respond, delivered, diagnostic)
      ensures exitCode == 1
    {
      delivered, diagnostic := Log(FatalLevel, msg, now, respond);
      exitCode := 1;
    }
  }
}
