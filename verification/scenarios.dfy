/**
 * Client programs that replay the repository's logger tests, plus
 * scenarios for field overlay, WithError, a failing handler and the root
 * setters, checked against the specifications alone.
 */
module Scenarios {
  import opened Wrappers
  import opened Levels
  import opened Logging
  import opened DefaultLogger

  /** A recording handler that never fails, like the test handler of logger_test.go. */
  function Accept(h: HandlerId, e: Entry): Option<string> {
    None
  }

  /** TestLogger: info is delivered with no fields, debug is dropped, warn is delivered. */
  method LoggerBasics() {
    var logger := new Logger.New(Some(7));
    var d1, _ := logger.Info("a", 0, Accept);
    assert d1 == Some(Delivery(7, Entry(map[], InfoLevel, "a", 0)));
    var d2, _ := logger.Debug("b", 1, Accept);
    assert d2 == None;
    var d3, _ := logger.Warn("c", 2, Accept);
    assert d3 == Some(Delivery(7, Entry(map[], WarnLevel, "c", 2)));
  }

  /** TestLogger_WithLevel: a child at warn drops info and delivers warn through the parent's handler. */
  method LoggerWithLevel() {
    var logger := new Logger.New(Some(7));
    var l := logger.WithLevel(WarnLevel);
    assert l.Chain() == [l, logger];
    var d1, _ := l.Info("a", 0, Accept);
    assert d1 == None;
    l.InheritsHandler();
    var d2, _ := l.Warn("b", 1, Accept);
    assert d2 == Some(Delivery(7, Entry(map[], WarnLevel, "b", 1)));
  }

  /** TestLogger_WithFields: after lowering the root to debug, a derived logger delivers its fields at debug. */
  method LoggerWithFields() {
    var logger := new Logger.New(Some(7));
    logger.level := DebugLevel;
    var l := logger.WithFields(map["foo" := Text("bar")]);
    assert l.Chain() == [l, logger];
    l.InheritsLevel();
    l.InheritsHandler();
    assert l.fields == map["foo" := Text("bar")];
    var d1, _ := l.Debug("a", 0, Accept);
    assert d1 == Some(Delivery(7, Entry(map["foo" := Text("bar")], DebugLevel, "a", 0)));
  }

  /** Overlay on derivation leaves the parent's fields alone; WithError records the error text. */
  method FieldOverlay() {
    var root := new Logger.New(Some(7));
    var b := root.WithField("b", Number(2));
    var ab := b.WithFields(map["a" := Number(1)]);
    assert ab.fields == map["a" := Number(1), "b" := Number(2)];
    assert b.fields == map["b" := Number(2)];
    var e := root.WithError(GoError("boom"));
    assert e.fields == map["error" := Text("boom")];
  }

  /** A handler error is swallowed: the entry was delivered and only a diagnostic line results. */
  method HandlerFailure() {
    var logger := new Logger.New(Some(7));
    var d, diag := logger.Error("x", 0, (h: HandlerId, e: Entry) => Some("disk full"));
    assert d.Some?;
    assert "error logging: " + "disk full" == "error logging: disk full";
    assert diag == Some("error logging: disk full");
  }

  /** The root starts silent; setting its handler and level is seen by loggers derived earlier. */
  method RootSetters() {
    var pkg := new Root();
    var child := pkg.WithField("k", Flag(true));
    assert child.Chain() == [child, pkg.log];
    assert pkg.log.handler == None;
    assert pkg.log.Chain() == [pkg.log] && pkg.log.Chain()[1..] == [];
    assert InheritedHandler(pkg.log.Chain()) == None;
    var d1, _ := pkg.Info("dropped", 0, Accept);
    assert d1 == None;
    pkg.SetHandler(Some(3));
    pkg.SetLevel(WarnLevel);
    child.InheritsLevel();
    child.InheritsHandler();
    var d2, _ := child.Info("still dropped", 1, Accept);
    assert d2 == None;
    var d3, _ := child.Warn("kept", 2, Accept);
    assert d3 == Some(Delivery(3, Entry(map["k" := Flag(true)], WarnLevel, "kept", 2)));
  }
}
