/**
 * The process-wide root logger (pkg.go): one shared Logger, two setters
 * that update it in place, and free functions that delegate to it.
 */
module DefaultLogger {
  import opened Wrappers
  import opened Levels
  import opened Logging

  /** The package state: the variable `Log` and the functions around it. */
  class Root {
    /** The singleton `Log`, the root of the commonly used logger tree. */
    const log: Logger

    ghost predicate Valid() {
      log.Valid() && log.parent == null && log.fields == map[]
    }

    /** Package initialisation: `Log` starts at InfoLevel with no handler, no parent and no fields. */
    constructor ()
      ensures Valid() && fresh(log)
      ensures log.level == InfoLevel && log.handler == None
    {
      log := new Logger.New(None);
    }

    /** `SetHandler`: replaces the root's handler and nothing else. */
    method SetHandler(h: Option<HandlerId>)
      requires Valid()
      modifies log`handler
      ensures Valid() && log.handler == h
    {
      log.handler := h;
    }

    /** `SetLevel`: replaces the root's level and nothing else. */
    method SetLevel(lv: Level)
      requires Valid()
      modifies log`level
      ensures Valid() && log.level == lv
    {
      log.level := lv;
    }

    /** `WithLevel`: the root's WithLevel, a child of the root at `lv`. */
    method WithLevel(lv: Level) returns (child: Logger)
      requires Valid()
      ensures fresh(child) && child.Valid() && child.parent == log
      ensures child.level == lv && child.handler == None && child.fields == map[]
    {
      child := log.WithLevel(lv);
    }

    /** `WithFields`: the root's WithFields; the root has no fields, so the child carries exactly `extra`. */
    method WithFields(extra: Fields) returns (child: Logger)
      requires Valid()
      ensures fresh(child) && child.Valid() && child.parent == log
      ensures child.level == UnsetLevel && child.handler == None && child.fields == extra
    {
      child := log.WithFields(extra);
    }

    /** `WithField`: the root's WithField. */
    method WithField(key: string, value: Value) returns (child: Logger)
      requires Valid()
      ensures fresh(child) && child.Valid() && child.parent == log
      ensures child.level == UnsetLevel && child.handler == None && child.fields == map[key := value]
    {
      child := log.WithField(key, value);
    }

    /** `WithError`: the root's WithError. */
    method WithError(err: GoError) returns (child: Logger)
      requires Valid()
      ensures fresh(child) && child.Valid() && child.parent == log
      ensures child.level == UnsetLevel && child.handler == None
      ensures child.fields == map["error" := Text(err.Error())]
    {
      child := log.WithError(err);
    }

    /** `Debug`: the root's Debug. */
    method Debug(msg: string, now: Time, respond: Responder)
      returns (delivered: Option<Delivery>, diagnostic: Option<string>)
      requires Valid()
      ensures log.Dispatched(DebugLevel, msg, now, respond, delivered, diagnostic)
    {
      delivered, diagnostic := log.Debug(msg, now, respond);
    }

    /** `Info`: the root's Info. */
    method Info(msg: string, now: Time, respond: Responder)
      returns (delivered: Option<Delivery>, diagnostic: Option<string>)
      requires Valid()
      ensures log.Dispatched(InfoLevel, msg, now, respond, delivered, diagnostic)
    {
      delivered, diagnostic := log.Info(msg, now, respond);
    }

    /** `Warn`: the root's Warn. */
    method Warn(msg: string, now: Time, respond: Responder)
      returns (delivered: Option<Delivery>, diagnostic: Option<string>)
      requires Valid()
      ensures log.Dispatched(WarnLevel, msg, now, respond, delivered, diagnostic)
    {
      delivered, diagnostic := log.Warn(msg, now, respond);
    }

    /** `Error`: the root's Error. */
    method Error(msg: string, now: Time, respond: Responder)
      returns (delivered: Option<Delivery>, diagnostic: Option<string>)
      requires Valid()
      ensures log.Dispatched(ErrorLevel, msg, now, respond, delivered, diagnostic)
    {
      delivered, diagnostic := log.Error(msg, now, respond);
    }

    /** `Fatal`: the root's Fatal, ending with exit status 1. */
    method Fatal(msg: string, now: Time, respond: Responder)
      returns (delivered: Option<Delivery>, diagnostic: Option<string>, exitCode: int)
      requires Valid()
      ensures log.Dispatched(FatalLevel, msg, now, respond, delivered, diagnostic)
      ensures exitCode == 1
    {
      delivered, diagnostic, exitCode := log.Fatal(msg, now, respond);
    }
  }
}
