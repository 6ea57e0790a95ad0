/**
 * The context helpers of global.go. Each is the composition
 * `From(ctx).WithFields(ContextFields(ctx)).Xf(msg, args...)`; `dflt` is what `DefaultLogger()` answers.
 */
module Global {
  import opened Wrappers
  import opened FieldMaps
  import opened Adapters
  import opened Contexts
  import opened Loggers

  /** Infof(ctx, msg, args...): one Write at info on the adapter of `From(ctx)`. */
  function Infof(ctx: Ctx, dflt: Logger, clock: Time, sprintf: Formatter, msg: string, args: seq<Value>): (w: Call)
    ensures w.adapter == From(ctx, dflt).adapter
    ensures w.event.severity == Adapters.Info && w.event.clock == clock && w.event.msg == sprintf(msg, args)
    ensures w.event.fields == Merge(From(ctx, dflt).fields, ContextFields(ctx))
  {
    From(ctx, dflt).WithFields(ContextFields(ctx)).Infof(clock, sprintf, msg, args)
  }

  /** Errorf(ctx, msg, args...): one Write at error on the adapter of `From(ctx)`. */
  function Errorf(ctx: Ctx, dflt: Logger, clock: Time, sprintf: Formatter, msg: string, args: seq<Value>): (w: Call)
    ensures w.adapter == From(ctx, dflt).adapter
    ensures w.event.severity == Adapters.Error && w.event.clock == clock && w.event.msg == sprintf(msg, args)
    ensures w.event.fields == Merge(From(ctx, dflt).fields, ContextFields(ctx))
  {
    From(ctx, dflt).WithFields(ContextFields(ctx)).Errorf(clock, sprintf, msg, args)
  }

  /** The observable outcome of Fatalf: the write it makes, then the process exit status. */
  datatype Exit = Exit(write: Call, status: int)

  /** Fatalf(ctx, msg, args...): exactly the Errorf write, then `os.Exit(1)`. */
  function Fatalf(ctx: Ctx, dflt: Logger, clock: Time, sprintf: Formatter, msg: string, args: seq<Value>): (r: Exit)
    ensures r.write == Errorf(ctx, dflt, clock, sprintf, msg, args)
    ensures r.write.event.severity == Adapters.Error
    ensures r.status == 1
  {
    Exit(Errorf(ctx, dflt, clock, sprintf, msg, args), 1)
  }

  /** Context fields win over the logger's on a shared key; the logger's other keys are kept. */
  lemma ContextFieldsWin(ctx: Ctx, dflt: Logger, clock: Time, sprintf: Formatter, msg: string, args: seq<Value>, k: string)
    ensures var written := Entries(Infof(ctx, dflt, clock, sprintf, msg, args).event.fields);
      && (k in Entries(ContextFields(ctx)) ==> k in written && written[k] == Entries(ContextFields(ctx))[k])
      && (k in Entries(From(ctx, dflt).fields) && k !in Entries(ContextFields(ctx)) ==>
            k in written && written[k] == Entries(From(ctx, dflt).fields)[k])
  {
  }

  /** With no logger fields and no context fields, the helpers write nil fields. */
  lemma NoFieldsWritesNil(ctx: Ctx, dflt: Logger, clock: Time, sprintf: Formatter, msg: string, args: seq<Value>)
    requires From(ctx, dflt).fields == None && ContextFields(ctx) == None
    ensures Infof(ctx, dflt, clock, sprintf, msg, args).event.fields == None
    ensures Errorf(ctx, dflt, clock, sprintf, msg, args).event.fields == None
  {
  }

  /** On a context whose latest attachment is logger `l`, the helpers write `l`'s own fields to `l`'s adapter. */
  lemma AttachedLoggerHelpers(ctx: Ctx, l: Logger, dflt: Logger, clock: Time, sprintf: Formatter, msg: string, args: seq<Value>)
    requires Canonical(l.fields)
    ensures Infof(With(ctx, l), dflt, clock, sprintf, msg, args) == l.Infof(clock, sprintf, msg, args)
    ensures Errorf(With(ctx, l), dflt, clock, sprintf, msg, args) == l.Errorf(clock, sprintf, msg, args)
  {
    MergeNil(l.fields);
  }

  /**
   * On a context whose latest attachment is fields, the helpers write to the default logger's
   * adapter, with exactly the context's fields (the default logger has none).
   */
  lemma AttachedFieldsHelpers(ctx: Ctx, f: Fields, a: Adapter, clock: Time, sprintf: Formatter, msg: string, args: seq<Value>)
    ensures var w := Infof(WithFields(ctx, f), Logger(None, a), clock, sprintf, msg, args);
      w.adapter == a && w.event.fields == Merge(ContextFields(ctx), f)
  {
    MergeNil(Merge(ContextFields(ctx), f));
  }

  /**
   * A logger attached before fields is not used: the write goes to the default logger's adapter,
   * although the logger `l` was attached to the same context.
   */
  lemma LoggerThenFieldsUsesDefault(l: Logger, f: Fields, a: Adapter, clock: Time, sprintf: Formatter, msg: string, args: seq<Value>)
    ensures Infof(WithFields(With(Background, l), f), Logger(None, a), clock, sprintf, msg, args).adapter == a
  {
  }
}
