/** `LoggerService`, the NestJS wrapper around the logger utility: how each method
    assembles the metadata object it forwards, and which `context` value wins.
    The utility itself is represented by the record of forwarded calls. */
module NestLogger {
  import opened Wrappers
  import opened Metadata

  /** A string is truthy when it is defined and not empty. */
  predicate Truthy(s: Option<string>) { s.Some? && s.value != "" }

  /** The second argument of `error`, `warn` and `log`: absent (or `null`), a string,
      or an object of string-valued properties. */
  datatype TraceOrMetadata = NoArg | Text(text: string) | Object(entries: Entries)

  /** One call into the logger utility. */
  datatype Forwarded = Forwarded(level: string, message: string, metadata: Entries)

  /** The object argument copied into a fresh object, or a truthy string stored
      under `key`. */
  function FromArgument(arg: TraceOrMetadata, key: string): (r: Entries)
    requires arg.Object? ==> UniqueKeys(arg.entries)
    ensures UniqueKeys(r)
    ensures arg.Object? ==> forall k :: Lookup(r, k) == Lookup(arg.entries, k)
    ensures arg.Text? && arg.text != "" ==> r == [(key, arg.text)]
    ensures arg.NoArg? || arg == Text("") ==> r == []
  {
    match arg
    case Object(o) =>
      assert forall k :: Lookup(Assign([], o), k) == Lookup(o, k) by {
        forall k ensures Lookup(Assign([], o), k) == Lookup(o, k) { AssignLookup([], o, k); }
      }
      Assign([], o)
    case Text(s) => if s != "" then Put([], key, s) else []
    case NoArg => []
  }

  /** The metadata `error` forwards: the argument object's properties, or a truthy
      string as `trace`; then `context`, the explicit parameter before the stored one. */
  function ErrorMetadata(arg: TraceOrMetadata, context: Option<string>, stored: Option<string>): (r: Entries)
    requires arg.Object? ==> UniqueKeys(arg.entries)
    ensures UniqueKeys(r)
    ensures Lookup(r, "context")
            == if Truthy(context) then context else if Truthy(stored) then stored
               else Lookup(FromArgument(arg, "trace"), "context")
    ensures forall k :: k != "context" ==> Lookup(r, k) == Lookup(FromArgument(arg, "trace"), k)
  {
    var m := FromArgument(arg, "trace");
    if Truthy(context) || Truthy(stored) then Put(m, "context", if Truthy(context) then context.value else stored.value)
    else m
  }

  /** The metadata `warn` and `log` forward: the argument object's properties, or a
      truthy string as `context`; then the stored context, when set, overwrites it. */
  function WarnMetadata(arg: TraceOrMetadata, stored: Option<string>): (r: Entries)
    requires arg.Object? ==> UniqueKeys(arg.entries)
    ensures UniqueKeys(r)
    ensures Lookup(r, "context") == if Truthy(stored) then stored else Lookup(FromArgument(arg, "context"), "context")
    ensures forall k :: k != "context" ==> Lookup(r, k) == Lookup(FromArgument(arg, "context"), k)
  {
    StoredContextInto(FromArgument(arg, "context"), stored)
  }

  /** `if (this.context) metadata.context = this.context` on a metadata object. */
  function StoredContextInto(m: Entries, stored: Option<string>): (r: Entries)
    ensures Truthy(stored) ==> Lookup(r, "context") == stored && Keys(r) == Keys(m) + {"context"}
    ensures !Truthy(stored) ==> r == m
    ensures forall k :: k != "context" ==> Lookup(r, k) == Lookup(m, k)
    ensures UniqueKeys(m) ==> UniqueKeys(r)
  {
    if Truthy(stored) then Put(m, "context", stored.value) else m
  }

  /** The metadata `verbose` builds before handing it to `debug`. */
  function VerboseMetadata(context: Option<string>, stored: Option<string>): (r: Entries)
    ensures Truthy(context) || Truthy(stored) <==> Keys(r) == {"context"}
    ensures !(Truthy(context) || Truthy(stored)) <==> r == []
  {
    if Truthy(context) || Truthy(stored) then [("context", if Truthy(context) then context.value else stored.value)]
    else []
  }

  /** In `error`, an explicit context beats the stored one. */
  lemma ErrorExplicitContextWins(arg: TraceOrMetadata, context: string, stored: Option<string>)
    requires arg.Object? ==> UniqueKeys(arg.entries)
    requires context != ""
    ensures Lookup(ErrorMetadata(arg, Some(context), stored), "context") == Some(context)
  {
  }

  /** In `warn` and `log`, the stored context beats a string argument. */
  lemma WarnStoredContextWins(text: string, stored: string)
    requires stored != ""
    ensures WarnMetadata(Text(text), Some(stored)) == [("context", stored)]
  {
    if text != "" {
      assert FromArgument(Text(text), "context") == [("context", text)];
    }
  }

  /** In `error`, a truthy string argument travels as `trace` and nothing else of it
      is kept. */
  lemma ErrorStringIsTrace(text: string, context: Option<string>, stored: Option<string>)
    requires text != ""
    ensures Lookup(ErrorMetadata(Text(text), context, stored), "trace") == Some(text)
    ensures Keys(ErrorMetadata(Text(text), context, stored))
            == {"trace"} + (if Truthy(context) || Truthy(stored) then {"context"} else {})
  {
    assert FromArgument(Text(text), "trace") == [("trace", text)];
    assert Keys([("trace", text)]) == {"trace"} by { KeysCons(("trace", text), []); }
  }

  /** What `verbose` finally forwards: since `debug` applies the stored context last,
      an explicit context survives only when no context is stored. */
  lemma VerboseContext(context: Option<string>, stored: Option<string>)
    ensures Lookup(StoredContextInto(VerboseMetadata(context, stored), stored), "context")
            == if Truthy(stored) then stored else if Truthy(context) then context else None
  {
  }

  /** The caller's own metadata object for `info` and `debug`. */
  class MetadataObject {
    var entries: Entries

    constructor(entries: Entries)
      ensures this.entries == entries
    {
      this.entries := entries;
    }
  }

  class LoggerService {
    var context: Option<string>
    var forwarded: seq<Forwarded>

    constructor()
      ensures context == None && forwarded == []
    {
      context := None;
      forwarded := [];
    }

    method SetContext(context: string)
      modifies this
      ensures this.context == Some(context) && forwarded == old(forwarded)
    {
      this.context := Some(context);
    }

    method Error(message: string, traceOrMetadata: TraceOrMetadata, context: Option<string>)
      requires traceOrMetadata.Object? ==> UniqueKeys(traceOrMetadata.entries)
      modifies this
      ensures this.context == old(this.context)
      ensures forwarded == old(forwarded) + [Forwarded("error", message, ErrorMetadata(traceOrMetadata, context, this.context))]
    {
      var metadata: Entries := [];
      match traceOrMetadata {
        case Object(o) => metadata := Assign(metadata, o);
        case Text(s) => if s != "" { metadata := Put(metadata, "trace", s); }
        case NoArg =>
      }
      if Truthy(context) || Truthy(this.context) {
        metadata := Put(metadata, "context", if Truthy(context) then context.value else this.context.value);
      }
      forwarded := forwarded + [Forwarded("error", message, metadata)];
    }

    method Warn(message: string, contextOrMetadata: TraceOrMetadata)
      requires contextOrMetadata.Object? ==> UniqueKeys(contextOrMetadata.entries)
      modifies this
      ensures context == old(context)
      ensures forwarded == old(forwarded) + [Forwarded("warn", message, WarnMetadata(contextOrMetadata, context))]
    {
      var metadata := Assembled(contextOrMetadata);
      forwarded := forwarded + [Forwarded("warn", message, metadata)];
    }

    /** `log` forwards at the info level. */
    method Log(message: string, contextOrMetadata: TraceOrMetadata)
      requires contextOrMetadata.Object? ==> UniqueKeys(contextOrMetadata.entries)
      modifies this
      ensures context == old(context)
      ensures forwarded == old(forwarded) + [Forwarded("info", message, WarnMetadata(contextOrMetadata, context))]
    {
      var metadata := Assembled(contextOrMetadata);
      forwarded := forwarded + [Forwarded("info", message, metadata)];
    }

    /** The shared body of `warn` and `log`. */
    method Assembled(contextOrMetadata: TraceOrMetadata) returns (metadata: Entries)
      requires contextOrMetadata.Object? ==> UniqueKeys(contextOrMetadata.entries)
      ensures metadata == WarnMetadata(contextOrMetadata, context)
    {
      metadata := [];
      match contextOrMetadata {
        case Object(o) => metadata := Assign(metadata, o);
        case Text(s) => if s != "" { metadata := Put(metadata, "context", s); }
        case NoArg =>
      }
      if Truthy(context) {
        metadata := Put(metadata, "context", context.value);
      }
    }

    /** `info` adds the stored context to the caller's own object, not to a copy;
        without an object it uses a fresh empty one. */
    method Info(message: string, metadata: MetadataObject?)
      modifies this, metadata
      ensures context == old(context)
      ensures metadata != null ==> metadata.entries == StoredContextInto(old(metadata.entries), context)
      ensures forwarded == old(forwarded)
        + [Forwarded("info", message, StoredContextInto(if metadata == null then [] else old(metadata.entries), context))]
    {
      Forward("info", message, metadata);
    }

    method Debug(message: string, metadata: MetadataObject?)
      modifies this, metadata
      ensures context == old(context)
      ensures metadata != null ==> metadata.entries == StoredContextInto(old(metadata.entries), context)
      ensures forwarded == old(forwarded)
        + [Forwarded("debug", message, StoredContextInto(if metadata == null then [] else old(metadata.entries), context))]
    {
      Forward("debug", message, metadata);
    }

    /** The shared body of `info` and `debug`. */
    method Forward(level: string, message: string, metadata: MetadataObject?)
      modifies this, metadata
      ensures context == old(context)
      ensures metadata != null ==> metadata.entries == StoredContextInto(old(metadata.entries), context)
      ensures forwarded == old(forwarded)
        + [Forwarded(level, message, StoredContextInto(if metadata == null then [] else old(metadata.entries), context))]
    {
      var logMetadata: MetadataObject;
      if metadata != null {
        logMetadata := metadata;
      } else {
        logMetadata := new MetadataObject([]);
      }
      if Truthy(context) {
        logMetadata.entries := Put(logMetadata.entries, "context", context.value);
      }
      forwarded := forwarded + [Forwarded(level, message, logMetadata.entries)];
    }

    /** `verbose` goes through `debug`, so a stored context replaces the argument. */
    method Verbose(message: string, context: Option<string>)
      modifies this
      ensures this.context == old(this.context)
      ensures forwarded == old(forwarded)
        + [Forwarded("debug", message, StoredContextInto(VerboseMetadata(context, this.context), this.context))]
    {
      var metadata := new MetadataObject([]);
      if Truthy(context) || Truthy(this.context) {
        metadata.entries := Put(metadata.entries, "context", if Truthy(context) then context.value else this.context.value);
      }
      Debug(message, metadata);
    }
  }
}
