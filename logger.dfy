/**
 A model of the structured-logging façade of pkg/logger/logger.go.

 The façade binds a method name and a node identity to a logrus entry, translates
 its own level enumeration to the backend's, prefixes every format string with the
 method name, and accumulates key/value fields by overriding merges.

 The backend is not part of this model: writing an entry is modelled as appending an
 abstract `Entry` to a ghost log, and the backend's field merge is taken to be the
 right-biased map union `Overridden` (the contract assumed of logrus
 `Entry.WithField` / `Entry.WithFields`).
 */
module Logger {

  // ---------------------------------------------------------------------------
  // Levels
  // ---------------------------------------------------------------------------

  /** The façade's level: a Go `uint32`. */
  newtype Level = x: int | 0 <= x < 0x1_0000_0000

  // The named levels, consecutive from the most severe (0) to the least (6).
  const PanicLevel: Level := 0
  const FatalLevel: Level := 1
  const ErrorLevel: Level := 2
  const WarnLevel: Level := 3
  const InfoLevel: Level := 4
  const DebugLevel: Level := 5
  const TraceLevel: Level := 6

  /** The named façade levels, in declaration order. */
  const NamedLevels: seq<Level> :=
    [PanicLevel, FatalLevel, ErrorLevel, WarnLevel, InfoLevel, DebugLevel, TraceLevel]

  /** The backend's (logrus) level enumeration. */
  datatype BackendLevel = Panic | Fatal | Error | Warn | Info | Debug | Trace

  /** The façade level that carries the same name as backend level `b`. */
  function SameNamed(b: BackendLevel): (l: Level)
    ensures l <= TraceLevel
  {
    match b
    case Panic => PanicLevel
    case Fatal => FatalLevel
    case Error => ErrorLevel
    case Warn => WarnLevel
    case Info => InfoLevel
    case Debug => DebugLevel
    case Trace => TraceLevel
  }

  /**
   The level switch of `Logf`: identity by name on every named level but Debug,
   which goes to Warn; every unnamed value falls back to Info.
   */
  function Translate(level: Level): (b: BackendLevel)
    ensures b != Debug
    ensures level == DebugLevel ==> b == Warn
    ensures level <= TraceLevel && level != DebugLevel ==> SameNamed(b) == level
    ensures TraceLevel < level ==> b == Info
  {
    if level == PanicLevel then Panic
    else if level == FatalLevel then Fatal
    else if level == ErrorLevel then Error
    else if level == WarnLevel then Warn
    else if level == InfoLevel then Info
    else if level == DebugLevel then Warn
    else if level == TraceLevel then Trace
    else Info
  }

  /** The named levels are exactly 0..6, strictly increasing by one, and pairwise distinct. */
  lemma NamedLevelsConsecutive()
    ensures |NamedLevels| == 7
    ensures forall i :: 0 <= i < |NamedLevels| ==> NamedLevels[i] as int == i
    ensures forall i, j :: 0 <= i < j < |NamedLevels| ==> NamedLevels[i] < NamedLevels[j]
  {
  }

  /**
   Exactly which façade levels reach each backend level: Info is reached from
   InfoLevel and from every unnamed value, Warn from WarnLevel and DebugLevel,
   Debug from nothing, and every other backend level from its namesake only.
   */
  lemma TranslatePreimage(level: Level, b: BackendLevel)
    ensures Translate(level) == b <==>
      match b
      case Info => level == InfoLevel || TraceLevel < level
      case Warn => level == WarnLevel || level == DebugLevel
      case Debug => false
      case _ => level == SameNamed(b)
  {
  }

  // ---------------------------------------------------------------------------
  // Message prefixing
  // ---------------------------------------------------------------------------

  /** The format handed to the backend: `"%s: %s"` applied to the method name and the format. */
  function Prefixed(methodName: string, format: string): (r: string)
    ensures |r| == |methodName| + 2 + |format|
    ensures r[..|methodName|] == methodName
    ensures r[|methodName|..|methodName| + 2] == ": "
    ensures r[|methodName| + 2..] == format
  {
    methodName + ": " + format
  }

  /** The inverse of `Prefixed`: the caller's format, if `s` carries the method-name prefix. */
  function StripPrefix(methodName: string, s: string): (r: Option<string>)
    ensures r.Some? ==> |r.value| + |methodName| + 2 == |s|
  {
    var n := |methodName| + 2;
    if n <= |s| && s[..n] == methodName + ": " then Some(s[n..]) else None
  }

  /** Prefixing and stripping are inverse: no two formats give the same backend format. */
  lemma PrefixRoundTrip(methodName: string, format: string, s: string)
    ensures StripPrefix(methodName, Prefixed(methodName, format)) == Some(format)
    ensures StripPrefix(methodName, s) == Some(format) ==> Prefixed(methodName, format) == s
  {
  }

  // ---------------------------------------------------------------------------
  // Fields
  // ---------------------------------------------------------------------------

  /** Any Go value other than a string; nothing about it is observed here. */
  type Opaque

  /** A field value (Go `interface{}`); the node identity is stored as a string. */
  datatype Value = Text(s: string) | Boxed(x: Opaque)

  type Fields = map<string, Value>

  /** The key under which the node identity is recorded. */
  const NodeIdKey: string := "nodeID"

  /**
   The backend's merge (assumed contract of logrus Entry.WithField/WithFields):
   the result holds every old key and every given key, given values win.
   */
  function Overridden(base: Fields, given: Fields): (r: Fields)
    ensures r.Keys == base.Keys + given.Keys
    ensures forall k :: k in given ==> r[k] == given[k]
    ensures forall k :: k in base && k !in given ==> r[k] == base[k]
  {
    base + given
  }

  /**
   The copy loop of WithFields: builds a fresh map holding exactly the entries of `fields`.
   */
  method CopyFields(fields: Fields) returns (copy: Fields)
    ensures copy == fields
  {
    copy := map[];
    var pending := fields.Keys;
    while pending != {}
      invariant pending <= fields.Keys
      invariant copy.Keys == fields.Keys - pending
      invariant forall k :: k in copy ==> copy[k] == fields[k]
      decreases pending
    {
      var key :| key in pending;
      copy := copy[key := fields[key]];
      pending := pending - {key};
    }
  }

  // ---------------------------------------------------------------------------
  // Chains of attachment calls
  // ---------------------------------------------------------------------------

  /** One field-attachment call on a logger. */
  datatype Attachment = AttachField(key: string, value: Value) | AttachFields(fields: Fields)

  /** The entries an attachment call supplies. */
  function Supplied(a: Attachment): Fields
  {
    match a
    case AttachField(k, v) => map[k := v]
    case AttachFields(fs) => fs
  }

  /** The field map after the calls `ops`, in order, starting from `fields`. */
  function AfterAll(fields: Fields, ops: seq<Attachment>): Fields
    decreases |ops|
  {
    if ops == [] then fields
    else AfterAll(Overridden(fields, Supplied(ops[0])), ops[1..])
  }

  /** Attachment calls never remove a key: the field set only grows. */
  lemma {:induction false} AfterAllGrows(fields: Fields, ops: seq<Attachment>)
    ensures fields.Keys <= AfterAll(fields, ops).Keys
    decreases |ops|
  {
    if ops != [] {
      AfterAllGrows(Overridden(fields, Supplied(ops[0])), ops[1..]);
    }
  }

  /** A key that no call in `ops` supplies keeps its presence and its value. */
  lemma {:induction false} AfterAllUntouched(fields: Fields, ops: seq<Attachment>, k: string)
    requires forall i :: 0 <= i < |ops| ==> k !in Supplied(ops[i])
    ensures (k in AfterAll(fields, ops)) == (k in fields)
    ensures k in fields ==> AfterAll(fields, ops)[k] == fields[k]
    decreases |ops|
  {
    if ops != [] {
      var rest := ops[1..];
      assert forall i :: 0 <= i < |rest| ==> k !in Supplied(rest[i]) by {
        forall i | 0 <= i < |rest| ensures k !in Supplied(rest[i]) {
          assert rest[i] == ops[i + 1];
        }
      }
      AfterAllUntouched(Overridden(fields, Supplied(ops[0])), rest, k);
    }
  }

  /** Running two chains one after the other is running their concatenation. */
  lemma {:induction false} AfterAllAppend(fields: Fields, ops1: seq<Attachment>, ops2: seq<Attachment>)
    ensures AfterAll(fields, ops1 + ops2) == AfterAll(AfterAll(fields, ops1), ops2)
    decreases |ops1|
  {
    if ops1 == [] {
      assert ops1 + ops2 == ops2;
    } else {
      assert (ops1 + ops2)[1..] == ops1[1..] + ops2;
      AfterAllAppend(Overridden(fields, Supplied(ops1[0])), ops1[1..], ops2);
    }
  }

  /**
   The last write wins: after `WithField(k, v)` followed by calls that do not supply `k`,
   the field map maps `k` to `v`.
   */
  lemma LastWriteWins(fields: Fields, before: seq<Attachment>, k: string, v: Value, after: seq<Attachment>)
    requires forall i :: 0 <= i < |after| ==> k !in Supplied(after[i])
    ensures k in AfterAll(fields, before + [AttachField(k, v)] + after)
    ensures AfterAll(fields, before + [AttachField(k, v)] + after)[k] == v
  {
    var mid := AfterAll(fields, before + [AttachField(k, v)]);
    AfterAllAppend(fields, before + [AttachField(k, v)], after);
    AfterAllAppend(fields, before, [AttachField(k, v)]);
    assert [AttachField(k, v)][1..] == [];
    AfterAllUntouched(mid, after, k);
  }

  // ---------------------------------------------------------------------------
  // The logger object
  // ---------------------------------------------------------------------------

  /** What the backend is asked to write: its level, the prefixed format and the fields then attached. */
  datatype Entry = Entry(level: BackendLevel, format: string, fields: Fields)

  /** Option, for `StripPrefix`. */
  datatype Option<T> = None | Some(value: T)

  /** The façade object `csiLog`: a fixed method name and a mutable field map. */
  class CsiLog {
    const methodName: string
    var fields: Fields
    /** Every entry handed to the backend so far, oldest first. */
    ghost var emitted: seq<Entry>

    /**
     Every logger carries its node identity, and every entry it has written
     carries the node identity, the method-name prefix and a level other than Debug.
     */
    ghost predicate Valid()
      reads this
    {
      && NodeIdKey in fields
      && forall i :: 0 <= i < |emitted| ==>
           && NodeIdKey in emitted[i].fields
           && StripPrefix(methodName, emitted[i].format).Some?
           && emitted[i].level != Debug
    }

    /** `New(methodName, nodeID)`: fields seeded with the node identity only. */
    constructor New(methodName: string, nodeID: string)
      ensures Valid()
      ensures this.methodName == methodName
      ensures fields == map[NodeIdKey := Text(nodeID)]
      ensures emitted == []
    {
      this.methodName := methodName;
      fields := map[NodeIdKey := Text(nodeID)];
      emitted := [];
    }

    /** `Logf`: hands the translated level, the prefixed format and the current fields to the backend. */
    method Logf(level: Level, format: string)
      requires Valid()
      modifies this`emitted
      ensures Valid()
      ensures emitted == old(emitted) + [Entry(Translate(level), Prefixed(methodName, format), fields)]
    {
      PrefixRoundTrip(methodName, format, "");
      emitted := emitted + [Entry(Translate(level), Prefixed(methodName, format), fields)];
    }

    /** `WithField`: overrides one key and returns the receiver itself. */
    method WithField(key: string, value: Value) returns (r: CsiLog)
      requires Valid()
      modifies this`fields
      ensures Valid()
      ensures r == this
      ensures fields == Overridden(old(fields), map[key := value])
      ensures fields == AfterAll(old(fields), [AttachField(key, value)])
      ensures key in fields && fields[key] == value
      ensures old(fields).Keys <= fields.Keys
      ensures forall k :: k in old(fields) && k != key ==> fields[k] == old(fields)[k]
    {
      fields := Overridden(fields, map[key := value]);
      r := this;
    }

    /** `WithFields`: copies the given map, overrides with it, and returns the receiver itself. */
    method WithFields(given: Fields) returns (r: CsiLog)
      requires Valid()
      modifies this`fields
      ensures Valid()
      ensures r == this
      ensures fields == Overridden(old(fields), given)
      ensures fields == AfterAll(old(fields), [AttachFields(given)])
      ensures fields.Keys == old(fields).Keys + given.Keys
      ensures forall k :: k in old(fields) && k !in given ==> fields[k] == old(fields)[k]
    {
      var copy := CopyFields(given);
      fields := Overridden(fields, copy);
      r := this;
    }

    /** `Infof`: `Logf` at InfoLevel, so the backend level is Info. */
    method Infof(format: string)
      requires Valid()
      modifies this`emitted
      ensures Valid()
      ensures emitted == old(emitted) + [Entry(Info, Prefixed(methodName, format), fields)]
    {
      Logf(InfoLevel, format);
    }

    /** `Errorf`: `Logf` at ErrorLevel, so the backend level is Error. */
    method Errorf(format: string)
      requires Valid()
      modifies this`emitted
      ensures Valid()
      ensures emitted == old(emitted) + [Entry(Error, Prefixed(methodName, format), fields)]
    {
      Logf(ErrorLevel, format);
    }

    /** `Warningf`: `Logf` at WarnLevel, so the backend level is Warn. */
    method Warningf(format: string)
      requires Valid()
      modifies this`emitted
      ensures Valid()
      ensures emitted == old(emitted) + [Entry(Warn, Prefixed(methodName, format), fields)]
    {
      Logf(WarnLevel, format);
    }
  }

  // ---------------------------------------------------------------------------
  // Clients
  // ---------------------------------------------------------------------------

  /**
   A later `WithField` overrides what `WithFields` attached, without duplicating the key,
   and keeps the node identity.
   */
  method OverrideAfterMerge(methodName: string, nodeID: string, a1: Value, b2: Value, a3: Value)
    returns (fields: Fields)
    ensures fields == map[NodeIdKey := Text(nodeID), "a" := a3, "b" := b2]
  {
    var log := new CsiLog.New(methodName, nodeID);
    var same := log.WithFields(map["a" := a1, "b" := b2]);
    same := same.WithField("a", a3);
    fields := log.fields;
  }

  /** A field attached with `WithField` is in the field set of the next entry `Infof` writes. */
  method AttachThenLog(log: CsiLog, key: string, v: Value, format: string)
    requires log.Valid()
    modifies log
    ensures log.Valid()
    ensures |log.emitted| == |old(log.emitted)| + 1
    ensures key in log.emitted[|log.emitted| - 1].fields
    ensures log.emitted[|log.emitted| - 1].fields[key] == v
  {
    var same := log.WithField(key, v);
    same.Infof(format);
  }

  /** Two loggers made by `New` share no field map: attaching to one leaves the other as made. */
  method IndependentLoggers(methodName: string, node1: string, node2: string, key: string, v: Value)
    returns (first: Fields, second: Fields)
    ensures first == map[NodeIdKey := Text(node1)]
    ensures second == map[NodeIdKey := Text(node2)][key := v]
  {
    var one := new CsiLog.New(methodName, node1);
    var two := new CsiLog.New(methodName, node2);
    var _ := two.WithField(key, v);
    first, second := one.fields, two.fields;
  }
}
