# Logger façade model

A Dafny model of the structured-logging façade in `pkg/logger/logger.go`. The façade binds
a per-operation logger to a method name and a node identity. It translates its own
`Level` (a `uint32` with the named values Panic=0 … Trace=6) to the logrus level. It
prefixes every format string with `"<methodName>: "`. It accumulates key/value fields
by overriding merges, and `WithField`/`WithFields` return the receiver itself.

Everything lives in one module, `Logger`, in `logger.dfy`:

- the level switch of `Logf` is the pure function `Translate`, including the source's
  Debug→Warn mapping, which is kept as written;
- the prefix is the pure function `Prefixed`, with its inverse `StripPrefix`;
- the logger object is the class `CsiLog`. `methodName` is a constant and `fields` a
  mutable `map<string, Value>`. A ghost sequence `emitted` records each entry handed to
  the backend as `Entry(backend level, prefixed format, fields snapshot)`. This stands
  in for the logrus call;
- the backend's field merge is assumed to be "old map overridden by the given keys".
  This is `Overridden`; logrus's `Entry.WithField`/`WithFields` are not part of this model;
- `AfterAll` gives the field map after a chain of attachment calls, and the lemmas about it
  state that fields only grow and that the last write of a key wins.

The object invariant `CsiLog.Valid()` holds from `New` on and is kept by every method. It
says the `nodeID` field is always present. It also says every written entry carries that
field, carries the method-name prefix, and has a backend level other than Debug.

## Model

| member | source | states |
|---|---|---|
| `Logger.Translate` | pkg/logger/logger.go:87-105 | never yields backend Debug; Debug yields Warn; other named levels yield the backend level of the same name; every value above Trace yields Info |
| `Logger.TranslatePreimage` | pkg/logger/logger.go:88-105 | exact preimage of each backend level: Info from InfoLevel and all unnamed values, Warn from WarnLevel and DebugLevel, Debug from none, the rest from their namesake only |
| `Logger.NamedLevelsConsecutive` | pkg/logger/logger.go:30-49 | the seven named levels are 0..6 in declaration order, strictly increasing from most to least severe |
| `Logger.Prefixed` | pkg/logger/logger.go:85 | the backend format is the method name, then `": "`, then the caller's format; its length is the sum of the parts plus 2 |
| `Logger.PrefixRoundTrip` | pkg/logger/logger.go:85 | stripping the prefix recovers the caller's format, and any string that strips to a format is that format prefixed, so prefixing is injective |
| `Logger.Overridden` | pkg/logger/logger.go:111 | the merged map's keys are the old keys plus the given keys; given keys take the given value and others keep their old value |
| `Logger.CopyFields` | pkg/logger/logger.go:116-120 | the loop builds a map equal to the caller's fields |
| `Logger.AfterAllGrows` | pkg/logger/logger.go:110-125 | any chain of attachment calls keeps every existing key |
| `Logger.AfterAllUntouched` | pkg/logger/logger.go:110-125 | a key supplied by no call in a chain keeps its presence and value |
| `Logger.AfterAllAppend` | pkg/logger/logger.go:110-125 | two chains run in turn equal their concatenation |
| `Logger.LastWriteWins` | pkg/logger/logger.go:110-113 | after `WithField(k, v)` and calls not supplying `k`, the field map maps `k` to `v` |
| `Logger.CsiLog.New` | pkg/logger/logger.go:75-81 | the method name is the given one; the field map is exactly `{"nodeID": nodeID}`; nothing has been written |
| `Logger.CsiLog.Logf` | pkg/logger/logger.go:83-108 | appends exactly one entry with the translated level, the prefixed format and the current fields; keeps the invariant |
| `Logger.CsiLog.WithField` | pkg/logger/logger.go:110-113 | returns the receiver; afterwards `fields[key] == value`, every other key keeps its value and none is removed; the method name cannot change |
| `Logger.CsiLog.WithFields` | pkg/logger/logger.go:115-125 | returns the receiver; the new map is the old one overridden by the given map, its keys are the union, and keys not given are unchanged |
| `Logger.CsiLog.Infof` | pkg/logger/logger.go:127-129 | the same entry as `Logf` at InfoLevel: backend level Info |
| `Logger.CsiLog.Errorf` | pkg/logger/logger.go:131-133 | the same entry as `Logf` at ErrorLevel: backend level Error |
| `Logger.CsiLog.Warningf` | pkg/logger/logger.go:135-137 | the same entry as `Logf` at WarnLevel: backend level Warn |
| `Logger.OverrideAfterMerge` | pkg/logger/logger.go:110-125 | `WithFields({"a","b"})` then `WithField("a", …)` leaves `nodeID`, the new `a` and the old `b`, with no duplicate key |
| `Logger.AttachThenLog` | pkg/logger/logger.go:107-113 | a field attached with `WithField` is in the field set of the next entry written |
| `Logger.IndependentLoggers` | pkg/logger/logger.go:75-81 | two loggers from `New` share no field map: attaching to one leaves the other as constructed |

## Left out

- Writing to the log sink (`log.New()` at line 79, `Entry.Logf` at line 107) is I/O in the logrus library. It is modelled only as the appended ghost `Entry`.
- The printf-style `args` are not modelled: rendering them is done by `fmt`/logrus. The source passes `args` on as a single slice value rather than spreading it (lines 107, 128, 132, 136).
- The panic raised after a Panic-level entry and the process exit after a Fatal-level entry are done by logrus, not by this code.
- logrus's `Entry.WithFields` details beyond the override merge are not modelled, for example its handling of function-typed values. `Overridden` is the assumed backend contract.
- The struct fields `err`, `target`, `source`, `volumeID`, `snapshotID` and `options` (lines 52-59) are never read or written, so they are not modelled.
- Go's map iteration order in the copy loop of `WithFields` is modelled as an arbitrary choice of the next key. The result does not depend on the order.
- Sharing one logger between goroutines is not modelled; the model is sequential.
- The `CSILogger` interface (lines 66-73) is not modelled as a separate type. The methods return the `CsiLog` object itself.
