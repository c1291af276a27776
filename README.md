# Phoenix storage handler for Hive — a Dafny model

This project models two sequential pieces of the Hive storage handler for Apache Phoenix and
proves properties of them.

1. **Configuration bridge and size estimate** (`PhoenixStorageHandler`, module `StorageHandler`
   in `storage_handler.dfy`). `configureJobProperties` turns a table's properties into the job
   properties of the Phoenix client:
   - it picks the input-format class: the one named in the table properties, loaded by name, or
     the built-in `PhoenixInputFormat`;
   - it resolves the Phoenix table name, writing the Hive table name back into the table
     properties when none is set;
   - it fills the ZooKeeper quorum, port and parent entries, each from the table property or its
     default;
   - it stamps the storage-handler marker;
   - it mirrors the three ZooKeeper values into HBase's own keys, reading them back from the job map.

   The input and output phases then tag the table properties with a work-mode marker. The generic
   table phase does not. `estimate` returns a zero row count and the reducer count times the bytes
   per reducer, as a Java `long` product.
2. **List adapter** (`PhoenixListObjectInspector`, module `ListInspector` in `list_inspector.dfy`).
   It exposes a Phoenix array through Hive's list-inspector protocol: null-safe length (-1 for
   null), element access, materialisation into a new list, and the composed type name.

`decimal.dfy` holds the decimal text form of an `int` (what `String.valueOf` writes for the
default ZooKeeper port) and its inverse. `wrappers.dfy` holds `Option`, `Result` and `Outcome`,
which stand for `null` and for thrown exceptions.

How the model is built:
- The table descriptor and the job-property map are classes whose `map` fields the configuration
  methods update in place. Each method is proved equal to the pure function `Configure` of the old
  state. The properties are proved about that function.
- Property names (`PhoenixStorageHandlerConstants`, `HConstants`, `PhoenixConfigurationUtil`,
  `hive_metastoreConstants`) are abstract strings in the record `Keys`. Defaults and markers are
  abstract values in `Settings`.
- Facts about single entries assume these names are pairwise distinct (`Keys.Distinct`). The
  remaining facts hold for any names: which keys exist, that no other entry changes, and what a
  failure leaves.
- Class loading (`JavaUtils.loadClass`) is a function passed in by the caller. `None` means the
  load throws.
- `getInt` and `getLong` on the job configuration are lookups with defaults in `JobConf`. The
  default bytes per reducer is a parameter.

Facts about the code that the model makes explicit:
- `LIST_TYPE_NAME` is Hive's constant `"array"`, so a list type name reads `array<element>`.
- The handler writes the Hive table name into the table properties only when no Phoenix table name
  is set there. Only the input and output phases write the work-mode marker there.
- All three configuration phases are idempotent.
- The handler always sets the row count of `Estimation` to 0.

## Model

| member | source | states |
|---|---|---|
| `StorageHandler.InputFormatFor` | src/main/java/org/apache/phoenix/hive/PhoenixStorageHandler.java:96-116 | no class name in the table properties selects the default input format; a named class that loads is selected; one that fails to load is the error `InputFormatNotLoadable(name)` |
| `StorageHandler.ResolvedTableProperties` | src/main/java/org/apache/phoenix/hive/PhoenixStorageHandler.java:118-122 | afterwards the Phoenix table name is present; it keeps an existing value, otherwise it holds the Hive table name; every other entry is unchanged and no other key is added |
| `StorageHandler.ConfiguredJob` | src/main/java/org/apache/phoenix/hive/PhoenixStorageHandler.java:124-134 | the job map gains exactly the eight written keys; every other entry is unchanged; with distinct names: table name, override-else-default quorum, port (the decimal text of the default port) and parent, the handler class name, and HBase keys equal to the resolved ZooKeeper values |
| `StorageHandler.Configure` | src/main/java/org/apache/phoenix/hive/PhoenixStorageHandler.java:63-135 | fails exactly when the input-format class cannot be loaded; on success, with distinct names, stated against the table properties before the call: the job entries above, the resolved table name kept or written back, `IN_WORK` or `OUT_WORK` for the input or output phase, the generic phase leaving the marker as it was, no other table entry changed |
| `StorageHandler.ConfigureJobProperties` | src/main/java/org/apache/phoenix/hive/PhoenixStorageHandler.java:92-135 | the successive puts leave the descriptor's properties, its input-format class and the job map equal to `Configure(TablePhase, …)` of the old state; on a load failure nothing is changed |
| `StorageHandler.ConfigureInputJobProperties` | src/main/java/org/apache/phoenix/hive/PhoenixStorageHandler.java:63-73 | the new state is `Configure(InputPhase, …)` of the old one, so the marker is `IN_WORK`; a failure propagates before the marker is set |
| `StorageHandler.ConfigureOutputJobProperties` | src/main/java/org/apache/phoenix/hive/PhoenixStorageHandler.java:75-85 | the new state is `Configure(OutputPhase, …)` of the old one, so the marker is `OUT_WORK`; a failure propagates before the marker is set |
| `StorageHandler.ConfigureTableJobProperties` | src/main/java/org/apache/phoenix/hive/PhoenixStorageHandler.java:87-90 | the new state is `Configure(TablePhase, …)` of the old one: the shared routine with no marker |
| `StorageHandler.ConfiguredJobParentMirror` | src/main/java/org/apache/phoenix/hive/PhoenixStorageHandler.java:134 | for any property names, the HBase parent entry equals the Phoenix parent entry of the final job map |
| `StorageHandler.ConfiguredJobMirrors` | src/main/java/org/apache/phoenix/hive/PhoenixStorageHandler.java:132-134 | when the three HBase names differ from each other and none overwrites a Phoenix entry that a later mirror reads, each HBase entry equals its Phoenix counterpart in the final job map |
| `StorageHandler.ConfiguredJobSharedZooKeeperKeys` | src/main/java/org/apache/phoenix/hive/PhoenixStorageHandler.java:125-134 | when each Phoenix ZooKeeper name is HBase's own name for that setting, the final quorum, port and parent are still the table property or its default |
| `StorageHandler.Keys.JobKeysDistinctCardinality` | src/main/java/org/apache/phoenix/hive/PhoenixStorageHandler.java:124-134 | the eight job names are pairwise distinct exactly when the handler writes eight different job keys |
| `StorageHandler.ConfiguredJobReads` | src/main/java/org/apache/phoenix/hive/PhoenixStorageHandler.java:125-127 | the job-map update depends on the table properties only through the three ZooKeeper entries |
| `StorageHandler.ConfiguredJobIdempotent` | src/main/java/org/apache/phoenix/hive/PhoenixStorageHandler.java:124-134 | applying the job-map update twice gives the same map as applying it once |
| `StorageHandler.ConfigureFrame` | src/main/java/org/apache/phoenix/hive/PhoenixStorageHandler.java:118-134 | for any property names, a successful phase adds exactly the eight written keys to the job properties and keeps every other job entry; the table properties always hold the table name, gain no key but it and the work-mode marker, and keep every other entry |
| `StorageHandler.ConfigureIdempotent` | src/main/java/org/apache/phoenix/hive/PhoenixStorageHandler.java:63-135 | running any phase again on the table and job properties it produced succeeds and yields the same table properties, input-format class and job properties |
| `StorageHandler.PhasesShareJobProperties` | src/main/java/org/apache/phoenix/hive/PhoenixStorageHandler.java:63-90 | if one phase succeeds, every phase does; all write the same job map and input-format class, and their table properties differ only in the work-mode marker |
| `StorageHandler.WrapLong` | src/main/java/org/apache/phoenix/hive/PhoenixStorageHandler.java:170 | the result is a 64-bit value congruent to its argument modulo 2^64, and equal to it when the argument fits in a `long` |
| `StorageHandler.Estimate` | src/main/java/org/apache/phoenix/hive/PhoenixStorageHandler.java:158-173 | the row count is 0; the total length is congruent modulo 2^64 to reducer count times bytes per reducer, and equal to that product when it fits in a `long` |
| `StorageHandler.EstimateIgnoresRemaining` | src/main/java/org/apache/phoenix/hive/PhoenixStorageHandler.java:159-172 | the `remaining` argument does not affect the estimate |
| `StorageHandler.EstimateDefaultsToOneReducer` | src/main/java/org/apache/phoenix/hive/PhoenixStorageHandler.java:161-172 | with no per-table reducer count, the estimate is `Estimation(0, bytesPerReducer)` |
| `StorageHandler.EstimateFourReducers` | src/main/java/org/apache/phoenix/hive/PhoenixStorageHandler.java:158-173 | four reducers of 1000 bytes give `Estimation(0, 4000)` |
| `Decimal.DigitsRoundTrip` | src/main/java/org/apache/phoenix/hive/PhoenixStorageHandler.java:126 | the digits of a natural number are non-empty, all decimal digits, have no leading zero, and read back as that number |
| `Decimal.DecimalRoundTrip` | src/main/java/org/apache/phoenix/hive/PhoenixStorageHandler.java:126 | the `String.valueOf` text of every `int`, such as the default ZooKeeper port, parses back to the same value |
| `ListInspector.ListTypeNameOf` | src/main/java/org/apache/phoenix/hive/objectinspector/PhoenixListObjectInspector.java:31-34 | the type name is `LIST_TYPE_NAME`, then `<`, then the element type name, then `>` |
| `ListInspector.ListTypeNameRoundTrip` | src/main/java/org/apache/phoenix/hive/objectinspector/PhoenixListObjectInspector.java:31-34 | the element type name is recovered from the composed type name |
| `ListInspector.ListTypeNameInjective` | src/main/java/org/apache/phoenix/hive/objectinspector/PhoenixListObjectInspector.java:31-34 | different element type names give different list type names |
| `ListInspector.PhoenixListObjectInspector.constructor` | src/main/java/org/apache/phoenix/hive/objectinspector/PhoenixListObjectInspector.java:21-44 | the element inspector, separator and lazy parameters getters return exactly the constructor arguments (the fields are constants); the category is `LIST` |
| `ListInspector.PhoenixListObjectInspector.GetTypeName` | src/main/java/org/apache/phoenix/hive/objectinspector/PhoenixListObjectInspector.java:31-34 | the name starts with `LIST_TYPE_NAME`, and the element inspector's type name is recovered from it |
| `ListInspector.PhoenixListObjectInspector.GetListElement` | src/main/java/org/apache/phoenix/hive/objectinspector/PhoenixListObjectInspector.java:46-55 | null for a null array; otherwise the array's element at the index, with no range check of its own |
| `ListInspector.PhoenixListObjectInspector.GetListLength` | src/main/java/org/apache/phoenix/hive/objectinspector/PhoenixListObjectInspector.java:57-65 | -1 exactly for a null array; otherwise the array's dimensions |
| `ListInspector.PhoenixListObjectInspector.GetList` | src/main/java/org/apache/phoenix/hive/objectinspector/PhoenixListObjectInspector.java:67-82 | null exactly for a null array; otherwise a list of `GetListLength` elements whose element `i` is `GetListElement(data, i)`, in order; the loop reads only indices below the dimensions (the element accessor requires it) |

## Left out

- `decomposePredicate` (PhoenixStorageHandler.java lines 143-156) is not part of this model. It
  only computes a session key and delegates to the predicate decomposer and its registry. Their
  source is not part of this model, so the pushdown rules cannot be checked against it.
- The decomposer registry's atomic get-or-create, because it is concurrency.
- Logging, the handler's constructor (it only logs), `getMetaHook`, `getOutputFormatClass` and
  `getSerDeClass`, because they only log or return fixed classes.
- The workings of `JavaUtils.loadClass`, because it is reflection. It is a caller-supplied
  function that yields a class or fails.
- How `JobConf` parses its text values, and the `NumberFormatException` a malformed value raises,
  because that is Hadoop code. `JobConf` holds the values `getInt` and `getLong` return.
- The concrete values of the property names and defaults, because they live in constants files
  that are not part of this model. They are parameters.
- Default chains of `java.util.Properties`: the model assumes the table's `Properties` has no
  defaults. `getProperty` would follow such a chain; here the table properties are one flat map
  owned by the table descriptor.
- `ListInspector.PhoenixListObjectInspector.GetListElement`: requires an index within the
  dimensions for a non-null array. The behaviour of Phoenix's `getElement` out of range is foreign
  library code.
- `ListInspector.PhoenixListObjectInspector.GetListElement`: a null element of a non-null array,
  which Java also returns as null, appears in the model as `Some` of that element, so the model
  keeps "no array" and "null element" apart where Java does not.
- `ListInspector.PhoenixListObjectInspector.GetList`: returns the new list as a sequence value.
  Its identity as a freshly allocated, mutable `ArrayList` is not modelled.
- `StorageHandler.ConfiguredJob`: states the value of each of the five entries it puts from the
  table name, the table properties and the handler class only when the eight job names are
  pairwise distinct (`Keys.JobKeysDistinct`), because with coinciding names a later put
  overwrites an earlier one. The HBase mirrors need much less: the parent mirror holds for any
  names (`StorageHandler.ConfiguredJobParentMirror`), and all three hold under six inequalities
  (`StorageHandler.ConfiguredJobMirrors`). When the Phoenix and HBase names coincide, the resolved
  ZooKeeper values survive too (`StorageHandler.ConfiguredJobSharedZooKeeperKeys`).
- `StorageHandler.Configure`: states its per-entry facts only when all property names are pairwise
  distinct (`Keys.Distinct`). Which keys exist and that every other entry keeps its value hold
  for any names (`StorageHandler.ConfigureFrame`); that a failure leaves the state alone is
  stated by the configuration methods for any names.
- `StorageHandler.ConfigureIdempotent`: assumes the property names are pairwise distinct
  (`Keys.Distinct`).
- `StorageHandler.ConfiguredJobIdempotent`: assumes the eight job-property names are pairwise
  distinct (`Keys.JobKeysDistinct`).
- `PhoenixArray` internals and `ObjectInspector` and `LazyObjectInspectorParameters` internals,
  because they are opaque metadata passed through unchanged. The lazy parameters are a type
  parameter. The element inspector is reduced to its type name and category.
