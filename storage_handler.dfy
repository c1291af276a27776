/**
 * The Phoenix storage handler for Hive: how a table's properties become the job properties of
 * the Phoenix client (`configureJobProperties` and its three phase entry points), and the
 * handler's input-size estimate (`estimate`).
 *
 * Property names are abstract strings gathered in `Keys`; the facts about individual entries
 * hold when those names are pairwise distinct (`Keys.Distinct`). Loading a class by name is an
 * oracle passed in by the caller.
 */
module StorageHandler {
  import opened Wrappers
  import Decimal

  // ---------------------------------------------------------------------------------------------
  // Names, settings and errors
  // ---------------------------------------------------------------------------------------------

  /** A loaded Java class, known by its name. */
  datatype ClassToken = ClassToken(name: string)

  /** Thrown (wrapped in a RuntimeException) when an input-format class named in the table
      properties cannot be loaded; carries the name that failed. */
  datatype ConfigError = InputFormatNotLoadable(className: string)

  /** Which of the host's three configuration entry points is running. */
  datatype Phase = InputPhase | OutputPhase | TablePhase

  /** The property names the handler reads and writes. */
  datatype Keys = Keys(
    inputFormatClass: string,   // table property naming an input-format class to load
    phoenixTableName: string,   // table property naming the Phoenix table
    inputTableName: string,     // job property: the Phoenix table to read
    zkQuorum: string,           // table and job property: ZooKeeper quorum
    zkPort: string,             // table and job property: ZooKeeper client port
    zkParent: string,           // table and job property: ZooKeeper parent znode
    metaTableStorage: string,   // job property: the storage handler of the table
    hbaseQuorum: string,        // HBase's own name for the quorum
    hbaseClientPort: string,    // HBase's own name for the client port
    hbaseZnodeParent: string,   // HBase's own name for the parent znode
    inOutWork: string)          // table property telling the SerDe which direction it serves
  {
    /** The eight names written into the job properties differ from each other. */
    predicate JobKeysDistinct() {
      && inputTableName != zkQuorum && inputTableName != zkPort && inputTableName != zkParent
      && inputTableName != metaTableStorage && inputTableName != hbaseQuorum
      && inputTableName != hbaseClientPort && inputTableName != hbaseZnodeParent
      && zkQuorum != zkPort && zkQuorum != zkParent && zkQuorum != metaTableStorage
      && zkQuorum != hbaseQuorum && zkQuorum != hbaseClientPort && zkQuorum != hbaseZnodeParent
      && zkPort != zkParent && zkPort != metaTableStorage && zkPort != hbaseQuorum
      && zkPort != hbaseClientPort && zkPort != hbaseZnodeParent
      && zkParent != metaTableStorage && zkParent != hbaseQuorum
      && zkParent != hbaseClientPort && zkParent != hbaseZnodeParent
      && metaTableStorage != hbaseQuorum && metaTableStorage != hbaseClientPort
      && metaTableStorage != hbaseZnodeParent
      && hbaseQuorum != hbaseClientPort && hbaseQuorum != hbaseZnodeParent
      && hbaseClientPort != hbaseZnodeParent
    }

    /** Pairwise distinct job names are exactly eight different job keys. */
    lemma JobKeysDistinctCardinality()
      ensures JobKeysDistinct() <==> |JobKeys()| == 8
    {
    }

    /** The six names read or written in the table properties differ from each other. */
    predicate TableKeysDistinct() {
      && inputFormatClass != phoenixTableName && inputFormatClass != zkQuorum
      && inputFormatClass != zkPort && inputFormatClass != zkParent
      && inputFormatClass != inOutWork
      && phoenixTableName != zkQuorum && phoenixTableName != zkPort
      && phoenixTableName != zkParent && phoenixTableName != inOutWork
      && zkQuorum != zkPort && zkQuorum != zkParent && zkQuorum != inOutWork
      && zkPort != zkParent && zkPort != inOutWork
      && zkParent != inOutWork
    }

    predicate Distinct() {
      JobKeysDistinct() && TableKeysDistinct()
    }

    /** The job properties `configureJobProperties` writes. */
    function JobKeys(): set<string> {
      {inputTableName, zkQuorum, zkPort, zkParent, metaTableStorage,
       hbaseQuorum, hbaseClientPort, hbaseZnodeParent}
    }
  }

  /** The constants the handler uses besides the property names. */
  datatype Settings = Settings(
    keys: Keys,
    defaultInputFormat: ClassToken,  // PhoenixInputFormat
    defaultQuorum: string,
    defaultPort: int,                // an int constant, written into the job as its decimal text
    defaultParent: string,
    handlerClassName: string,        // the run-time class name of the handler
    inWork: string,                  // work-mode marker of the input phase
    outWork: string)                 // work-mode marker of the output phase

  // ---------------------------------------------------------------------------------------------
  // The configuration as functions of the old state
  // ---------------------------------------------------------------------------------------------

  /** `Properties.getProperty(key, default)`. */
  function Lookup(props: map<string, string>, key: string, default: string): string {
    if key in props then props[key] else default
  }

  /** The input-format class: the one named in the table properties, loaded by `loadClass`,
      or the built-in default when none is named. */
  function InputFormatFor(props: map<string, string>, s: Settings,
                          loadClass: string -> Option<ClassToken>): (r: Result<ClassToken, ConfigError>)
    ensures s.keys.inputFormatClass !in props ==> r == Success(s.defaultInputFormat)
    ensures s.keys.inputFormatClass in props ==>
      var name := props[s.keys.inputFormatClass];
      if loadClass(name).Some? then r == Success(loadClass(name).value)
      else r == Failure(InputFormatNotLoadable(name))
  {
    var key := s.keys.inputFormatClass;
    if key !in props then Success(s.defaultInputFormat)
    else match loadClass(props[key])
      case None => Failure(InputFormatNotLoadable(props[key]))
      case Some(c) => Success(c)
  }

  /** The table properties once the Phoenix table name is resolved: the existing entry, or the
      Hive table name written back when there is none. Nothing else changes. */
  function ResolvedTableProperties(props: map<string, string>, hiveTableName: string, k: Keys)
    : (r: map<string, string>)
    ensures r.Keys == props.Keys + {k.phoenixTableName}
    ensures k.phoenixTableName in props ==> r[k.phoenixTableName] == props[k.phoenixTableName]
    ensures k.phoenixTableName !in props ==> r[k.phoenixTableName] == hiveTableName
    ensures forall key :: key in props && key != k.phoenixTableName ==> r[key] == props[key]
  {
    if k.phoenixTableName in props then props else props[k.phoenixTableName := hiveTableName]
  }

  /** The job properties after the successive puts of `configureJobProperties`, given the
      resolved table name and the (resolved) table properties. The three HBase entries are read
      back from the job map, as the handler does. */
  function ConfiguredJob(job: map<string, string>, tableName: string, tableProps: map<string, string>,
                         s: Settings): (r: map<string, string>)
    ensures r.Keys == job.Keys + s.keys.JobKeys()
    ensures forall key :: key in job && key !in s.keys.JobKeys() ==> r[key] == job[key]
    ensures s.keys.JobKeysDistinct() ==>
      && r[s.keys.inputTableName] == tableName
      && r[s.keys.zkQuorum] == Lookup(tableProps, s.keys.zkQuorum, s.defaultQuorum)
      && r[s.keys.zkPort] == Lookup(tableProps, s.keys.zkPort, Decimal.DecimalString(s.defaultPort))
      && r[s.keys.zkParent] == Lookup(tableProps, s.keys.zkParent, s.defaultParent)
      && r[s.keys.metaTableStorage] == s.handlerClassName
    ensures s.keys.JobKeysDistinct() ==>
      && r[s.keys.hbaseQuorum] == r[s.keys.zkQuorum]
      && r[s.keys.hbaseClientPort] == r[s.keys.zkPort]
      && r[s.keys.hbaseZnodeParent] == r[s.keys.zkParent]
  {
    var k := s.keys;
    var j1 := job[k.inputTableName := tableName];
    var j2 := j1[k.zkQuorum := Lookup(tableProps, k.zkQuorum, s.defaultQuorum)];
    var j3 := j2[k.zkPort := Lookup(tableProps, k.zkPort, Decimal.DecimalString(s.defaultPort))];
    var j4 := j3[k.zkParent := Lookup(tableProps, k.zkParent, s.defaultParent)];
    var j5 := j4[k.metaTableStorage := s.handlerClassName];
    var j6 := j5[k.hbaseQuorum := j5[k.zkQuorum]];
    var j7 := j6[k.hbaseClientPort := j6[k.zkPort]];
    j7[k.hbaseZnodeParent := j7[k.zkParent]]
  }

  /** The work-mode marker a phase leaves in the table properties. */
  function WorkMarked(phase: Phase, props: map<string, string>, s: Settings): map<string, string> {
    match phase
    case InputPhase => props[s.keys.inOutWork := s.inWork]
    case OutputPhase => props[s.keys.inOutWork := s.outWork]
    case TablePhase => props
  }

  /** What a successful configuration leaves behind. */
  datatype Configured = Configured(
    tableProperties: map<string, string>,
    inputFormat: ClassToken,
    jobProperties: map<string, string>)

  /** One configuration phase on the table properties `props` of the Hive table
      `hiveTableName` and the job properties `job`. */
  function Configure(phase: Phase, props: map<string, string>, hiveTableName: string,
                     job: map<string, string>, s: Settings,
                     loadClass: string -> Option<ClassToken>): (r: Result<Configured, ConfigError>)
    // the class-loading failure is the only failure, and it is the one of InputFormatFor
    ensures r.Failure? <==> InputFormatFor(props, s, loadClass).Failure?
    ensures r.Failure? ==> r.error == InputFormatFor(props, s, loadClass).error
    ensures r.Success? ==> r.value.inputFormat == InputFormatFor(props, s, loadClass).value
    // the job properties, stated on the table properties as they were before the call
    ensures r.Success? && s.keys.Distinct() ==>
      var k, jp := s.keys, r.value.jobProperties;
      && jp.Keys == job.Keys + k.JobKeys()
      && jp[k.inputTableName] == Lookup(props, k.phoenixTableName, hiveTableName)
      && jp[k.zkQuorum] == Lookup(props, k.zkQuorum, s.defaultQuorum)
      && jp[k.zkPort] == Lookup(props, k.zkPort, Decimal.DecimalString(s.defaultPort))
      && jp[k.zkParent] == Lookup(props, k.zkParent, s.defaultParent)
      && jp[k.metaTableStorage] == s.handlerClassName
      && jp[k.hbaseQuorum] == jp[k.zkQuorum]
      && jp[k.hbaseClientPort] == jp[k.zkPort]
      && jp[k.hbaseZnodeParent] == jp[k.zkParent]
    // the table properties: the resolved name, the work-mode marker, nothing else
    ensures r.Success? && s.keys.Distinct() ==>
      var k, tp := s.keys, r.value.tableProperties;
      && k.phoenixTableName in tp
      && tp[k.phoenixTableName] == Lookup(props, k.phoenixTableName, hiveTableName)
      && (phase == InputPhase ==> k.inOutWork in tp && tp[k.inOutWork] == s.inWork)
      && (phase == OutputPhase ==> k.inOutWork in tp && tp[k.inOutWork] == s.outWork)
      && (phase == TablePhase ==>
            (k.inOutWork in tp <==> k.inOutWork in props)
            && (k.inOutWork in props ==> tp[k.inOutWork] == props[k.inOutWork]))
      && (forall key :: key in props && key != k.phoenixTableName && key != k.inOutWork ==>
            key in tp && tp[key] == props[key])
      && (forall key :: key in tp ==> key in props || key == k.phoenixTableName || key == k.inOutWork)
  {
    var format :- InputFormatFor(props, s, loadClass);
    var tableName := Lookup(props, s.keys.phoenixTableName, hiveTableName);
    var resolved := ResolvedTableProperties(props, hiveTableName, s.keys);
    Success(Configured(WorkMarked(phase, resolved, s), format, ConfiguredJob(job, tableName, resolved, s)))
  }

  // ---------------------------------------------------------------------------------------------
  // The mutable objects and the configuration methods
  // ---------------------------------------------------------------------------------------------

  /** A `Map<String, String>` updated in place. */
  class PropertyMap {
    var entries: map<string, string>

    constructor (entries: map<string, string>)
      ensures this.entries == entries
    {
      this.entries := entries;
    }

    method Put(key: string, value: string)
      modifies this
      ensures entries == old(entries)[key := value]
    {
      entries := entries[key := value];
    }
  }

  /** Hive's table descriptor: the table's name, its properties and its input-format class. */
  class TableDesc {
    const tableName: string
    var properties: map<string, string>
    var inputFileFormatClass: Option<ClassToken>

    constructor (tableName: string, properties: map<string, string>)
      ensures this.tableName == tableName && this.properties == properties
      ensures inputFileFormatClass == None
    {
      this.tableName := tableName;
      this.properties := properties;
      inputFileFormatClass := None;
    }
  }

  /** The objects reflect the result of a configuration phase. */
  predicate Reflects(r: Result<Configured, ConfigError>, outcome: Outcome<ConfigError>,
                     tableDesc: TableDesc, jobProperties: PropertyMap)
    reads tableDesc, jobProperties
  {
    match r
    case Failure(e) => outcome == Fail(e)
    case Success(c) =>
      && outcome == Pass
      && tableDesc.properties == c.tableProperties
      && tableDesc.inputFileFormatClass == Some(c.inputFormat)
      && jobProperties.entries == c.jobProperties
  }

  /** configureJobProperties: the shared routine of the three phases. */
  method ConfigureJobProperties(tableDesc: TableDesc, jobProperties: PropertyMap, s: Settings,
                                loadClass: string -> Option<ClassToken>)
    returns (outcome: Outcome<ConfigError>)
    modifies tableDesc, jobProperties
    ensures Reflects(Configure(TablePhase, old(tableDesc.properties), tableDesc.tableName,
                               old(jobProperties.entries), s, loadClass),
                     outcome, tableDesc, jobProperties)
    ensures outcome.Fail? ==> unchanged(tableDesc, jobProperties)
  {
    var k := s.keys;
    var tableProperties := tableDesc.properties;

    var inputFormatClass: ClassToken;
    if k.inputFormatClass in tableProperties {
      var inputFormatClassName := tableProperties[k.inputFormatClass];
      var loaded := loadClass(inputFormatClassName);
      if loaded.None? {
        return Fail(InputFormatNotLoadable(inputFormatClassName));
      }
      inputFormatClass := loaded.value;
    } else {
      inputFormatClass := s.defaultInputFormat;
    }
    tableDesc.inputFileFormatClass := Some(inputFormatClass);

    var tableName: string;
    if k.phoenixTableName in tableDesc.properties {
      tableName := tableDesc.properties[k.phoenixTableName];
    } else {
      tableName := tableDesc.tableName;
      tableDesc.properties := tableDesc.properties[k.phoenixTableName := tableName];
    }

    jobProperties.Put(k.inputTableName, tableName);
    jobProperties.Put(k.zkQuorum, Lookup(tableDesc.properties, k.zkQuorum, s.defaultQuorum));
    jobProperties.Put(k.zkPort, Lookup(tableDesc.properties, k.zkPort, Decimal.DecimalString(s.defaultPort)));
    jobProperties.Put(k.zkParent, Lookup(tableDesc.properties, k.zkParent, s.defaultParent));
    jobProperties.Put(k.metaTableStorage, s.handlerClassName);

    jobProperties.Put(k.hbaseQuorum, jobProperties.entries[k.zkQuorum]);
    jobProperties.Put(k.hbaseClientPort, jobProperties.entries[k.zkPort]);
    jobProperties.Put(k.hbaseZnodeParent, jobProperties.entries[k.zkParent]);
    outcome := Pass;
  }

  /** configureInputJobProperties: the shared routine, then the input work-mode marker. */
  method ConfigureInputJobProperties(tableDesc: TableDesc, jobProperties: PropertyMap, s: Settings,
                                     loadClass: string -> Option<ClassToken>)
    returns (outcome: Outcome<ConfigError>)
    modifies tableDesc, jobProperties
    ensures Reflects(Configure(InputPhase, old(tableDesc.properties), tableDesc.tableName,
                               old(jobProperties.entries), s, loadClass),
                     outcome, tableDesc, jobProperties)
    ensures outcome.Fail? ==> unchanged(tableDesc, jobProperties)
  {
    outcome := ConfigureJobProperties(tableDesc, jobProperties, s, loadClass);
    if outcome.Pass? {
      tableDesc.properties := tableDesc.properties[s.keys.inOutWork := s.inWork];
    }
  }

  /** configureOutputJobProperties: the shared routine, then the output work-mode marker. */
  method ConfigureOutputJobProperties(tableDesc: TableDesc, jobProperties: PropertyMap, s: Settings,
                                      loadClass: string -> Option<ClassToken>)
    returns (outcome: Outcome<ConfigError>)
    modifies tableDesc, jobProperties
    ensures Reflects(Configure(OutputPhase, old(tableDesc.properties), tableDesc.tableName,
                               old(jobProperties.entries), s, loadClass),
                     outcome, tableDesc, jobProperties)
    ensures outcome.Fail? ==> unchanged(tableDesc, jobProperties)
  {
    outcome := ConfigureJobProperties(tableDesc, jobProperties, s, loadClass);
    if outcome.Pass? {
      tableDesc.properties := tableDesc.properties[s.keys.inOutWork := s.outWork];
    }
  }

  /** configureTableJobProperties: the shared routine alone, with no work-mode marker. */
  method ConfigureTableJobProperties(tableDesc: TableDesc, jobProperties: PropertyMap, s: Settings,
                                     loadClass: string -> Option<ClassToken>)
    returns (outcome: Outcome<ConfigError>)
    modifies tableDesc, jobProperties
    ensures Reflects(Configure(TablePhase, old(tableDesc.properties), tableDesc.tableName,
                               old(jobProperties.entries), s, loadClass),
                     outcome, tableDesc, jobProperties)
    ensures outcome.Fail? ==> unchanged(tableDesc, jobProperties)
  {
    outcome := ConfigureJobProperties(tableDesc, jobProperties, s, loadClass);
  }

  // ---------------------------------------------------------------------------------------------
  // Lemmas about the configuration
  // ---------------------------------------------------------------------------------------------

  /** Putting the same eight entries a second time changes nothing. */
  lemma ConfiguredJobIdempotent(job: map<string, string>, tableName: string,
                                tableProps: map<string, string>, s: Settings)
    requires s.keys.JobKeysDistinct()
    ensures var once := ConfiguredJob(job, tableName, tableProps, s);
      ConfiguredJob(once, tableName, tableProps, s) == once
  {
  }

  /** Whatever the property names, the HBase parent entry holds what the Phoenix parent entry
      holds: it is the last put, and its value is read back from that entry just before. */
  lemma ConfiguredJobParentMirror(job: map<string, string>, tableName: string,
                                  tableProps: map<string, string>, s: Settings)
    ensures var r, k := ConfiguredJob(job, tableName, tableProps, s), s.keys;
      r[k.hbaseZnodeParent] == r[k.zkParent]
  {
  }

  /** The three HBase entries mirror their Phoenix counterparts as soon as no later put of the
      mirroring overwrites an entry read or written before it. */
  lemma ConfiguredJobMirrors(job: map<string, string>, tableName: string,
                             tableProps: map<string, string>, s: Settings)
    requires s.keys.hbaseQuorum != s.keys.hbaseClientPort
    requires s.keys.hbaseQuorum != s.keys.hbaseZnodeParent
    requires s.keys.hbaseClientPort != s.keys.hbaseZnodeParent
    requires s.keys.zkQuorum != s.keys.hbaseClientPort
    requires s.keys.zkQuorum != s.keys.hbaseZnodeParent
    requires s.keys.zkPort != s.keys.hbaseZnodeParent
    ensures var r, k := ConfiguredJob(job, tableName, tableProps, s), s.keys;
      && r[k.hbaseQuorum] == r[k.zkQuorum]
      && r[k.hbaseClientPort] == r[k.zkPort]
      && r[k.hbaseZnodeParent] == r[k.zkParent]
  {
  }

  /** When each Phoenix ZooKeeper name is HBase's own name for the same setting, the mirroring
      rewrites each entry with its own value, so the resolved ZooKeeper values survive. */
  lemma ConfiguredJobSharedZooKeeperKeys(job: map<string, string>, tableName: string,
                                         tableProps: map<string, string>, s: Settings)
    requires s.keys.hbaseQuorum == s.keys.zkQuorum
    requires s.keys.hbaseClientPort == s.keys.zkPort
    requires s.keys.hbaseZnodeParent == s.keys.zkParent
    requires s.keys.zkQuorum != s.keys.zkPort && s.keys.zkQuorum != s.keys.zkParent
    requires s.keys.zkPort != s.keys.zkParent
    requires s.keys.metaTableStorage !in {s.keys.zkQuorum, s.keys.zkPort, s.keys.zkParent}
    ensures var r, k := ConfiguredJob(job, tableName, tableProps, s), s.keys;
      && r[k.zkQuorum] == Lookup(tableProps, k.zkQuorum, s.defaultQuorum)
      && r[k.zkPort] == Lookup(tableProps, k.zkPort, Decimal.DecimalString(s.defaultPort))
      && r[k.zkParent] == Lookup(tableProps, k.zkParent, s.defaultParent)
  {
  }

  /** The job-map update reads only the zookeeper entries of the table properties. */
  lemma ConfiguredJobReads(job: map<string, string>, tableName: string,
                           p: map<string, string>, q: map<string, string>, s: Settings)
    requires forall key :: key in {s.keys.zkQuorum, s.keys.zkPort, s.keys.zkParent} ==>
      Lookup(p, key, "") == Lookup(q, key, "") && (key in p <==> key in q)
    ensures ConfiguredJob(job, tableName, p, s) == ConfiguredJob(job, tableName, q, s)
  {
  }

  /** For any property names, a successful phase adds exactly the eight written keys to the job
      properties and keeps every other job entry; the table properties gain at most the table
      name and the work-mode marker, and every other table entry keeps its value. */
  lemma ConfigureFrame(phase: Phase, props: map<string, string>, hiveTableName: string,
                       job: map<string, string>, s: Settings,
                       loadClass: string -> Option<ClassToken>)
    requires Configure(phase, props, hiveTableName, job, s, loadClass).Success?
    ensures var c, k := Configure(phase, props, hiveTableName, job, s, loadClass).value, s.keys;
      && c.jobProperties.Keys == job.Keys + k.JobKeys()
      && (forall key :: key in job && key !in k.JobKeys() ==> c.jobProperties[key] == job[key])
    ensures var c, k := Configure(phase, props, hiveTableName, job, s, loadClass).value, s.keys;
      && k.phoenixTableName in c.tableProperties
      && (forall key :: key in c.tableProperties ==>
            key in props || key == k.phoenixTableName || key == k.inOutWork)
      && (forall key :: key in props && key != k.phoenixTableName && key != k.inOutWork ==>
            key in c.tableProperties && c.tableProperties[key] == props[key])
  {
  }

  /** Running a phase again on what it left behind changes nothing: same table properties,
      same input-format class, same job properties. */
  lemma ConfigureIdempotent(phase: Phase, props: map<string, string>, hiveTableName: string,
                            job: map<string, string>, s: Settings,
                            loadClass: string -> Option<ClassToken>)
    requires s.keys.Distinct()
    requires Configure(phase, props, hiveTableName, job, s, loadClass).Success?
    ensures var c := Configure(phase, props, hiveTableName, job, s, loadClass).value;
      Configure(phase, c.tableProperties, hiveTableName, c.jobProperties, s, loadClass) == Success(c)
  {
    var k := s.keys;
    var c := Configure(phase, props, hiveTableName, job, s, loadClass).value;
    var tp := c.tableProperties;
    var resolved := ResolvedTableProperties(props, hiveTableName, k);
    var tableName := Lookup(props, k.phoenixTableName, hiveTableName);
    assert tp == WorkMarked(phase, resolved, s);
    assert c.jobProperties == ConfiguredJob(job, tableName, resolved, s);
    // the class name is read from an entry neither step touches
    assert Lookup(tp, k.inputFormatClass, "") == Lookup(props, k.inputFormatClass, "");
    assert InputFormatFor(tp, s, loadClass) == InputFormatFor(props, s, loadClass);
    // the table name is now present, with the value resolved the first time
    assert ResolvedTableProperties(tp, hiveTableName, k) == tp;
    assert Lookup(tp, k.phoenixTableName, hiveTableName) == tableName;
    assert WorkMarked(phase, tp, s) == tp;
    // the job update reads the same zookeeper entries, and puts the same entries again
    ConfiguredJobReads(c.jobProperties, tableName, tp, resolved, s);
    ConfiguredJobIdempotent(job, tableName, resolved, s);
  }

  /** The three phases write the same job properties and the same input-format class; they
      differ only in the work-mode marker. */
  lemma PhasesShareJobProperties(p1: Phase, p2: Phase, props: map<string, string>,
                                 hiveTableName: string, job: map<string, string>, s: Settings,
                                 loadClass: string -> Option<ClassToken>)
    requires Configure(p1, props, hiveTableName, job, s, loadClass).Success?
    ensures var c1 := Configure(p1, props, hiveTableName, job, s, loadClass);
            var c2 := Configure(p2, props, hiveTableName, job, s, loadClass);
      && c2.Success?
      && c1.value.jobProperties == c2.value.jobProperties
      && c1.value.inputFormat == c2.value.inputFormat
      && c1.value.tableProperties - {s.keys.inOutWork} == c2.value.tableProperties - {s.keys.inOutWork}
  {
  }

  // ---------------------------------------------------------------------------------------------
  // The input-size estimate
  // ---------------------------------------------------------------------------------------------

  type Int32 = x: int | -0x8000_0000 <= x < 0x8000_0000
  type Int64 = x: int | -0x8000_0000_0000_0000 <= x < 0x8000_0000_0000_0000

  const TwoTo64: int := 0x1_0000_0000_0000_0000

  /** The job configuration, as the values its `getInt` and `getLong` return for set keys. */
  datatype JobConf = JobConf(intSettings: map<string, Int32>, longSettings: map<string, Int64>)

  /** The names the estimate looks up. */
  datatype EstimatorKeys = EstimatorKeys(
    reducerNumberSuffix: string,   // appended to the Hive table name: per-table reducer count
    bytesPerReducer: string)       // Hive's bytes-per-reducer setting

  /** Hive's size estimate: a row count and a total length in bytes. */
  datatype Estimation = Estimation(rowCount: Int32, totalLength: Int64)

  /** Java's `long` arithmetic: the unique 64-bit two's-complement value congruent to `x`. */
  function WrapLong(x: int): (r: Int64)
    ensures (r - x) % TwoTo64 == 0
    ensures -0x8000_0000_0000_0000 <= x < 0x8000_0000_0000_0000 ==> r == x
  {
    var m := (x + 0x8000_0000_0000_0000) % TwoTo64;
    assert (m - (x + 0x8000_0000_0000_0000)) % TwoTo64 == 0;
    m - 0x8000_0000_0000_0000
  }

  /** `job.getInt(hiveTableName + suffix, 1)`. */
  function ReducerCount(job: JobConf, hiveTableName: string, ek: EstimatorKeys): Int32 {
    var key := hiveTableName + ek.reducerNumberSuffix;
    if key in job.intSettings then job.intSettings[key] else 1
  }

  /** `job.getLong(bytesPerReducer, default)`. */
  function BytesPerReducer(job: JobConf, ek: EstimatorKeys, bytesPerReducerDefault: Int64): Int64 {
    if ek.bytesPerReducer in job.longSettings then job.longSettings[ek.bytesPerReducer]
    else bytesPerReducerDefault
  }

  /** estimate: no row count, and the reducer count times the bytes per reducer as a Java
      `long` product. */
  function Estimate(job: JobConf, hiveTableName: string, ek: EstimatorKeys,
                    bytesPerReducerDefault: Int64, remaining: Int64): (e: Estimation)
    ensures e.rowCount == 0
    ensures var product := ReducerCount(job, hiveTableName, ek) * BytesPerReducer(job, ek, bytesPerReducerDefault);
      && (e.totalLength - product) % TwoTo64 == 0
      && (-0x8000_0000_0000_0000 <= product < 0x8000_0000_0000_0000 ==> e.totalLength == product)
  {
    var reducerCount := ReducerCount(job, hiveTableName, ek);
    var bytesPerReducer := BytesPerReducer(job, ek, bytesPerReducerDefault);
    Estimation(0, WrapLong(reducerCount * bytesPerReducer))
  }

  /** The `remaining` argument has no effect. */
  lemma EstimateIgnoresRemaining(job: JobConf, hiveTableName: string, ek: EstimatorKeys,
                                 bytesPerReducerDefault: Int64, r1: Int64, r2: Int64)
    ensures Estimate(job, hiveTableName, ek, bytesPerReducerDefault, r1)
         == Estimate(job, hiveTableName, ek, bytesPerReducerDefault, r2)
  {
  }

  /** With no per-table reducer count the estimate is one reducer's worth of bytes. */
  lemma EstimateDefaultsToOneReducer(job: JobConf, hiveTableName: string, ek: EstimatorKeys,
                                     bytesPerReducerDefault: Int64, remaining: Int64)
    requires hiveTableName + ek.reducerNumberSuffix !in job.intSettings
    ensures Estimate(job, hiveTableName, ek, bytesPerReducerDefault, remaining)
         == Estimation(0, BytesPerReducer(job, ek, bytesPerReducerDefault))
  {
  }

  /** Four reducers of 1000 bytes each: an estimate of 4000 bytes. */
  lemma EstimateFourReducers(job: JobConf, hiveTableName: string, ek: EstimatorKeys,
                             remaining: Int64)
    requires job.intSettings == map[hiveTableName + ek.reducerNumberSuffix := 4]
    requires job.longSettings == map[]
    ensures Estimate(job, hiveTableName, ek, 1000, remaining) == Estimation(0, 4000)
  {
  }
}
